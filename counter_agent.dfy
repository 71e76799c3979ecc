/** The hand-written `CounterAgent`: a `Counter` owned by one loop that takes
    one event at a time, a lifecycle signal or a request for one of the
    counter's methods, and answers each request on that method's response
    channel. The generator emits this shape for every interface. Channels
    are modelled by which of them are open; the events the loop receives
    are a sequence given to it. */
module CounterAgents {
  import opened Wrappers
  import opened Counters

  /** Go's `byte`. */
  type byte = b: int | 0 <= b < 256

  /** `AgentSignal` values (`iota` from 0). */
  const AGENT_START: byte := 0
  const AGENT_STOP: byte := 1
  const AGENT_CLOSE: byte := 2

  /** `AgentState` values the loop assigns. */
  datatype AgentState = Started | Stopped | Closed

  /** The agent's seven channels. */
  datatype Channel = Signal | ReqAdd | ResAdd | ReqSub | ResSub | ReqTotal | ResTotal

  const AllChannels: set<Channel> := {Signal, ReqAdd, ResAdd, ReqSub, ResSub, ReqTotal, ResTotal}

  /** What one `select` receives: a signal or a request. */
  datatype Event = SignalEvent(s: byte) | Request(call: Call)

  /** A value sent on a response channel. */
  datatype Reply = Reply(channel: Channel, value: int)

  /** The agent as the loop sees it. */
  datatype Snapshot = Snapshot(val: int, state: AgentState, open: set<Channel>)

  /** One loop iteration's outcome: the new agent, the response sent (if
      any), and whether the loop returned. */
  datatype Transition = Transition(after: Snapshot, reply: Option<Reply>, exits: bool)

  function RequestChannel(c: Call): Channel {
    match c
    case AddCall(_) => ReqAdd
    case SubCall(_) => ReqSub
    case TotalCall => ReqTotal
  }

  function ResponseChannel(c: Call): Channel {
    match c
    case AddCall(_) => ResAdd
    case SubCall(_) => ResSub
    case TotalCall => ResTotal
  }

  /** `NewCounterAgent(start)`'s agent. */
  function Initial(start: int): Snapshot {
    Snapshot(start, Started, AllChannels)
  }

  /** The agent while its loop runs. */
  predicate Running(a: Snapshot) {
    a.state != Closed && a.open == AllChannels && IsInt64(a.val)
  }

  predicate WellTypedEvent(e: Event) {
    e.Request? ==> WellTyped(e.call)
  }

  /** One iteration of `runLoop`: the signal switch (which has no default
      arm), or a request served by the wrapped counter. */
  function Dispatch(a: Snapshot, e: Event): (t: Transition)
    ensures t.exits <==> e == SignalEvent(AGENT_CLOSE)
    ensures t.reply.Some? <==> e.Request?
  {
    match e
    case SignalEvent(s) =>
      if s == AGENT_START then Transition(a.(state := Started), None, false)
      else if s == AGENT_STOP then Transition(a.(state := Stopped), None, false)
      else if s == AGENT_CLOSE then Transition(a.(state := Closed, open := {}), None, true)
      else Transition(a, None, false)
    case Request(c) =>
      var x := Effect(a.val, c);
      Transition(a.(val := x), Some(Reply(ResponseChannel(c), x)), false)
  }

  /** The loop's record of a run: the agent and the responses sent. */
  datatype Trace = Trace(after: Snapshot, replies: seq<Reply>)

  function ReplyList(r: Option<Reply>): seq<Reply> {
    if r.Some? then [r.value] else []
  }

  /** The loop run over the events it receives, in order; once it has
      returned it takes no further events. */
  function Run(a: Snapshot, es: seq<Event>): Trace
  {
    if es == [] then Trace(a, [])
    else
      var p := Run(a, es[..|es| - 1]);
      if p.after.state == Closed then p
      else
        var t := Dispatch(p.after, es[|es| - 1]);
        Trace(t.after, p.replies + ReplyList(t.reply))
  }

  // ---------------------------------------------------------------------
  // The Go struct `CounterAgent`, as a class.

  class CounterAgent {
    const wrapped: Counter
    var state: AgentState
    var open: set<Channel>

    function Snap(): Snapshot
      reads this, wrapped
    {
      Snapshot(wrapped.val, state, open)
    }

    /** `NewCounterAgent(start)`: wraps `NewCounter(start)`, makes the
        channels and starts in `AGENT_STARTED`. */
    constructor (start: int)
      requires IsInt64(start)
      ensures fresh(wrapped)
      ensures Snap() == Initial(start)
    {
      wrapped := new Counter(start);
      state := Started;
      open := AllChannels;
    }

    /** One iteration of `runLoop`. */
    method Step(e: Event) returns (reply: Option<Reply>, exits: bool)
      requires Running(Snap()) && WellTypedEvent(e)
      modifies this, wrapped
      ensures Transition(Snap(), reply, exits) == Dispatch(old(Snap()), e)
    {
      reply, exits := None, false;
      match e {
        case SignalEvent(s) =>
          if s == AGENT_START {
            state := Started;
          } else if s == AGENT_STOP {
            state := Stopped;
          } else if s == AGENT_CLOSE {
            state := Closed;
            open := open - {ReqAdd};
            open := open - {ResAdd};
            open := open - {ReqSub};
            open := open - {ResSub};
            open := open - {ReqTotal};
            open := open - {ResTotal};
            open := open - {Signal};
            exits := true;
          }
        case Request(c) =>
          match c {
            case AddCall(v) =>
              var r := wrapped.Add(v);
              reply := Some(Reply(ResAdd, r));
            case SubCall(v) =>
              var r := wrapped.Sub(v);
              reply := Some(Reply(ResSub, r));
            case TotalCall =>
              var r := wrapped.Total();
              reply := Some(Reply(ResTotal, r));
          }
      }
    }

    /** `runLoop` over the events it receives: one event per iteration,
        until `AGENT_CLOSE` makes it return. */
    method RunLoop(events: seq<Event>) returns (replies: seq<Reply>)
      requires Running(Snap())
      requires forall i :: 0 <= i < |events| ==> WellTypedEvent(events[i])
      modifies this, wrapped
      ensures Trace(Snap(), replies) == Run(old(Snap()), events)
    {
      ghost var a := Snap();
      replies := [];
      var i, exits := 0, false;
      while i < |events| && !exits
        invariant 0 <= i <= |events|
        invariant Trace(Snap(), replies) == Run(a, events[..i])
        invariant exits <==> state == Closed
        invariant !exits ==> Running(Snap())
      {
        assert events[..i + 1][..i] == events[..i];
        var r;
        r, exits := Step(events[i]);
        replies := replies + ReplyList(r);
        i := i + 1;
      }
      if i < |events| {
        RunStaysClosed(a, events, i);
      } else {
        assert events[..i] == events;
      }
    }

    /** The forwarding `Add`: one request on `reqAdd`, answered by the loop,
        whose response's only field is the result. */
    method Add(v: int) returns (r: int)
      requires Running(Snap()) && IsInt64(v)
      modifies this, wrapped
      ensures Snap() == old(Snap()).(val := r)
      ensures r == Effect(old(wrapped.val), AddCall(v))
    {
      var reply, _ := Step(Request(AddCall(v)));
      r := reply.value.value;
    }

    /** The forwarding `Sub`. */
    method Sub(v: int) returns (r: int)
      requires Running(Snap()) && IsInt64(v)
      modifies this, wrapped
      ensures Snap() == old(Snap()).(val := r)
      ensures r == Effect(old(wrapped.val), SubCall(v))
    {
      var reply, _ := Step(Request(SubCall(v)));
      r := reply.value.value;
    }

    /** The forwarding `Total`. */
    method Total() returns (r: int)
      requires Running(Snap())
      modifies this, wrapped
      ensures Snap() == old(Snap())
      ensures r == wrapped.val
    {
      var reply, _ := Step(Request(TotalCall));
      r := reply.value.value;
    }

    /** `Start`, `Stop` and `Close`: one signal each. */
    method Start()
      requires Running(Snap())
      modifies this, wrapped
      ensures Snap() == old(Snap()).(state := Started)
    {
      var _, _ := Step(SignalEvent(AGENT_START));
    }

    method Stop()
      requires Running(Snap())
      modifies this, wrapped
      ensures Snap() == old(Snap()).(state := Stopped)
    {
      var _, _ := Step(SignalEvent(AGENT_STOP));
    }

    method Close()
      requires Running(Snap())
      modifies this, wrapped
      ensures Snap() == old(Snap()).(state := Closed, open := {})
    {
      var _, _ := Step(SignalEvent(AGENT_CLOSE));
    }
  }

  // ---------------------------------------------------------------------
  // Properties of the loop.

  /** Once the loop has returned, later events change nothing. */
  lemma {:induction false} RunStaysClosed(a: Snapshot, es: seq<Event>, i: int)
    requires 0 <= i <= |es|
    requires Run(a, es[..i]).after.state == Closed
    ensures Run(a, es) == Run(a, es[..i])
    decreases |es| - i
  {
    if i < |es| {
      assert es[..i + 1][..i] == es[..i];
      RunStaysClosed(a, es, i + 1);
    } else {
      assert es[..i] == es;
    }
  }

  /** `AGENT_START` and `AGENT_STOP` set the state and keep the loop going;
      `AGENT_CLOSE` sets `AGENT_CLOSED`, closes all seven channels and
      returns; any other signal value changes nothing. */
  lemma SignalTransitions(a: Snapshot, s: byte)
    ensures s == AGENT_START ==> Dispatch(a, SignalEvent(s)) == Transition(a.(state := Started), None, false)
    ensures s == AGENT_STOP ==> Dispatch(a, SignalEvent(s)) == Transition(a.(state := Stopped), None, false)
    ensures s == AGENT_CLOSE ==>
      Dispatch(a, SignalEvent(s)) == Transition(Snapshot(a.val, Closed, {}), None, true)
    ensures s > AGENT_CLOSE ==> Dispatch(a, SignalEvent(s)) == Transition(a, None, false)
  {
  }

  /** A request is answered with what the wrapped method returns, on that
      method's response channel; the state is not consulted and not
      changed, so a stopped agent serves requests as a started one does. */
  lemma RequestsIgnoreState(a: Snapshot, st: AgentState, c: Call)
    ensures Dispatch(a, Request(c)).after == a.(val := Effect(a.val, c))
    ensures Dispatch(a, Request(c)).reply == Some(Reply(ResponseChannel(c), Effect(a.val, c)))
    ensures Dispatch(a.(state := st), Request(c)).reply == Dispatch(a, Request(c)).reply
  {
  }

  function Values(rs: seq<Reply>): (r: seq<int>)
    ensures |r| == |rs| && forall k :: 0 <= k < |rs| ==> r[k] == rs[k].value
  {
    seq(|rs|, k requires 0 <= k < |rs| => rs[k].value)
  }

  /** The calls among the events, in order. */
  function Calls(es: seq<Event>): seq<Call>
  {
    if es == [] then []
    else
      var n := |es| - 1;
      Calls(es[..n]) + (if es[n].Request? then [es[n].call] else [])
  }

  predicate NoClose(es: seq<Event>) {
    forall i :: 0 <= i < |es| ==> es[i] != SignalEvent(AGENT_CLOSE)
  }

  /** Serialised dispatch: however signals other than `AGENT_CLOSE` are
      interleaved, the loop leaves the counter where making the requested
      calls one after another would, and answers each, on that call's
      response channel, with the value that call returns. */
  lemma RunIsSequential(a: Snapshot, es: seq<Event>)
    requires a.state != Closed
    requires NoClose(es)
    ensures Run(a, es).after.state != Closed
    ensures Run(a, es).after.val == Final(a.val, Calls(es))
    ensures Values(Run(a, es).replies) == Replies(a.val, Calls(es))
    ensures forall k :: 0 <= k < |Calls(es)| ==> Run(a, es).replies[k].channel == ResponseChannel(Calls(es)[k])
  {
    RunServesCalls(a, es);
    RunReplyChannels(a, es);
  }

  lemma NoClosePrefix(es: seq<Event>, n: nat)
    requires NoClose(es) && n <= |es|
    ensures NoClose(es[..n])
  {
    forall i | 0 <= i < n ensures es[..n][i] != SignalEvent(AGENT_CLOSE) {
      assert es[..n][i] == es[i];
    }
  }

  /** The values: the counter and the replies are those of the calls made
      one after another. */
  lemma {:induction false} RunServesCalls(a: Snapshot, es: seq<Event>)
    requires a.state != Closed
    requires NoClose(es)
    ensures Run(a, es).after.state != Closed
    ensures Run(a, es).after.val == Final(a.val, Calls(es))
    ensures Values(Run(a, es).replies) == Replies(a.val, Calls(es))
  {
    if es != [] {
      var n := |es| - 1;
      NoClosePrefix(es, n);
      RunServesCalls(a, es[..n]);
      var p := Run(a, es[..n]);
      if es[n].Request? {
        var cs := Calls(es[..n]) + [es[n].call];
        assert cs[..|cs| - 1] == Calls(es[..n]);
        assert Values(p.replies + ReplyList(Dispatch(p.after, es[n]).reply))
          == Values(p.replies) + [Effect(p.after.val, es[n].call)];
      } else {
        assert Calls(es) == Calls(es[..n]);
        assert ReplyList(Dispatch(p.after, es[n]).reply) == [];
        assert p.replies + [] == p.replies;
      }
    }
  }

  /** The channels: one reply per call, each on that call's response
      channel. */
  lemma {:induction false} RunReplyChannels(a: Snapshot, es: seq<Event>)
    requires a.state != Closed
    requires NoClose(es)
    ensures |Run(a, es).replies| == |Calls(es)|
    ensures forall k :: 0 <= k < |Calls(es)| ==> Run(a, es).replies[k].channel == ResponseChannel(Calls(es)[k])
  {
    if es != [] {
      var n := |es| - 1;
      NoClosePrefix(es, n);
      RunReplyChannels(a, es[..n]);
      RunServesCalls(a, es[..n]);
      var p := Run(a, es[..n]);
      if es[n].Request? {
        var c := es[n].call;
        assert Run(a, es).replies == p.replies + [Reply(ResponseChannel(c), Effect(p.after.val, c))];
        assert Calls(es) == Calls(es[..n]) + [c];
      } else {
        assert Calls(es) == Calls(es[..n]);
        assert ReplyList(Dispatch(p.after, es[n]).reply) == [];
        assert Run(a, es).replies == p.replies + [];
        assert p.replies + [] == p.replies;
      }
    }
  }

  /** `TestExampleCounterAgent`: requests served from a counter started at 0,
      in any interleaving of workers each making an even number of
      alternating `Add(1)`/`Sub(1)` calls, then `Total()`, which answers 0. */
  lemma TotalAfterWorkloadIsZero(es: seq<Event>, g: nat, n: nat)
    requires n % 2 == 0
    requires NoClose(es)
    requires multiset(Calls(es)) == multiset(Workers(g, n))
    ensures var rs := Run(Initial(0), es + [Request(TotalCall)]).replies;
      |rs| > 0 && rs[|rs| - 1] == Reply(ResTotal, 0)
  {
    var all := es + [Request(TotalCall)];
    assert all[..|all| - 1] == es;
    RunIsSequential(Initial(0), es);
    ServedWorkloadEndsAtZero(Calls(es), g, n);
  }
}
