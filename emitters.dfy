/** The name selection of the `Write*` emitters in agent_writer.go. Each
    emitter walks the interface's methods in order and, per method, picks the
    channel names, argument names and result names it prints. The printed
    text itself (tabs, newlines, templates) is not modelled: each emitter
    returns the records it would print from. */
module Emitters {
  import opened Wrappers
  import opened GoAst
  import opened Decimal
  import opened FieldLists
  import opened AgentWriter

  // ---------------------------------------------------------------------
  // The per-group name loop the emitters repeat.

  function Qualify(q: string, names: seq<string>): (r: seq<string>)
    ensures |r| == |names|
  {
    seq(|names|, k requires 0 <= k < |names| => q + names[k])
  }

  /** Names chosen group by group: each declared name behind qualifier `q`,
      or `unnamed` followed by the 1-based group position. */
  function Selected(fields: seq<Field>, q: string, unnamed: string): seq<string>
  {
    if fields == [] then []
    else
      var n := |fields| - 1;
      Selected(fields[..n], q, unnamed)
        + (if |fields[n].names| == 0 then [unnamed + NatToDecimal(n + 1)] else Qualify(q, fields[n].names))
  }

  /** The loop `for i, param := range list { for _, pname := range param.Names
      {...}; if len(param.Names) == 0 {...} }` that every emitter repeats. */
  method SelectNames(fields: seq<Field>, q: string, unnamed: string) returns (names: seq<string>)
    ensures names == Selected(fields, q, unnamed)
  {
    names := [];
    var i := 0;
    while i < |fields|
      invariant 0 <= i <= |fields|
      invariant names == Selected(fields[..i], q, unnamed)
    {
      ghost var before := names;
      var pnames := fields[i].names;
      var j := 0;
      while j < |pnames|
        invariant 0 <= j <= |pnames|
        invariant names == before + Qualify(q, pnames[..j])
      {
        assert Qualify(q, pnames[..j + 1]) == Qualify(q, pnames[..j]) + [q + pnames[j]];
        names := names + [q + pnames[j]];
        j := j + 1;
      }
      if |pnames| == 0 {
        names := names + [unnamed + NatToDecimal(i + 1)];
      }
      assert pnames[..j] == pnames;
      assert fields[..i + 1][..i] == fields[..i];
      i := i + 1;
    }
    assert fields[..i] == fields;
  }

  lemma QualifyConcat(q: string, a: seq<string>, b: seq<string>)
    ensures Qualify(q, a + b) == Qualify(q, a) + Qualify(q, b)
  {
  }

  /** When the unnamed stem is the qualifier followed by a prefix, the loop
      selects exactly the qualified normalised names of the list. */
  lemma {:induction false} SelectedIsResolved(fields: seq<Field>, q: string, p: string)
    ensures Selected(fields, q, q + p) == Qualify(q, ResolvedNames(fields, p))
  {
    if fields != [] {
      var n := |fields| - 1;
      SelectedIsResolved(fields[..n], q, p);
      var head := ResolvedNames(fields[..n], p);
      if |fields[n].names| == 0 {
        var d := NatToDecimal(n + 1);
        assert ResolvedNames(fields, p) == head + [p + d];
        assert q + p + d == q + (p + d);
        assert Qualify(q, [p + d]) == [q + (p + d)];
        QualifyConcat(q, head, [p + d]);
      } else {
        QualifyConcat(q, head, fields[n].names);
      }
    }
  }

  lemma QualifyNothing(names: seq<string>)
    ensures Qualify("", names) == names
  {
    forall k | 0 <= k < |names| ensures Qualify("", names)[k] == names[k] {
      assert "" + names[k] == names[k];
    }
  }

  // ---------------------------------------------------------------------
  // What the emitters require of each method.

  /** A method the emitters can handle: it has a name (embedded interfaces
      have none, and `Names[0]` would panic), a signature, and a result list
      (a void method's nil `Results` would be dereferenced). */
  predicate Emittable(m: InterfaceElem) {
    |m.names| > 0 && m.kind.MethodSig? && m.kind.sig.results.Some?
  }

  predicate AllEmittable(ms: seq<InterfaceElem>) {
    forall k :: 0 <= k < |ms| ==> Emittable(ms[k])
  }

  function Params(m: InterfaceElem): seq<Field>
    requires Emittable(m)
  {
    m.kind.sig.params
  }

  function Results(m: InterfaceElem): seq<Field>
    requires Emittable(m)
  {
    m.kind.sig.results.value
  }

  // ---------------------------------------------------------------------
  // WriteAgentType

  /** One entry of `tmplAgentTypeParams.Methods`. */
  datatype MethodEntry = MethodEntry(name: string, requestType: string, responseType: string)

  datatype AgentTypeParams = AgentTypeParams(interfaceName: string, methods: seq<MethodEntry>)

  function EntryFor(m: InterfaceElem): MethodEntry
    requires Emittable(m)
  {
    MethodEntry(m.names[0], MethodParams(m.kind.sig), MethodReturns(m.kind.sig))
  }

  /** `WriteAgentType`: the template parameters, one entry per method in
      declaration order. As in the source, the entries carry the bare field
      lists, not `struct{...}` types. */
  method WriteAgentType(w: Writer) returns (params: AgentTypeParams)
    requires AllEmittable(InterfaceMethods(w.input, w.interfaceName))
    ensures params.interfaceName == w.interfaceName
    ensures |params.methods| == |InterfaceMethods(w.input, w.interfaceName)|
    ensures forall k :: 0 <= k < |params.methods| ==>
      params.methods[k] == EntryFor(InterfaceMethods(w.input, w.interfaceName)[k])
  {
    var entries := WriteEntries(InterfaceMethods(w.input, w.interfaceName));
    params := AgentTypeParams(w.interfaceName, entries);
  }

  /** The loop over the interface's methods in `WriteAgentType`. */
  method WriteEntries(ms: seq<InterfaceElem>) returns (entries: seq<MethodEntry>)
    requires AllEmittable(ms)
    ensures |entries| == |ms|
    ensures forall k :: 0 <= k < |entries| ==> entries[k] == EntryFor(ms[k])
  {
    entries := [];
    var k := 0;
    while k < |ms|
      invariant 0 <= k <= |ms|
      invariant |entries| == k
      invariant forall i :: 0 <= i < k ==> entries[i] == EntryFor(ms[i])
    {
      var sig := ms[k].kind.sig;
      entries := entries + [MethodEntry(ms[k].names[0], MethodParams(sig), MethodReturns(sig))];
      k := k + 1;
    }
  }

  /** A field of the agent struct the template declares. */
  datatype Slot = WrappedSlot | SignalSlot | StateSlot | ReqSlot(m: InterfaceElem) | ResSlot(m: InterfaceElem)

  function MethodSlots(ms: seq<InterfaceElem>): (r: seq<Slot>)
    ensures |r| == 2 * |ms|
  {
    if ms == [] then []
    else
      var n := |ms| - 1;
      MethodSlots(ms[..n]) + [ReqSlot(ms[n]), ResSlot(ms[n])]
  }

  /** The struct's field order in the template: wrapped, signal, state, then
      the request and response channel of each method. */
  function AgentTypeSlots(ms: seq<InterfaceElem>): (r: seq<Slot>)
    ensures |r| == 3 + 2 * |ms|
    ensures r[..3] == [WrappedSlot, SignalSlot, StateSlot]
  {
    [WrappedSlot, SignalSlot, StateSlot] + MethodSlots(ms)
  }

  // ---------------------------------------------------------------------
  // WriteConstructor

  /** One value of the agent's positional struct literal: the wrapped value,
      `make(chan struct{...})` for a method's request or response channel,
      `make(chan AgentSignal)`, or `AGENT_STARTED`. */
  datatype Init = InitWrapped | MakeRequestChan(m: InterfaceElem) | MakeResponseChan(m: InterfaceElem)
                | MakeSignalChan | InitStarted

  datatype ConstructorPlan = ConstructorPlan(
    funcName: string,        // <cname>Agent
    params: string,          // the wrapped constructor's parameter list
    resultType: string,      // <InterfaceName>Agent
    callee: string,          // the wrapped constructor, called first
    callArgs: seq<string>,   // the names passed to it
    literal: seq<Init>)      // the agent struct literal, in order

  function MethodInits(ms: seq<InterfaceElem>): (r: seq<Init>)
    ensures |r| == 2 * |ms|
  {
    if ms == [] then []
    else
      var n := |ms| - 1;
      MethodInits(ms[..n]) + [MakeRequestChan(ms[n]), MakeResponseChan(ms[n])]
  }

  /** The loop over the interface's methods in `WriteConstructor`. */
  method WriteInits(ms: seq<InterfaceElem>) returns (inits: seq<Init>)
    ensures inits == MethodInits(ms)
  {
    inits := [];
    var k := 0;
    while k < |ms|
      invariant 0 <= k <= |ms|
      invariant inits == MethodInits(ms[..k])
    {
      assert ms[..k + 1][..k] == ms[..k];
      inits := inits + [MakeRequestChan(ms[k]), MakeResponseChan(ms[k])];
      k := k + 1;
    }
    assert ms[..k] == ms;
  }

  /** `WriteConstructor`: fails, before writing anything or looking at the
      interface's methods, when the constructor is missing; otherwise
      forwards every parameter of the wrapped constructor by its normalised
      name and builds the literal: wrapped value, a request and a response
      channel per method, the signal channel, the started state. */
  method WriteConstructor(w: Writer, cname: string) returns (r: Result<ConstructorPlan, string>)
    requires FindConstructor(w.input, cname).Ok? ==> AllEmittable(InterfaceMethods(w.input, w.interfaceName))
    ensures FindConstructor(w.input, cname).Err? ==> r == Err("Failed to locate constructor " + cname)
    ensures FindConstructor(w.input, cname).Ok? ==> r.Ok?
    ensures r.Ok? ==>
      var ctor := FindConstructor(w.input, cname).value;
      var ms := InterfaceMethods(w.input, w.interfaceName);
      && r.value.funcName == cname + "Agent"
      && r.value.params == MethodParams(ctor)
      && r.value.resultType == w.interfaceName + "Agent"
      && r.value.callee == cname
      && r.value.callArgs == ResolvedNames(ctor.params, "arg")
      && r.value.literal == [InitWrapped] + MethodInits(ms) + [MakeSignalChan, InitStarted]
  {
    var found := FindConstructor(w.input, cname);
    if found.Err? {
      return Err(found.error);
    }
    var ctor := found.value;
    var args := SelectNames(ctor.params, "", "arg");
    assert args == ResolvedNames(ctor.params, "arg") by {
      assert "" + "arg" == "arg";
      SelectedIsResolved(ctor.params, "", "arg");
      QualifyNothing(ResolvedNames(ctor.params, "arg"));
    }
    var inits := WriteInits(InterfaceMethods(w.input, w.interfaceName));
    var literal := [InitWrapped] + inits;
    literal := literal + [MakeSignalChan, InitStarted];
    r := Ok(ConstructorPlan(cname + "Agent", MethodParams(ctor), w.interfaceName + "Agent", cname, args, literal));
  }

  // ---------------------------------------------------------------------
  // WriteAgentControl

  /** One `case msg := <-agent.req<Name>:` arm of the generated run loop. */
  datatype DispatchCase = DispatchCase(
    channel: string,        // req<Name>, received from
    locals: seq<string>,    // the variables the results are bound to
    callee: string,         // the wrapped method called
    callArgs: seq<string>,  // the request fields passed to it
    reply: string,          // res<Name>, sent on
    replyFields: string,    // the response literal's type is struct{replyFields}
    replyValues: seq<string>) // the values of the response literal

  function CaseFor(m: InterfaceElem): DispatchCase
    requires Emittable(m)
  {
    DispatchCase("req" + m.names[0], ResolvedNames(Results(m), "rval"), m.names[0],
                 Qualify("msg.", ResolvedNames(Params(m), "arg")),
                 "res" + m.names[0], MethodReturns(m.kind.sig), ResolvedNames(Results(m), "rval"))
  }

  /** `WriteAgentControl`: one dispatch arm per method, in order. The arm
      passes every request field, in order, to the wrapped method, binds its
      results to `rval`-numbered or declared names, and sends exactly those
      back on the method's response channel. */
  method WriteAgentControl(w: Writer) returns (cases: seq<DispatchCase>)
    requires AllEmittable(InterfaceMethods(w.input, w.interfaceName))
    ensures |cases| == |InterfaceMethods(w.input, w.interfaceName)|
    ensures forall k :: 0 <= k < |cases| ==> cases[k] == CaseFor(InterfaceMethods(w.input, w.interfaceName)[k])
  {
    cases := WriteCases(InterfaceMethods(w.input, w.interfaceName));
  }

  /** The loop over the interface's methods in `WriteAgentControl`. */
  method WriteCases(ms: seq<InterfaceElem>) returns (cases: seq<DispatchCase>)
    requires AllEmittable(ms)
    ensures |cases| == |ms|
    ensures forall k :: 0 <= k < |cases| ==> cases[k] == CaseFor(ms[k])
  {
    cases := [];
    var k := 0;
    while k < |ms|
      invariant 0 <= k <= |ms|
      invariant |cases| == k
      invariant forall i :: 0 <= i < k ==> cases[i] == CaseFor(ms[i])
    {
      var c := WriteCase(ms[k]);
      cases := cases + [c];
      k := k + 1;
    }
  }

  /** The body of the loop over the interface's methods in `WriteAgentControl`. */
  method WriteCase(m: InterfaceElem) returns (c: DispatchCase)
    requires Emittable(m)
    ensures c == CaseFor(m)
  {
    var name := m.names[0];
    var sig := m.kind.sig;
    var locals := SelectNames(sig.results.value, "", "rval");
    var args := SelectNames(sig.params, "msg.", "msg.arg");
    var values := SelectNames(sig.results.value, "", "rval");
    assert locals == values == ResolvedNames(Results(m), "rval") by {
      assert "" + "rval" == "rval";
      SelectedIsResolved(sig.results.value, "", "rval");
      QualifyNothing(ResolvedNames(sig.results.value, "rval"));
    }
    assert args == Qualify("msg.", ResolvedNames(Params(m), "arg")) by {
      assert "msg." + "arg" == "msg.arg";
      SelectedIsResolved(sig.params, "msg.", "arg");
    }
    c := DispatchCase("req" + name, locals, name, args, "res" + name, MethodReturns(sig), values);
  }

  // ---------------------------------------------------------------------
  // WriteAgentMethods

  /** One generated forwarding method. */
  datatype Forwarder = Forwarder(
    name: string,
    params: string,            // its parameter list; the request literal's type is struct{params}
    results: string,           // its result list, the response's field list
    channel: string,           // req<Name>, sent on
    requestKeys: seq<string>,  // `key: key` pairs of the request literal
    reply: string,             // res<Name>, received from
    returnExprs: seq<string>)  // what it returns

  function ForwarderFor(m: InterfaceElem): Forwarder
    requires Emittable(m)
  {
    var sig := m.kind.sig;
    Forwarder(m.names[0], MethodParams(sig), MethodReturns(sig), "req" + m.names[0],
              ResolvedNames(Params(m), "arg"), "res" + m.names[0], Selected(Results(m), "res.", "rest.rval"))
  }

  /** `WriteAgentMethods`: one forwarding method per interface method, in
      order; the request literal fills every request field from the wrapper's
      parameter of the same name. The returned expressions are as the source
      writes them (see ForwarderReturnsMisnamed). */
  method WriteAgentMethods(w: Writer) returns (fwds: seq<Forwarder>)
    requires AllEmittable(InterfaceMethods(w.input, w.interfaceName))
    ensures |fwds| == |InterfaceMethods(w.input, w.interfaceName)|
    ensures forall k :: 0 <= k < |fwds| ==> fwds[k] == ForwarderFor(InterfaceMethods(w.input, w.interfaceName)[k])
  {
    fwds := WriteForwarders(InterfaceMethods(w.input, w.interfaceName));
  }

  /** The loop over the interface's methods in `WriteAgentMethods`. */
  method WriteForwarders(ms: seq<InterfaceElem>) returns (fwds: seq<Forwarder>)
    requires AllEmittable(ms)
    ensures |fwds| == |ms|
    ensures forall k :: 0 <= k < |fwds| ==> fwds[k] == ForwarderFor(ms[k])
  {
    fwds := [];
    var k := 0;
    while k < |ms|
      invariant 0 <= k <= |ms|
      invariant |fwds| == k
      invariant forall i :: 0 <= i < k ==> fwds[i] == ForwarderFor(ms[i])
    {
      var f := WriteForwarder(ms[k]);
      fwds := fwds + [f];
      k := k + 1;
    }
  }

  /** The body of the loop over the interface's methods in `WriteAgentMethods`. */
  method WriteForwarder(m: InterfaceElem) returns (f: Forwarder)
    requires Emittable(m)
    ensures f == ForwarderFor(m)
  {
    var name := m.names[0];
    var sig := m.kind.sig;
    var keys := SelectNames(sig.params, "", "arg");
    assert keys == ResolvedNames(Params(m), "arg") by {
      assert "" + "arg" == "arg";
      SelectedIsResolved(sig.params, "", "arg");
      QualifyNothing(ResolvedNames(sig.params, "arg"));
    }
    var rets := SelectNames(sig.results.value, "res.", "rest.rval");
    f := Forwarder(name, MethodParams(sig), MethodReturns(sig), "req" + name, keys, "res" + name, rets);
  }

  // ---------------------------------------------------------------------
  // Agreement between the emitters.

  /** The request a forwarding method sends is the one its dispatch arm
      takes apart: same channel, and the arm passes on, in order, exactly the
      fields the wrapper filled; for a list Go accepts there is one field per
      parameter and no two share a name. */
  lemma RequestProtocol(m: InterfaceElem)
    requires Emittable(m) && WellFormedList(Params(m))
    ensures ForwarderFor(m).channel == CaseFor(m).channel == "req" + m.names[0]
    ensures CaseFor(m).callArgs == Qualify("msg.", ForwarderFor(m).requestKeys)
    ensures |ForwarderFor(m).requestKeys| == FieldCount(Params(m))
    ensures Distinct(ForwarderFor(m).requestKeys)
  {
    WellFormedDistinct(Params(m), "arg");
  }

  /** The dispatch arm sends back every result it bound, in order, on the
      channel the forwarding method waits on, one value per field of the
      response struct; the bound names are distinct. */
  lemma ResponseProtocol(m: InterfaceElem)
    requires Emittable(m) && WellFormedList(Results(m))
    ensures ForwarderFor(m).reply == CaseFor(m).reply == "res" + m.names[0]
    ensures CaseFor(m).replyValues == CaseFor(m).locals
    ensures |CaseFor(m).replyValues| == |Expand(Results(m), "r")|
    ensures |CaseFor(m).locals| == FieldCount(Results(m))
    ensures Distinct(CaseFor(m).locals)
  {
    WellFormedDistinct(Results(m), "rval");
  }

  // ---------------------------------------------------------------------
  // Finding: the forwarding method's return expressions.

  /** The response struct's field selectors, `res.` and each normalised
      result name (`rN` for unnamed results, as `methodReturns` names them). */
  function ResponseSelectors(m: InterfaceElem): (r: seq<string>)
    requires Emittable(m)
    ensures |r| == FieldCount(Results(m))
  {
    Qualify("res.", ResolvedNames(Results(m), "r"))
  }

  /** As written, the forwarding method returns `rest.rvalN` for an unnamed
      result: a variable that does not exist and a field the response struct
      (whose field is `rN`) does not have. `Total() int64` shows it. */
  lemma ForwarderReturnsMisnamed()
    ensures var m := InterfaceElem(["Total"], MethodSig(FuncType([], Some([Field([], "int64")]))));
      && ForwarderFor(m).returnExprs == ["rest.rval1"]
      && ResponseSelectors(m) == ["res.r1"]
  {
    var m := InterfaceElem(["Total"], MethodSig(FuncType([], Some([Field([], "int64")]))));
    var rs := Results(m);
    assert rs[..0] == [];
    assert NatToDecimal(0 + 1) == "1";
    assert "rest.rval" + "1" == "rest.rval1";
    assert Selected(rs, "res.", "rest.rval") == ["rest.rval1"];
    assert "r" + "1" == "r1";
    var names := ResolvedNames(rs, "r");
    assert names == ResolvedNames(rs[..0], "r") + ["r" + NatToDecimal(0 + 1)];
    assert |names| == 1 && names[0] == "r1";
    assert "res." + "r1" == "res.r1";
    assert Qualify("res.", names)[0] == "res.r1";
  }

  /** With declared result names the as-written selectors are right. */
  lemma ForwarderReturnsNamedAgree(m: InterfaceElem)
    requires Emittable(m) && AllNamed(Results(m))
    ensures ForwarderFor(m).returnExprs == ResponseSelectors(m)
  {
    NamedSelected(Results(m), "res.", "rest.rval", "res.r");
    SelectedIsResolved(Results(m), "res.", "r");
    assert "res." + "r" == "res.r";
  }

  /** Without unnamed groups the unnamed stem is never used. */
  lemma {:induction false} NamedSelected(fields: seq<Field>, q: string, u1: string, u2: string)
    requires AllNamed(fields)
    ensures Selected(fields, q, u1) == Selected(fields, q, u2)
  {
    if fields != [] {
      var n := |fields| - 1;
      assert AllNamed(fields[..n]) by {
        forall i | 0 <= i < n ensures fields[..n][i].names != [] {
          assert fields[..n][i] == fields[i];
        }
      }
      NamedSelected(fields[..n], q, u1, u2);
    }
  }

  /** The corrected return expressions: `res.` and the response field's
      own name, for named and unnamed results alike. */
  function ReturnExprs(m: InterfaceElem): (r: seq<string>)
    requires Emittable(m)
    ensures r == ResponseSelectors(m)
  {
    SelectedIsResolved(Results(m), "res.", "r");
    Selected(Results(m), "res.", "res." + "r")
  }

  // ---------------------------------------------------------------------
  // Finding: the order of the agent struct literal.

  /** Whether a literal value can initialise a struct field positionally. */
  predicate Fits(s: Slot, v: Init) {
    match s
    case WrappedSlot => v == InitWrapped
    case SignalSlot => v == MakeSignalChan
    case StateSlot => v == InitStarted
    case ReqSlot(m) => v == MakeRequestChan(m)
    case ResSlot(m) => v == MakeResponseChan(m)
  }

  predicate LiteralFits(slots: seq<Slot>, lit: seq<Init>) {
    |slots| == |lit| && forall k :: 0 <= k < |lit| ==> Fits(slots[k], lit[k])
  }

  /** The literal `WriteConstructor` writes. */
  function AsWrittenLiteral(ms: seq<InterfaceElem>): seq<Init>
  {
    [InitWrapped] + MethodInits(ms) + [MakeSignalChan, InitStarted]
  }

  /** As written, the constructor's positional literal puts the method
      channels before the signal channel and the state, while the template
      declares them after: it fits the struct only for an interface without
      methods. */
  lemma AsWrittenLiteralFitsIff(ms: seq<InterfaceElem>)
    ensures LiteralFits(AgentTypeSlots(ms), AsWrittenLiteral(ms)) <==> ms == []
  {
    var slots, lit := AgentTypeSlots(ms), AsWrittenLiteral(ms);
    if ms == [] {
      assert slots == [WrappedSlot, SignalSlot, StateSlot];
      assert lit == [InitWrapped, MakeSignalChan, InitStarted];
    } else {
      MethodInitsFirst(ms);
      assert lit[1] == MakeRequestChan(ms[0]);
      assert slots[1] == SignalSlot;
      assert !Fits(slots[1], lit[1]);
    }
  }

  lemma {:induction false} MethodInitsFirst(ms: seq<InterfaceElem>)
    requires ms != []
    ensures MethodInits(ms)[0] == MakeRequestChan(ms[0])
  {
    var n := |ms| - 1;
    if n > 0 {
      MethodInitsFirst(ms[..n]);
    }
  }

  /** The corrected literal, in the template's order (and the order of the
      hand-written agent): wrapped value, signal channel, started state, then
      each method's request and response channel. */
  function AgentLiteral(ms: seq<InterfaceElem>): (lit: seq<Init>)
    ensures LiteralFits(AgentTypeSlots(ms), lit)
  {
    MethodInitsFit(ms);
    [InitWrapped, MakeSignalChan, InitStarted] + MethodInits(ms)
  }

  lemma {:induction false} MethodInitsFit(ms: seq<InterfaceElem>)
    ensures LiteralFits(MethodSlots(ms), MethodInits(ms))
  {
    if ms != [] {
      var n := |ms| - 1;
      MethodInitsFit(ms[..n]);
    }
  }
}
