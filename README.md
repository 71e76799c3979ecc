# gogogadget agent generator, modelled in Dafny

gogogadget reads a Go source file and writes an *agent* for one of its
interfaces. The agent is a struct that owns the wrapped implementation and
one request and one response channel per method. It also has a run loop
that serves one request or lifecycle signal at a time. The model covers:

- **Name selection** (`agent_writer.go`):
  - `fieldList` names the fields of a parameter or result list. Declared
    names are kept; an unnamed group becomes `arg<N>` or `r<N>`, where `N`
    is its 1-based position.
  - `methodParams`, `methodReturns`, `requestType`, `responseType`.
  - `findConstructor`, which finds a constructor by name.
  - `interfaceMethods`, which lists an interface's methods in declaration order.
  - The names each `Write*` emitter picks: the agent type's template
    entries, the constructor's call and struct literal, the run loop's
    dispatch arms, and the forwarding methods.
- **The example counter** (`examples/counter.go`): a class whose `Add` and
  `Sub` update an `int64` in place. Go's wrap-around is modelled explicitly.
- **The hand-written agent** (`examples/counter_agent_example.go`):
  - a class whose `Step` is one iteration of `runLoop`, with `RunLoop`
    running a sequence of events;
  - the forwarding methods;
  - `Start`/`Stop`/`Close`;
  - the constructor.

  Its behaviour is specified by a pure `Dispatch`/`Run` pair.
- **The argument scan** in `main` (`main.go`), as a loop proved against a
  recursive `Parse`. A trailing `-i`/`-c`, which indexes past the end of
  `os.Args`, is an error result.

The Go AST is reduced to a closed datatype (`GoAst`), and type expressions
are opaque strings. The emitters return the records they would print from,
not the printed text.

Files:

- `wrappers.dfy`: `Option` and `Result`.
- `decimal.dfy`: `%d` for naturals and its inverse.
- `go_ast.dfy`: the AST.
- `field_lists.dfy`: `fieldList`.
- `agent_writer.dfy`: the helper functions of `AgentWriter`.
- `emitters.dfy`: the `Write*` methods.
- `counter.dfy`, `counter_agent.dfy`: the examples.
- `command_line.dfy`: `main.go`.

## Model

| member | source | states |
|---|---|---|
| FieldLists.FieldList | agent_writer.go:310-337 | the buffer-writing nested loop produces exactly `FieldText`, the groups' texts joined with `", "` |
| FieldLists.FieldTextIsTokens | agent_writer.go:310-337 | the field list is the `", "`-joined sequence of `name type` tokens of the normalised (one-entry-per-name) list: a named group's names each followed by a space, the type after the last one, an unnamed group as prefix, position and type |
| FieldLists.GroupTextIsTokens | agent_writer.go:318-333 | one group's text is its entries' tokens joined with `", "` |
| FieldLists.FieldTextEmptyIff | agent_writer.go:311-336 | the text is empty exactly when the list has no groups |
| FieldLists.ResolvedNamesOfExpand | agent_writer.go:313-331 | the resolved names are, entry by entry, the names of the normalised list, one per declared name or unnamed group |
| FieldLists.UnnamedPositional | agent_writer.go:313-333 | in an all-unnamed list the k-th field is named prefix + decimal(k+1) and keeps the k-th group's type |
| FieldLists.UnnamedDistinct | agent_writer.go:327-331 | in an all-unnamed list the generated names are pairwise distinct |
| FieldLists.NamedVerbatim | agent_writer.go:318-325 | in an all-named list the resolved names are the declared names, verbatim and in order |
| FieldLists.GroupedNamesExpand | agent_writer.go:318-333 | `a, b int` expands to two entries `a int`, `b int` and renders as `"a , b int"` |
| FieldLists.MixedListsCanCollide | agent_writer.go:327-331 | a list mixing a declared `arg2` with an unnamed second group gets the name `arg2` twice, which is why lists must be all-named or all-unnamed |
| FieldLists.WellFormedDistinct | agent_writer.go:327-331 | in an all-unnamed list, or an all-named one with distinct names, the resolved names are distinct |
| Decimal.DecimalRoundTrip | agent_writer.go:330 | reading back the decimal digits `%d` writes gives the number |
| Decimal.PrefixedOrdinalInjective | agent_writer.go:330 | prefix + decimal(a) equals prefix + decimal(b) exactly when a equals b |
| AgentWriter.FindConstructor | agent_writer.go:339-347 | succeeds exactly when some declaration is a function of that name, and returns the type of the first one; otherwise fails with `Failed to locate constructor <cname>` |
| AgentWriter.InterfaceMethodsMember | agent_writer.go:349-376 | a method is yielded exactly when it is listed in an interface type spec of the wanted name inside a `type` declaration |
| AgentWriter.InterfaceMethodsConcat | agent_writer.go:353-370 | the declarations are scanned in order: the methods of a concatenation are the methods of each part, in order |
| AgentWriter.MissingInterfaceIsEmpty | agent_writer.go:352-375 | when no type spec declares the interface, the sequence is empty rather than an error |
| AgentWriter.SingleInterface | agent_writer.go:353-366 | when exactly one spec declares the interface, its methods are yielded in declaration order |
| AgentWriter.MethodParams | agent_writer.go:378-380 | the parameter text, with unnamed groups named `arg<N>`; empty exactly when there are no parameters |
| AgentWriter.MethodReturns | agent_writer.go:382-384 | the result text, with unnamed groups named `r<N>`; empty exactly when there are no results |
| AgentWriter.RequestType | agent_writer.go:386-388 | `struct{` + the parameter text + `}`; it is `struct{}` exactly when there are no parameters |
| AgentWriter.ResponseType | agent_writer.go:390-392 | `struct{` + the result text + `}`; it is `struct{}` exactly when there are no results |
| Emitters.SelectNames | agent_writer.go:100-112 | the per-group name loop that every emitter repeats produces `Selected`, the declared names behind a qualifier, or the unnamed stem plus the group's position |
| Emitters.SelectedIsResolved | agent_writer.go:105-111 | with the stem equal to the qualifier plus a prefix, the loop selects exactly the qualified resolved names of the list |
| Emitters.WriteAgentType | agent_writer.go:57-68 | one template entry per interface method, in declaration order: its first name and its parameter and result field lists |
| Emitters.WriteEntries | agent_writer.go:62-68 | the loop over the methods builds one entry per method, in order |
| Emitters.AgentTypeSlots | agent_writer.go:34-42 | the struct template declares wrapped, signal and state first, then two channels per method |
| Emitters.WriteInits | agent_writer.go:118-125 | the loop makes a request and then a response channel per method, in order |
| Emitters.WriteConstructor | agent_writer.go:90-137 | fails with the lookup's message when the constructor is missing, whatever the interface's methods are; otherwise it is named `<cname>Agent`, takes the constructor's parameters, calls it with every parameter's resolved name in order, and builds the literal wrapped, per-method channels, signal channel, `AGENT_STARTED` |
| Emitters.WriteAgentControl | agent_writer.go:139-210 | one dispatch arm per interface method, in declaration order |
| Emitters.WriteCases | agent_writer.go:157-207 | the loop over the methods builds one arm per method, in order |
| Emitters.WriteCase | agent_writer.go:158-206 | an arm receives on `req<Name>`, binds the results to their `rval`-resolved names, passes the request fields as `msg.`-qualified resolved parameter names, and sends the bound results on `res<Name>` |
| Emitters.WriteAgentMethods | agent_writer.go:262-308 | one forwarding method per interface method, in declaration order |
| Emitters.WriteForwarders | agent_writer.go:264-307 | the loop over the methods builds one forwarder per method, in order |
| Emitters.WriteForwarder | agent_writer.go:265-306 | a forwarder sends on `req<Name>` a literal keyed by every resolved parameter name and receives on `res<Name>` |
| Emitters.RequestProtocol | agent_writer.go:173-185 | the dispatch arm reads from the forwarder's channel exactly the fields the forwarder filled, in order; for a well-formed list there is one field per parameter and the keys are distinct |
| Emitters.ResponseProtocol | agent_writer.go:188-206 | the arm replies on the channel the forwarder waits on, with exactly the results it bound, one value per field of the response struct `struct{methodReturns}`, under distinct names |
| Emitters.ForwarderReturnsMisnamed | agent_writer.go:291-303 | for `Total() int64` the forwarder as written returns `rest.rval1`, while the response struct's field is `res.r1` |
| Emitters.ForwarderReturnsNamedAgree | agent_writer.go:296-298 | with declared result names the as-written return expressions are the response selectors |
| Emitters.ReturnExprs | agent_writer.go:291-303 | the corrected return expressions are the response struct's field selectors, `res.` + each result's resolved `r` name |
| Emitters.AsWrittenLiteralFitsIff | agent_writer.go:116-128 | the constructor's positional literal fits the struct template's field order exactly when the interface has no methods |
| Emitters.MethodInitsFit | agent_writer.go:118-125 | the per-method channel values line up with the per-method channel fields |
| Emitters.AgentLiteral | agent_writer.go:34-42 | the literal in the template's order (wrapped, signal, state, then channels) fits the struct for every interface |
| Counters.Wrap64 | examples/counter.go:19-27 | an `int64` result congruent to the mathematical one modulo 2^64, equal to it when in range |
| Counters.WrapAbsorb | examples/counter.go:19-27 | wrapping an intermediate sum does not change the final wrapped result |
| Counters.Counter.constructor | examples/counter.go:15-17 | `NewCounter(start)` stores `start` |
| Counters.Counter.Add | examples/counter.go:19-22 | adds `v` (wrapping) and returns the new value |
| Counters.Counter.Sub | examples/counter.go:24-27 | subtracts `v` (wrapping) and returns the new value |
| Counters.Counter.Total | examples/counter.go:29-31 | returns the stored value and changes nothing |
| Counters.Effect | examples/counter.go:19-31 | each call keeps the value in `int64` range and is exact when the sum or difference is in range |
| Counters.AddThenSubRestores | examples/counter.go:19-27 | `Add(v)` then `Sub(v)` restores the value, even across wrap-around |
| Counters.FinalIsNet | examples/counter.go:19-31 | after any calls, the value is the start plus their net amount, wrapped once |
| Counters.RepliesAreFinals | examples/counter.go:19-31 | each call returns the value after the calls up to and including it |
| Counters.NetConcat | examples/counter.go:19-31 | net amounts add up over concatenation |
| Counters.NetPermutation | examples/counter_agent_example_test.go:19-35 | the net amount is the same in whatever order the calls are served |
| Counters.NetAlternation | examples/counter_agent_example_test.go:25-31 | one worker's alternating `Add(1)`/`Sub(1)` calls have net n mod 2 |
| Counters.NetWorkers | examples/counter_agent_example_test.go:19-33 | g workers' calls have net 0 for even n and g for odd n |
| Counters.ServedWorkloadEndsAtZero | examples/counter_agent_example_test.go:13-39 | any serial order of the workers' calls, each worker making an even number, leaves a counter started at 0 at 0 |
| CounterAgents.Dispatch | examples/counter_agent_example.go:58-82 | one loop iteration exits exactly on `AGENT_CLOSE` and replies exactly to requests |
| CounterAgents.CounterAgent.constructor | examples/counter_agent_example.go:20-31 | a fresh wrapped counter holding `start`, state `AGENT_STARTED`, all seven channels open |
| CounterAgents.CounterAgent.Step | examples/counter_agent_example.go:58-82 | one iteration updates the agent, replies and exits as `Dispatch` says |
| CounterAgents.CounterAgent.RunLoop | examples/counter_agent_example.go:56-84 | the loop over received events ends in the state and with the replies of `Run`, and takes nothing after it returns |
| CounterAgents.CounterAgent.Add | examples/counter_agent_example.go:38-42 | the forwarder returns exactly what the wrapped `Add` returns; only the value changes |
| CounterAgents.CounterAgent.Sub | examples/counter_agent_example.go:44-48 | the forwarder returns exactly what the wrapped `Sub` returns; only the value changes |
| CounterAgents.CounterAgent.Total | examples/counter_agent_example.go:50-54 | the forwarder returns the stored value; nothing changes |
| CounterAgents.CounterAgent.Start | examples/counter_agent_example.go:86-88 | the state becomes started; nothing else changes |
| CounterAgents.CounterAgent.Stop | examples/counter_agent_example.go:90-92 | the state becomes stopped; nothing else changes |
| CounterAgents.CounterAgent.Close | examples/counter_agent_example.go:94-96 | the state becomes closed and every channel is closed; the value is kept |
| CounterAgents.SignalTransitions | examples/counter_agent_example.go:59-75 | START and STOP set the state and continue; CLOSE sets closed, closes all channels and exits; any other value changes nothing |
| CounterAgents.RequestsIgnoreState | examples/counter_agent_example.go:76-81 | a request is answered on its response channel with what the wrapped call returns, the state is untouched, and the answer does not depend on the state |
| CounterAgents.RunStaysClosed | examples/counter_agent_example.go:65-74 | once closed, later events change neither the agent nor the replies |
| CounterAgents.RunIsSequential | examples/counter_agent_example.go:56-84 | without `AGENT_CLOSE`, the loop's value and replies are those of making the requested calls one after another, whatever signals are interleaved, and each reply goes out on its own call's response channel |
| CounterAgents.RunServesCalls | examples/counter_agent_example.go:56-84 | without `AGENT_CLOSE`, the loop stays open and its value and reply values are those of the requested calls made one after another |
| CounterAgents.RunReplyChannels | examples/counter_agent_example.go:76-81 | without `AGENT_CLOSE`, there is one reply per requested call, each on that call's response channel |
| CounterAgents.TotalAfterWorkloadIsZero | examples/counter_agent_example_test.go:13-39 | an agent started at 0 that serves any interleaving of the workers' even alternating workloads answers the final `Total()` with 0 on `resTotal` |
| CommandLine.ScanArgs | main.go:16-33 | the index loop skips the program name and produces exactly `Parse` of the remaining arguments |
| CommandLine.ParseInterface | main.go:21-22 | `-i X` puts `X` in front of the interfaces of the rest of the scan |
| CommandLine.ParseConstructor | main.go:23-24 | `-c X` puts `X` in front of the constructors of the rest of the scan |
| CommandLine.ParseFile | main.go:30-31 | a non-dash argument puts itself in front of the file names of the rest of the scan |
| CommandLine.ParseRender | main.go:16-33 | every option set, with file names not starting with `-`, is recovered by scanning its rendering as arguments |
| CommandLine.ParseAccountsForAll | main.go:19-32 | a successful scan uses two arguments per option and one per file, and no file name starts with `-` |
| CommandLine.ParseErrorIsFlag | main.go:19-26 | an unrecognized option is a dash argument other than `-i`/`-c`; a missing value comes from a trailing `-i`/`-c` |
| CommandLine.UnknownFlags | main.go:19-26 | `-` alone and `-ix` are unrecognized, with message `Unrecognized option: -ix` |
| CommandLine.FlagValueVerbatim | main.go:20-29 | the value after `-i` is taken verbatim even when it starts with `-`, and never becomes a file name |

## Left out

- Parsing and printing (`parser.ParseFile`, `printer.Fprint`, `main.go:35-53`) are foreign I/O. Type expressions are opaque strings, and `printer.Fprint` of a type is that string.
- The printed text of the emitters (tabs, newlines, `fmt` formatting) and the mustache rendering of the template. The emitters return the records they print from.
- Known text-level quirks that the name records do not show: the extra `Fprintf` argument at agent_writer.go:110, grouped names printed without separators (agent_writer.go:105-107, 164-166, 178-180, 296-298), and the `AgentStat` spelling in the template at agent_writer.go:37.
- Emitters.WriteAgentType: as in the source, the entries carry bare field lists (agent_writer.go:65-66) rather than `RequestType`/`ResponseType`; the model keeps that.
- Emitters.Emittable: embedded interface elements (no `Names[0]`) and void methods (nil `Results`, dereferenced by `fieldList`) crash the emitters; the emitters require methods without them. `WriteConstructor` requires it only once the constructor is found, since the lookup fails first.
- FieldLists.WellFormedDistinct: requires all-named or all-unnamed lists. Mixed lists can repeat a name (MixedListsCanCollide shows one).
- The goroutine in `interfaceMethods` is a plain sequence. `go agent.runLoop()`, blocking rendezvous, `select` fairness, and panics from sending on closed channels are left out. The loop takes a given sequence of events.
- CounterAgents.CounterAgent.Add: like `Sub`, `Total`, `Start`, `Stop` and `Close`, it runs one loop step directly. The handshake over the channel pair is not modelled.
- `State()` and returning the agent by value (examples/counter_agent_example.go:33-35, 98-100). The state is owned by the loop, and nothing is proved about what a caller's copy observes.
- The unsynchronised `TestExampleCounter` (examples/counter_agent_example_test.go:42-69) races by design. Only serial calls are modelled.
- CommandLine.ScanArgs: a trailing `-i`/`-c` is the `MissingValue` error instead of Go's index-out-of-range panic; an unknown option is the `UnrecognizedOption` error instead of a panic.
- agent_maker.go and examples/weird.go are not part of this model. Of interface_writer.go only the `AgentSignal` and `AgentState` values (interface_writer.go:27-39) are used, in `CounterAgents`.

## Findings

| source | as written | input that shows it | evidently intended | confidence | as-written member | corrected member |
|---|---|---|---|---|---|---|
| agent_writer.go:301 | an unnamed result is returned as `rest.rvalN` | `Total() int64` gives `return rest.rval1`, but `res` is the only variable and its field is `r1` (agent_writer.go:383) | `res.rN`, the response struct's field | high, not executed | Emitters.ForwarderReturnsMisnamed | Emitters.ReturnExprs |
| agent_writer.go:116-128 | the positional literal is wrapped, per-method channels, signal channel, `AGENT_STARTED` | any interface with a method, e.g. `Counter`: the second value is `make(chan struct{arg1 int64})` where the template's second field is `signal chan AgentSignal` (agent_writer.go:34-42) | the template's order, as in the hand-written agent (examples/counter_agent_example.go:21-31) | high, not executed | Emitters.AsWrittenLiteralFitsIff | Emitters.AgentLiteral |
