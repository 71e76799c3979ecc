/** The command line of the generator: after the program name, `-i X` names
    an interface to wrap, `-c X` a constructor, and every argument that does
    not start with `-` a file to read. */
module CommandLine {
  import opened Wrappers

  /** The three lists the arguments fill. */
  datatype Options = Options(interfaces: seq<string>, constructors: seq<string>, filenames: seq<string>)

  /** Why the scan stops: an option it does not know (a panic whose message
      `Message` gives), or `-i`/`-c` as the last argument (an index out of
      range). */
  datatype ArgError = UnrecognizedOption(arg: string) | MissingValue(flag: string)

  const NoOptions := Options([], [], [])

  function Message(e: ArgError): string
    requires e.UnrecognizedOption?
  {
    "Unrecognized option: " + e.arg
  }

  predicate IsFlag(arg: string) {
    |arg| >= 1 && arg[0] == '-'
  }

  /** The scan's result for the arguments after the program name, read left
      to right. */
  function Parse(rest: seq<string>): Result<Options, ArgError>
    decreases |rest|
  {
    if rest == [] then Ok(NoOptions)
    else
      var arg := rest[0];
      if !IsFlag(arg) then Prepend(Options([], [], [arg]), Parse(rest[1..]))
      else if arg[1..] == "i" || arg[1..] == "c" then
        if |rest| < 2 then Err(MissingValue(arg))
        else if arg[1..] == "i" then Prepend(Options([rest[1]], [], []), Parse(rest[2..]))
        else Prepend(Options([], [rest[1]], []), Parse(rest[2..]))
      else Err(UnrecognizedOption(arg))
  }

  /** What earlier arguments contributed, put in front of what later ones
      do; an error later on is the result. */
  function Prepend(acc: Options, r: Result<Options, ArgError>): Result<Options, ArgError>
  {
    match r
    case Ok(o) => Ok(Options(acc.interfaces + o.interfaces, acc.constructors + o.constructors,
                             acc.filenames + o.filenames))
    case Err(e) => Err(e)
  }

  lemma PrependAssoc(a: Options, b: Options, r: Result<Options, ArgError>)
    ensures Prepend(a, Prepend(b, r)) == Prepend(Options(a.interfaces + b.interfaces,
      a.constructors + b.constructors, a.filenames + b.filenames), r)
  {
    if r.Ok? {
      assert a.interfaces + (b.interfaces + r.value.interfaces)
        == (a.interfaces + b.interfaces) + r.value.interfaces;
      assert a.constructors + (b.constructors + r.value.constructors)
        == (a.constructors + b.constructors) + r.value.constructors;
      assert a.filenames + (b.filenames + r.value.filenames)
        == (a.filenames + b.filenames) + r.value.filenames;
    }
  }

  lemma PrependNothing(r: Result<Options, ArgError>)
    ensures Prepend(NoOptions, r) == r
  {
    if r.Ok? {
      assert [] + r.value.interfaces == r.value.interfaces;
      assert [] + r.value.constructors == r.value.constructors;
      assert [] + r.value.filenames == r.value.filenames;
    }
  }

  /** The scan's three steps, each on the arguments that follow. */
  lemma ParseInterface(flag: string, v: string, rest: seq<string>)
    requires flag == "-i"
    ensures Parse([flag, v] + rest) == Prepend(Options([v], [], []), Parse(rest))
  {
    var args := [flag, v] + rest;
    assert args[0][1..] == "i";
    assert args[2..] == rest;
  }

  lemma ParseConstructor(flag: string, v: string, rest: seq<string>)
    requires flag == "-c"
    ensures Parse([flag, v] + rest) == Prepend(Options([], [v], []), Parse(rest))
  {
    var args := [flag, v] + rest;
    assert args[0][1..] == "c" && "c" != "i";
    assert args[2..] == rest;
  }

  lemma ParseFile(f: string, rest: seq<string>)
    requires !IsFlag(f)
    ensures Parse([f] + rest) == Prepend(Options([], [], [f]), Parse(rest))
  {
    assert ([f] + rest)[1..] == rest;
  }

  /** The arguments after the program name. */
  function Tail(args: seq<string>): seq<string> {
    if args == [] then [] else args[1..]
  }

  /** The loop over `os.Args` in `main`: it skips the program name, consumes
      the argument after `-i` or `-c` as that option's value, and stops at
      the first argument it cannot use. */
  method ScanArgs(args: seq<string>) returns (r: Result<Options, ArgError>)
    ensures r == Parse(Tail(args))
  {
    if args == [] {
      return Ok(NoOptions);
    }
    var interfaces, constructors, filenames := [], [], [];
    var i := 1;
    PrependNothing(Parse(args[1..]));
    while i < |args|
      invariant 1 <= i <= |args|
      invariant Parse(Tail(args)) == Prepend(Options(interfaces, constructors, filenames), Parse(args[i..]))
    {
      var arg := args[i];
      var acc := Options(interfaces, constructors, filenames);
      if IsFlag(arg) {
        if arg[1..] == "i" {
          if i + 1 >= |args| {
            assert args[i..] == [arg];
            return Err(MissingValue(arg));
          }
          assert args[i..] == [arg, args[i + 1]] + args[i + 2..];
          ParseInterface(arg, args[i + 1], args[i + 2..]);
          PrependAssoc(acc, Options([args[i + 1]], [], []), Parse(args[i + 2..]));
          assert constructors + [] == constructors && filenames + [] == filenames;
          interfaces := interfaces + [args[i + 1]];
        } else if arg[1..] == "c" {
          if i + 1 >= |args| {
            assert args[i..] == [arg];
            return Err(MissingValue(arg));
          }
          assert args[i..] == [arg, args[i + 1]] + args[i + 2..];
          ParseConstructor(arg, args[i + 1], args[i + 2..]);
          PrependAssoc(acc, Options([], [args[i + 1]], []), Parse(args[i + 2..]));
          assert interfaces + [] == interfaces && filenames + [] == filenames;
          constructors := constructors + [args[i + 1]];
        } else {
          assert args[i..][0] == arg;
          return Err(UnrecognizedOption(arg));
        }
        i := i + 1;
      } else {
        assert args[i..] == [arg] + args[i + 1..];
        ParseFile(arg, args[i + 1..]);
        PrependAssoc(acc, Options([], [], [arg]), Parse(args[i + 1..]));
        assert interfaces + [] == interfaces && constructors + [] == constructors;
        filenames := filenames + [args[i]];
      }
      i := i + 1;
    }
    assert acc_empty: Parse(args[i..]) == Ok(NoOptions) by {
      assert args[i..] == [];
    }
    r := Ok(Options(interfaces, constructors, filenames));
    assert interfaces + [] == interfaces && constructors + [] == constructors && filenames + [] == filenames;
  }

  // ---------------------------------------------------------------------
  // Properties.

  /** The arguments that produce the given options: each interface and
      constructor after its flag, then the file names. */
  function Render(o: Options): (args: seq<string>)
    ensures |args| == 2 * |o.interfaces| + 2 * |o.constructors| + |o.filenames|
    decreases |o.interfaces| + |o.constructors|
  {
    if o.interfaces != [] then
      ["-i", o.interfaces[0]] + Render(o.(interfaces := o.interfaces[1..]))
    else if o.constructors != [] then
      ["-c", o.constructors[0]] + Render(o.(constructors := o.constructors[1..]))
    else o.filenames
  }

  /** Option values are taken verbatim, even when they start with `-`: any
      options whose file names are not flags come back from their
      rendering. */
  lemma {:induction false} ParseRender(o: Options)
    requires forall k :: 0 <= k < |o.filenames| ==> !IsFlag(o.filenames[k])
    ensures Parse(Render(o)) == Ok(o)
    decreases |o.interfaces| + |o.constructors| + |o.filenames|
  {
    if o.interfaces != [] {
      var o' := o.(interfaces := o.interfaces[1..]);
      ParseRender(o');
      RenderInterfaceStep(o, o');
    } else if o.constructors != [] {
      var o' := o.(constructors := o.constructors[1..]);
      ParseRender(o');
      RenderConstructorStep(o, o');
    } else if o.filenames != [] {
      var o' := o.(filenames := o.filenames[1..]);
      assert forall k :: 0 <= k < |o'.filenames| ==> o'.filenames[k] == o.filenames[k + 1];
      ParseRender(o');
      RenderFileStep(o, o');
    }
  }

  lemma RenderInterfaceStep(o: Options, o': Options)
    requires o.interfaces != [] && o' == o.(interfaces := o.interfaces[1..])
    requires Parse(Render(o')) == Ok(o')
    ensures Parse(Render(o)) == Ok(o)
  {
    assert Render(o) == ["-i", o.interfaces[0]] + Render(o');
    ParseInterface("-i", o.interfaces[0], Render(o'));
    assert [o.interfaces[0]] + o'.interfaces == o.interfaces;
    assert [] + o'.constructors == o.constructors && [] + o'.filenames == o.filenames;
  }

  lemma RenderConstructorStep(o: Options, o': Options)
    requires o.interfaces == [] && o.constructors != [] && o' == o.(constructors := o.constructors[1..])
    requires Parse(Render(o')) == Ok(o')
    ensures Parse(Render(o)) == Ok(o)
  {
    assert Render(o) == ["-c", o.constructors[0]] + Render(o');
    ParseConstructor("-c", o.constructors[0], Render(o'));
    assert [o.constructors[0]] + o'.constructors == o.constructors;
    assert [] + o'.interfaces == o.interfaces && [] + o'.filenames == o.filenames;
  }

  lemma RenderFileStep(o: Options, o': Options)
    requires o.interfaces == [] && o.constructors == [] && o.filenames != []
    requires !IsFlag(o.filenames[0]) && o' == o.(filenames := o.filenames[1..])
    requires Parse(Render(o')) == Ok(o')
    ensures Parse(Render(o)) == Ok(o)
  {
    assert Render(o) == [o.filenames[0]] + Render(o');
    ParseFile(o.filenames[0], o'.filenames);
    assert [o.filenames[0]] + o'.filenames == o.filenames;
    assert [] + o'.interfaces == o.interfaces && [] + o'.constructors == o.constructors;
  }

  /** A successful scan accounts for every argument: two per option, one per
      file name; and no file name starts with `-`. */
  lemma {:induction false} ParseAccountsForAll(rest: seq<string>)
    requires Parse(rest).Ok?
    ensures var o := Parse(rest).value;
      && |rest| == 2 * |o.interfaces| + 2 * |o.constructors| + |o.filenames|
      && forall k :: 0 <= k < |o.filenames| ==> !IsFlag(o.filenames[k])
    decreases |rest|
  {
    if rest != [] {
      if !IsFlag(rest[0]) {
        ParseAccountsForAll(rest[1..]);
        var o := Parse(rest[1..]).value;
        assert Parse(rest).value.filenames == [rest[0]] + o.filenames;
      } else {
        ParseAccountsForAll(rest[2..]);
      }
    }
  }

  /** A scan fails only on an argument that starts with `-`, and reports
      an unknown one exactly when it is not `-i` or `-c`. */
  lemma {:induction false} ParseErrorIsFlag(rest: seq<string>)
    requires Parse(rest).Err?
    ensures var e := Parse(rest).error;
      && e.UnrecognizedOption? ==> e.arg in rest && IsFlag(e.arg) && e.arg[1..] != "i" && e.arg[1..] != "c"
    ensures var e := Parse(rest).error;
      e.MissingValue? ==> |rest| > 0 && e.flag == rest[|rest| - 1] && (e.flag == "-i" || e.flag == "-c")
    decreases |rest|
  {
    var arg := rest[0];
    if !IsFlag(arg) {
      ParseErrorIsFlag(rest[1..]);
    } else if (arg[1..] == "i" || arg[1..] == "c") && |rest| >= 2 {
      ParseErrorIsFlag(rest[2..]);
    } else if arg[1..] == "i" || arg[1..] == "c" {
      assert arg == [arg[0]] + arg[1..];
    }
  }

  /** `-` alone and `-ix` are not options: the scan panics on them. */
  lemma UnknownFlags()
    ensures Parse(["-"]) == Err(UnrecognizedOption("-"))
    ensures Parse(["-ix", "Counter"]) == Err(UnrecognizedOption("-ix"))
    ensures Message(UnrecognizedOption("-ix")) == "Unrecognized option: -ix"
  {
    assert "-"[1..] == "";
    assert "-ix"[1..] == "ix";
    assert "ix" != "i" && "ix" != "c";
  }

  /** The argument after `-i` is the interface's name even when it looks
      like a flag; it never becomes a file name. */
  lemma FlagValueVerbatim()
    ensures Parse(["-i", "-c", "counter.go"]) == Ok(Options(["-c"], [], ["counter.go"]))
  {
    ParseFile("counter.go", []);
    assert Parse(["counter.go"]) == Ok(Options([], [], ["counter.go"])) by {
      var none: seq<string> := [];
      assert ["counter.go"] + none == ["counter.go"] && none + none == none;
      assert ["counter.go"] + [] == ["counter.go"];
    }
    ParseInterface("-i", "-c", ["counter.go"]);
    var none: seq<string> := [];
    assert ["-c"] + none == ["-c"] && none + none == none && none + ["counter.go"] == ["counter.go"];
    assert ["-i", "-c"] + ["counter.go"] == ["-i", "-c", "counter.go"];
  }
}
