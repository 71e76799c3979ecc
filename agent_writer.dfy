/** Schema lookup and the message shapes of agent_writer.go: locating a
    constructor, extracting the named interface's methods, and the request
    and response struct types of a signature. */
module AgentWriter {
  import opened Wrappers
  import opened GoAst
  import opened FieldLists

  /** The generator's configuration: the interface to wrap, the output
      package and the declarations of the parsed input file. */
  datatype Writer = Writer(interfaceName: string, packageName: string, input: seq<Decl>)

  predicate IsFuncNamed(d: Decl, cname: string) {
    d.FuncDecl? && d.name == cname
  }

  /** `findConstructor`: the type of the first function declaration named
      `cname`, receiver or not; the panic message when there is none. */
  function FindConstructor(decls: seq<Decl>, cname: string): (r: Result<FuncType, string>)
    ensures r.Ok? <==> exists k :: 0 <= k < |decls| && IsFuncNamed(decls[k], cname)
    ensures r.Ok? ==> exists k :: (0 <= k < |decls| && IsFuncNamed(decls[k], cname)
      && r.value == decls[k].ftype
      && forall j :: 0 <= j < k ==> !IsFuncNamed(decls[j], cname))
    ensures r.Err? ==> r.error == "Failed to locate constructor " + cname
  {
    if decls == [] then Err("Failed to locate constructor " + cname)
    else if IsFuncNamed(decls[0], cname) then Ok(decls[0].ftype)
    else
      var r := FindConstructor(decls[1..], cname);
      assert forall k :: 1 <= k < |decls| ==> decls[k] == decls[1..][k - 1];
      r
  }

  /** The methods a type spec contributes: all of them when it is the named
      interface, nothing otherwise. */
  function SpecMethods(s: TypeSpec, name: string): seq<InterfaceElem>
  {
    if s.name == name && s.typ.InterfaceType? then s.typ.methods else []
  }

  function SpecsMethods(specs: seq<TypeSpec>, name: string): seq<InterfaceElem>
  {
    if specs == [] then []
    else SpecsMethods(specs[..|specs| - 1], name) + SpecMethods(specs[|specs| - 1], name)
  }

  function DeclMethods(d: Decl, name: string): seq<InterfaceElem>
  {
    if d.TypeDecl? then SpecsMethods(d.specs, name) else []
  }

  /** `interfaceMethods`: the generator goroutine's output, collected. */
  function InterfaceMethods(decls: seq<Decl>, name: string): seq<InterfaceElem>
  {
    if decls == [] then []
    else InterfaceMethods(decls[..|decls| - 1], name) + DeclMethods(decls[|decls| - 1], name)
  }

  /** A type spec that declares the wanted interface. */
  predicate Declares(decls: seq<Decl>, k: int, j: int, name: string) {
    0 <= k < |decls| && decls[k].TypeDecl? && 0 <= j < |decls[k].specs|
    && decls[k].specs[j].name == name && decls[k].specs[j].typ.InterfaceType?
  }

  lemma {:induction false} SpecsMethodsConcat(a: seq<TypeSpec>, b: seq<TypeSpec>, name: string)
    ensures SpecsMethods(a + b, name) == SpecsMethods(a, name) + SpecsMethods(b, name)
  {
    if b != [] {
      var n := |b| - 1;
      assert (a + b)[..|a + b| - 1] == a + b[..n];
      SpecsMethodsConcat(a, b[..n], name);
    } else {
      assert a + b == a;
    }
  }

  /** Declaration order is kept: the methods of a concatenation are those of
      each part, in turn. */
  lemma {:induction false} InterfaceMethodsConcat(a: seq<Decl>, b: seq<Decl>, name: string)
    ensures InterfaceMethods(a + b, name) == InterfaceMethods(a, name) + InterfaceMethods(b, name)
  {
    if b != [] {
      var n := |b| - 1;
      assert (a + b)[..|a + b| - 1] == a + b[..n];
      InterfaceMethodsConcat(a, b[..n], name);
    } else {
      assert a + b == a;
    }
  }

  lemma {:induction false} SpecsMethodsMember(specs: seq<TypeSpec>, name: string, m: InterfaceElem)
    ensures m in SpecsMethods(specs, name) <==>
      exists j :: 0 <= j < |specs| && specs[j].name == name && specs[j].typ.InterfaceType?
        && m in specs[j].typ.methods
  {
    if specs != [] {
      var n := |specs| - 1;
      SpecsMethodsMember(specs[..n], name, m);
      assert forall j :: 0 <= j < n ==> specs[..n][j] == specs[j];
    }
  }

  lemma DeclMethodsMember(d: Decl, name: string, m: InterfaceElem)
    ensures m in DeclMethods(d, name) <==> d.TypeDecl? && (exists j ::
      0 <= j < |d.specs| && d.specs[j].name == name && d.specs[j].typ.InterfaceType? && m in d.specs[j].typ.methods)
  {
    if d.TypeDecl? {
      SpecsMethodsMember(d.specs, name, m);
    }
  }

  lemma InterfaceMethodsHas(decls: seq<Decl>, name: string, k: nat, j: nat, m: InterfaceElem)
    requires Declares(decls, k, j, name) && m in decls[k].specs[j].typ.methods
    ensures m in InterfaceMethods(decls, name)
  {
    SplitAt(decls, name, k);
    DeclMethodsMember(decls[k], name, m);
  }

  lemma {:induction false} InterfaceMethodsFrom(decls: seq<Decl>, name: string, m: InterfaceElem)
    requires m in InterfaceMethods(decls, name)
    ensures exists k, j :: Declares(decls, k, j, name) && m in decls[k].specs[j].typ.methods
  {
    var n := |decls| - 1;
    if m in InterfaceMethods(decls[..n], name) {
      InterfaceMethodsFrom(decls[..n], name, m);
      var k, j :| Declares(decls[..n], k, j, name) && m in decls[..n][k].specs[j].typ.methods;
      assert decls[..n][k] == decls[k];
      assert Declares(decls, k, j, name);
    } else {
      assert m in DeclMethods(decls[n], name);
      DeclMethodsMember(decls[n], name, m);
      var j :| 0 <= j < |decls[n].specs| && decls[n].specs[j].name == name
        && decls[n].specs[j].typ.InterfaceType? && m in decls[n].specs[j].typ.methods;
      assert Declares(decls, n, j, name);
    }
  }

  /** Exactly the methods of type specs with the wanted name whose type is
      an interface; function, non-type and non-interface declarations
      contribute nothing. */
  lemma InterfaceMethodsMember(decls: seq<Decl>, name: string, m: InterfaceElem)
    ensures m in InterfaceMethods(decls, name) <==>
      exists k, j :: Declares(decls, k, j, name) && m in decls[k].specs[j].typ.methods
  {
    if m in InterfaceMethods(decls, name) {
      InterfaceMethodsFrom(decls, name, m);
    } else {
      forall k, j | Declares(decls, k, j, name) ensures m !in decls[k].specs[j].typ.methods {
        if m in decls[k].specs[j].typ.methods {
          InterfaceMethodsHas(decls, name, k, j, m);
        }
      }
    }
  }

  /** When no type spec declares the interface the result is empty: the
      lookup never fails. */
  lemma MissingInterfaceIsEmpty(decls: seq<Decl>, name: string)
    requires forall k, j :: !Declares(decls, k, j, name)
    ensures InterfaceMethods(decls, name) == []
  {
    if InterfaceMethods(decls, name) != [] {
      var m := InterfaceMethods(decls, name)[0];
      InterfaceMethodsMember(decls, name, m);
    }
  }

  /** The usual case: one interface of that name, whose methods come out in
      declaration order. */
  lemma SingleInterface(decls: seq<Decl>, name: string, k: nat, j: nat)
    requires Declares(decls, k, j, name)
    requires forall k', j' :: Declares(decls, k', j', name) ==> k' == k && j' == j
    ensures InterfaceMethods(decls, name) == decls[k].specs[j].typ.methods
  {
    SplitAt(decls, name, k);
    NoneInSlice(decls, name, 0, k);
    NoneInSlice(decls, name, k + 1, |decls|);
    MissingInterfaceIsEmpty(decls[0..k], name);
    MissingInterfaceIsEmpty(decls[k + 1..|decls|], name);
    var specs := decls[k].specs;
    forall j' | 0 <= j' < |specs| && specs[j'].name == name && specs[j'].typ.InterfaceType?
      ensures j' == j
    {
      assert Declares(decls, k, j', name);
    }
    OnlySpec(specs, name, j);
  }

  lemma SplitAt(decls: seq<Decl>, name: string, k: nat)
    requires k < |decls|
    ensures InterfaceMethods(decls, name) ==
      InterfaceMethods(decls[0..k], name) + DeclMethods(decls[k], name) + InterfaceMethods(decls[k + 1..|decls|], name)
  {
    var pre, post := decls[0..k], decls[k + 1..|decls|];
    assert decls == pre + [decls[k]] + post;
    InterfaceMethodsConcat(pre + [decls[k]], post, name);
    InterfaceMethodsConcat(pre, [decls[k]], name);
    assert [decls[k]][..0] == [];
  }

  lemma NoneInSlice(decls: seq<Decl>, name: string, lo: nat, hi: nat)
    requires lo <= hi <= |decls|
    requires forall k', j' :: Declares(decls, k', j', name) ==> !(lo <= k' < hi)
    ensures forall k', j' :: !Declares(decls[lo..hi], k', j', name)
  {
    var part := decls[lo..hi];
    forall k', j' ensures !Declares(part, k', j', name) {
      if Declares(part, k', j', name) {
        assert Declares(decls, k' + lo, j', name);
      }
    }
  }

  lemma OnlySpec(specs: seq<TypeSpec>, name: string, j: nat)
    requires j < |specs| && specs[j].name == name && specs[j].typ.InterfaceType?
    requires forall j' :: 0 <= j' < |specs| && specs[j'].name == name && specs[j'].typ.InterfaceType? ==> j' == j
    ensures SpecsMethods(specs, name) == specs[j].typ.methods
  {
    var pre, post := specs[..j], specs[j + 1..];
    assert specs == pre + [specs[j]] + post;
    SpecsMethodsConcat(pre + [specs[j]], post, name);
    SpecsMethodsConcat(pre, [specs[j]], name);
    SpecsNone(pre, name);
    assert forall i :: 0 <= i < |post| ==> post[i] == specs[i + j + 1];
    SpecsNone(post, name);
    assert [specs[j]][..0] == [];
  }

  lemma SpecsNone(specs: seq<TypeSpec>, name: string)
    requires forall j :: 0 <= j < |specs| ==> !(specs[j].name == name && specs[j].typ.InterfaceType?)
    ensures SpecsMethods(specs, name) == []
  {
    if SpecsMethods(specs, name) != [] {
      SpecsMethodsMember(specs, name, SpecsMethods(specs, name)[0]);
    }
  }

  // ---------------------------------------------------------------------
  // Request and response shapes.

  /** `methodParams`: the parameter list's field text, unnamed entries
      called `argN`. */
  function MethodParams(ft: FuncType): (r: string)
    ensures r == "" <==> ft.params == []
  {
    FieldTextEmptyIff(ft.params, "arg");
    FieldText(ft.params, "arg")
  }

  /** `methodReturns`: the result list's field text, unnamed entries called
      `rN`. A function without a result list would make Go dereference nil. */
  function MethodReturns(ft: FuncType): (r: string)
    requires ft.results.Some?
    ensures r == "" <==> ft.results.value == []
  {
    FieldTextEmptyIff(ft.results.value, "r");
    FieldText(ft.results.value, "r")
  }

  /** `requestType`: an anonymous struct with one field per parameter; a
      method without parameters still gets one, the empty `struct{}`. */
  function RequestType(ft: FuncType): (r: string)
    ensures |r| >= 8 && r[..7] == "struct{" && r[|r| - 1] == '}'
    ensures r[7..|r| - 1] == MethodParams(ft)
    ensures r == "struct{}" <==> ft.params == []
  {
    var body := MethodParams(ft);
    var r := "struct{" + body + "}";
    assert r[7..|r| - 1] == body;
    r
  }

  /** `responseType`: an anonymous struct with one field per result. */
  function ResponseType(ft: FuncType): (r: string)
    requires ft.results.Some?
    ensures |r| >= 8 && r[..7] == "struct{" && r[|r| - 1] == '}'
    ensures r[7..|r| - 1] == MethodReturns(ft)
    ensures r == "struct{}" <==> ft.results.value == []
  {
    var body := MethodReturns(ft);
    var r := "struct{" + body + "}";
    assert r[7..|r| - 1] == body;
    r
  }
}
