/** Rendering a parameter or result list as the field text of an anonymous
    struct (`fieldList` in agent_writer.go), and the normalised fields that
    text declares. */
module FieldLists {
  import opened GoAst
  import opened Decimal

  /** `parts` separated by `sep`, the way the generator writes a separator
      before every element but the first. */
  function Join(sep: string, parts: seq<string>): string
  {
    if |parts| == 0 then ""
    else if |parts| == 1 then parts[0]
    else Join(sep, parts[..|parts| - 1]) + sep + parts[|parts| - 1]
  }

  /** Each declared name followed by one space. */
  function Spaced(names: seq<string>): (r: seq<string>)
    ensures |r| == |names|
  {
    seq(|names|, j requires 0 <= j < |names| => names[j] + " ")
  }

  /** The text of the group at 0-based position `i`: its names verbatim, or
      else `prefix` and the 1-based position; then the type once. */
  function GroupText(g: Field, i: nat, prefix: string): string
  {
    if |g.names| == 0 then prefix + NatToDecimal(i + 1) + " " + g.typ
    else Join(", ", Spaced(g.names)) + g.typ
  }

  function GroupTexts(fields: seq<Field>, prefix: string): (r: seq<string>)
    ensures |r| == |fields|
  {
    if fields == [] then []
    else
      var n := |fields| - 1;
      GroupTexts(fields[..n], prefix) + [GroupText(fields[n], n, prefix)]
  }

  /** The whole field text: the groups' texts separated by ", ". */
  function FieldText(fields: seq<Field>, prefix: string): string
  {
    Join(", ", GroupTexts(fields, prefix))
  }

  /** `fieldList`: the nested loops write each group, and within a named
      group each name, into a growing buffer. */
  method FieldList(fields: seq<Field>, prefix: string) returns (out: string)
    ensures out == FieldText(fields, prefix)
  {
    out := "";
    var i := 0;
    while i < |fields|
      invariant 0 <= i <= |fields|
      invariant out == FieldText(fields[..i], prefix)
    {
      if i != 0 {
        out := out + ", ";
      }
      ghost var lead := out;
      var names := fields[i].names;
      var j := 0;
      while j < |names|
        invariant 0 <= j <= |names|
        invariant out == lead + Join(", ", Spaced(names[..j]))
      {
        NameStep(lead, names, j);
        if j != 0 {
          out := out + ", ";
        }
        out := out + names[j];
        out := out + " ";
        j := j + 1;
      }
      if |names| == 0 {
        out := out + prefix + NatToDecimal(i + 1) + " ";
      }
      out := out + fields[i].typ;
      GroupStep(lead, fields[i], i, prefix, out);
      FieldStep(fields, i, prefix);
      i := i + 1;
    }
    assert fields[..i] == fields;
  }

  lemma NameStep(lead: string, names: seq<string>, j: nat)
    requires j < |names|
    ensures lead + Join(", ", Spaced(names[..j + 1])) ==
      lead + Join(", ", Spaced(names[..j])) + (if j != 0 then ", " else "") + names[j] + " "
  {
    assert Spaced(names[..j + 1]) == Spaced(names[..j]) + [names[j] + " "];
    JoinSnoc(", ", Spaced(names[..j]), names[j] + " ");
  }

  lemma GroupStep(lead: string, g: Field, i: nat, prefix: string, out: string)
    requires |g.names| == 0 ==> out == lead + prefix + NatToDecimal(i + 1) + " " + g.typ
    requires |g.names| != 0 ==> out == lead + Join(", ", Spaced(g.names[..|g.names|])) + g.typ
    ensures out == lead + GroupText(g, i, prefix)
  {
    assert g.names[..|g.names|] == g.names;
  }

  lemma FieldStep(fields: seq<Field>, i: nat, prefix: string)
    requires i < |fields|
    ensures FieldText(fields[..i + 1], prefix) ==
      FieldText(fields[..i], prefix) + (if i != 0 then ", " else "") + GroupText(fields[i], i, prefix)
  {
    assert fields[..i + 1][..i] == fields[..i];
    JoinSnoc(", ", GroupTexts(fields[..i], prefix), GroupText(fields[i], i, prefix));
  }

  lemma JoinSnoc(sep: string, parts: seq<string>, x: string)
    ensures Join(sep, parts + [x]) == if parts == [] then x else Join(sep, parts) + sep + x
  {
    assert (parts + [x])[..|parts|] == parts;
  }

  /** Joining two non-empty runs puts one separator between them. */
  lemma {:induction false} JoinConcat(sep: string, a: seq<string>, b: seq<string>)
    requires a != [] && b != []
    ensures Join(sep, a + b) == Join(sep, a) + sep + Join(sep, b)
  {
    var n := |b| - 1;
    assert a + b == (a + b[..n]) + [b[n]];
    assert b == b[..n] + [b[n]];
    JoinSnoc(sep, a + b[..n], b[n]);
    JoinSnoc(sep, b[..n], b[n]);
    if n > 0 {
      JoinConcat(sep, a, b[..n]);
    }
  }

  // ---------------------------------------------------------------------
  // Normalised fields: what the struct text declares, one entry per name.

  /** One struct field the text declares. `closesGroup` marks the last name
      of a group, the one the group's type is written after. */
  datatype Entry = Entry(name: string, typ: string, closesGroup: bool)

  function GroupEntries(g: Field, i: nat, prefix: string): (r: seq<Entry>)
    ensures |r| == if |g.names| == 0 then 1 else |g.names|
  {
    if |g.names| == 0 then [Entry(prefix + NatToDecimal(i + 1), g.typ, true)]
    else seq(|g.names|, j requires 0 <= j < |g.names| => Entry(g.names[j], g.typ, j == |g.names| - 1))
  }

  /** Number of struct fields a list declares: one per name, one per unnamed group. */
  function FieldCount(fields: seq<Field>): nat
  {
    if fields == [] then 0
    else
      var n := |fields| - 1;
      FieldCount(fields[..n]) + (if |fields[n].names| == 0 then 1 else |fields[n].names|)
  }

  /** The normalised field list: every group expanded into independent
      fields, in order. */
  function Expand(fields: seq<Field>, prefix: string): (r: seq<Entry>)
    ensures |r| == FieldCount(fields)
    ensures |r| >= |fields|
  {
    if fields == [] then []
    else
      var n := |fields| - 1;
      Expand(fields[..n], prefix) + GroupEntries(fields[n], n, prefix)
  }

  /** The names a group contributes: its own, or else `prefix` and its
      1-based position. */
  function GroupNames(g: Field, i: nat, prefix: string): (r: seq<string>)
    ensures |r| == if |g.names| == 0 then 1 else |g.names|
  {
    if |g.names| == 0 then [prefix + NatToDecimal(i + 1)] else g.names
  }

  /** The normalised fields' names, in order. */
  function ResolvedNames(fields: seq<Field>, prefix: string): (r: seq<string>)
    ensures |r| == FieldCount(fields)
  {
    if fields == [] then []
    else
      var n := |fields| - 1;
      ResolvedNames(fields[..n], prefix) + GroupNames(fields[n], n, prefix)
  }

  /** The resolved names are exactly the names of the normalised fields. */
  lemma {:induction false} ResolvedNamesOfExpand(fields: seq<Field>, prefix: string)
    ensures |ResolvedNames(fields, prefix)| == |Expand(fields, prefix)|
    ensures forall k :: 0 <= k < |Expand(fields, prefix)| ==>
      ResolvedNames(fields, prefix)[k] == Expand(fields, prefix)[k].name
  {
    if fields != [] {
      var n := |fields| - 1;
      ResolvedNamesOfExpand(fields[..n], prefix);
      ExpandSnoc(fields, prefix);
      var rn: seq<string> := ResolvedNames(fields[..n], prefix);
      var es: seq<Entry> := Expand(fields[..n], prefix);
      var gn: seq<string> := GroupNames(fields[n], n, prefix);
      var ge: seq<Entry> := GroupEntries(fields[n], n, prefix);
      assert |gn| == |ge|;
      forall k | 0 <= k < |es| + |ge| ensures (rn + gn)[k] == (es + ge)[k].name {
        if k >= |es| {
          assert (rn + gn)[k] == gn[k - |es|];
        }
      }
    }
  }

  /** How one entry is written: its name, a space, and the type when it ends its group. */
  function Token(e: Entry): string
  {
    e.name + " " + (if e.closesGroup then e.typ else "")
  }

  function Tokens(es: seq<Entry>): (r: seq<string>)
    ensures |r| == |es|
  {
    seq(|es|, k requires 0 <= k < |es| => Token(es[k]))
  }

  predicate AllUnnamed(fields: seq<Field>) {
    forall i :: 0 <= i < |fields| ==> fields[i].names == []
  }

  predicate AllNamed(fields: seq<Field>) {
    forall i :: 0 <= i < |fields| ==> fields[i].names != []
  }

  /** Every declared name, group by group. */
  function DeclaredNames(fields: seq<Field>): seq<string>
  {
    if fields == [] then [] else DeclaredNames(fields[..|fields| - 1]) + fields[|fields| - 1].names
  }

  predicate Distinct(names: seq<string>) {
    forall a, b :: 0 <= a < b < |names| ==> names[a] != names[b]
  }

  lemma GroupTextIsTokens(g: Field, i: nat, prefix: string)
    ensures GroupText(g, i, prefix) == Join(", ", Tokens(GroupEntries(g, i, prefix)))
  {
    if |g.names| != 0 {
      var n := |g.names| - 1;
      var sp := Spaced(g.names);
      assert sp == sp[..n] + [g.names[n] + " "];
      NamedGroupTokens(g, i, prefix);
      JoinSnoc(", ", sp[..n], g.names[n] + " ");
      JoinSnoc(", ", sp[..n], g.names[n] + " " + g.typ);
    }
  }

  /** A named group's tokens: every name but the last spaced, the last one
      followed by the type. */
  lemma NamedGroupTokens(g: Field, i: nat, prefix: string)
    requires |g.names| != 0
    ensures var n := |g.names| - 1;
      Tokens(GroupEntries(g, i, prefix)) == Spaced(g.names)[..n] + [g.names[n] + " " + g.typ]
  {
    var n := |g.names| - 1;
    var sp := Spaced(g.names);
    var es := GroupEntries(g, i, prefix);
    var ts := Tokens(es);
    forall k | 0 <= k < n ensures ts[k] == sp[k] {
      assert es[k] == Entry(g.names[k], g.typ, false);
      assert g.names[k] + " " + "" == g.names[k] + " ";
    }
    assert ts[n] == g.names[n] + " " + g.typ by {
      assert es[n] == Entry(g.names[n], g.typ, true);
    }
  }

  lemma TokensConcat(a: seq<Entry>, b: seq<Entry>)
    ensures Tokens(a + b) == Tokens(a) + Tokens(b)
  {
  }

  lemma ExpandSnoc(fields: seq<Field>, prefix: string)
    requires fields != []
    ensures Expand(fields, prefix) ==
      Expand(fields[..|fields| - 1], prefix) + GroupEntries(fields[|fields| - 1], |fields| - 1, prefix)
  {
  }

  /** The field text lists every normalised field in order, separated by
      ", ": each name followed by a space, and each group's type written once,
      after the group's last name. */
  lemma {:induction false} FieldTextIsTokens(fields: seq<Field>, prefix: string)
    ensures FieldText(fields, prefix) == Join(", ", Tokens(Expand(fields, prefix)))
  {
    if fields != [] {
      var n := |fields| - 1;
      var init := fields[..n];
      var ge := GroupEntries(fields[n], n, prefix);
      var head := Tokens(Expand(init, prefix));
      FieldTextIsTokens(init, prefix);
      GroupTextIsTokens(fields[n], n, prefix);
      FieldStep(fields, n, prefix);
      assert fields[..n + 1] == fields;
      ExpandSnoc(fields, prefix);
      TokensConcat(Expand(init, prefix), ge);
      if n != 0 {
        JoinConcat(", ", head, Tokens(ge));
      } else {
        assert FieldText(init, prefix) == "";
        assert Expand(init, prefix) == [];
        assert Tokens(Expand(fields, prefix)) == Tokens(ge);
      }
    }
  }

  /** An empty list, and only an empty list, renders as the empty string. */
  lemma FieldTextEmptyIff(fields: seq<Field>, prefix: string)
    ensures FieldText(fields, prefix) == "" <==> fields == []
  {
    if fields != [] {
      FieldTextIsTokens(fields, prefix);
      var ts := Tokens(Expand(fields, prefix));
      JoinNonEmpty(", ", ts);
    }
  }

  lemma {:induction false} JoinNonEmpty(sep: string, parts: seq<string>)
    requires parts != [] && forall k :: 0 <= k < |parts| ==> parts[k] != ""
    ensures Join(sep, parts) != ""
  {
    var n := |parts| - 1;
    if n > 0 {
      JoinNonEmpty(sep, parts[..n]);
    }
  }

  /** In an all-unnamed list the k-th field is named `prefix` + (k+1) and has
      the k-th group's type: numbering follows group position. */
  lemma UnnamedPositional(fields: seq<Field>, prefix: string, k: int)
    requires AllUnnamed(fields) && 0 <= k < |fields|
    ensures |Expand(fields, prefix)| == |fields|
    ensures Expand(fields, prefix)[k] == Entry(prefix + NatToDecimal(k + 1), fields[k].typ, true)
  {
    UnnamedGroupsAligned(fields, prefix, k);
    assert fields[k].names == [];
  }

  /** In an all-unnamed list every group expands to exactly one field, so
      the k-th field is the k-th group's. */
  lemma {:induction false} UnnamedGroupsAligned(fields: seq<Field>, prefix: string, k: int)
    requires AllUnnamed(fields) && 0 <= k < |fields|
    ensures |Expand(fields, prefix)| == |fields|
    ensures Expand(fields, prefix)[k] == GroupEntries(fields[k], k, prefix)[0]
  {
    var n := |fields| - 1;
    var init := fields[..n];
    assert AllUnnamed(init) by {
      forall i | 0 <= i < |init| ensures init[i].names == [] {
        assert init[i] == fields[i];
      }
    }
    var e := Expand(fields, prefix);
    var ei := Expand(init, prefix);
    var g := GroupEntries(fields[n], n, prefix);
    assert e == ei + g && |g| == 1 by {
      assert fields[n].names == [];
      ExpandSnoc(fields, prefix);
    }
    if n > 0 {
      UnnamedGroupsAligned(init, prefix, if k < n then k else 0);
    }
    if k < n {
      assert e[k] == ei[k];
      assert init[k] == fields[k];
    }
  }

  /** The names invented for an all-unnamed list are pairwise distinct, which
      is why the generator invents them. */
  lemma UnnamedDistinct(fields: seq<Field>, prefix: string)
    requires AllUnnamed(fields)
    ensures Distinct(ResolvedNames(fields, prefix))
  {
    ResolvedNamesOfExpand(fields, prefix);
    var rn := ResolvedNames(fields, prefix);
    if fields != [] {
      UnnamedPositional(fields, prefix, 0);
    }
    forall a, b | 0 <= a < b < |rn| ensures rn[a] != rn[b] {
      UnnamedPositional(fields, prefix, a);
      UnnamedPositional(fields, prefix, b);
      PrefixedOrdinalInjective(prefix, a + 1, b + 1);
    }
  }

  /** In an all-named list the declared names are kept verbatim and in order,
      whatever the prefix. */
  lemma {:induction false} NamedVerbatim(fields: seq<Field>, prefix: string)
    requires AllNamed(fields)
    ensures ResolvedNames(fields, prefix) == DeclaredNames(fields)
  {
    if fields != [] {
      var n := |fields| - 1;
      NamedVerbatim(fields[..n], prefix);
      assert ResolvedNames(fields, prefix) == ResolvedNames(fields[..n], prefix) + fields[n].names;
    }
  }

  /** Go forbids mixing named and unnamed entries in one list, and the
      naming scheme relies on it: mixed, a declared name can clash with an
      invented one. */
  lemma MixedListsCanCollide()
    ensures ResolvedNames([Field(["arg2"], "int"), Field([], "string")], "arg") == ["arg2", "arg2"]
  {
    var fs := [Field(["arg2"], "int"), Field([], "string")];
    assert fs[..1][..0] == [];
    assert NatToDecimal(2) == "2";
    assert "arg" + NatToDecimal(1 + 1) == "arg2";
    assert ResolvedNames(fs[..1], "arg") == ["arg2"];
  }

  /** `a, b int` becomes two independent fields and renders as "a , b int". */
  lemma GroupedNamesExpand()
    ensures Expand([Field(["a", "b"], "int")], "arg") ==
      [Entry("a", "int", false), Entry("b", "int", true)]
    ensures FieldText([Field(["a", "b"], "int")], "arg") == "a , b int"
  {
    var fs := [Field(["a", "b"], "int")];
    var sp := Spaced(["a", "b"]);
    assert fs[..0] == [];
    assert sp[0] == "a " && sp[1] == "b ";
    assert sp == ["a ", "b "];
    assert sp[..1] == ["a "];
    assert Join(", ", sp) == "a , b ";
    assert GroupTexts(fs, "arg") == [GroupText(fs[0], 0, "arg")];
  }

  /** Go's rule for one list: all entries named (with distinct names) or
      all unnamed. */
  predicate WellFormedList(fields: seq<Field>) {
    (AllNamed(fields) && Distinct(DeclaredNames(fields))) || AllUnnamed(fields)
  }

  /** Within one struct the resolved field names are pairwise distinct. */
  lemma WellFormedDistinct(fields: seq<Field>, prefix: string)
    requires WellFormedList(fields)
    ensures Distinct(ResolvedNames(fields, prefix))
  {
    if AllUnnamed(fields) {
      UnnamedDistinct(fields, prefix);
    } else {
      NamedVerbatim(fields, prefix);
    }
  }
}
