/** The search for the "Producto" column of the product catalog sheet
    (pages/1_Movimientos_de_Inventario.py, lines 50-60): a column matches when
    its name, with surrounding white space removed and lower-cased, is "producto". */
module Text {
  import opened Tables

  /** The characters Python's str.isspace() accepts, which str.strip() removes. */
  predicate IsSpace(c: char)
  {
    c == ' ' || '\t' <= c <= '\r' || '\U{1c}' <= c <= '\U{1f}' || c == '\U{85}' || c == '\U{a0}'
    || c == '\U{1680}' || '\U{2000}' <= c <= '\U{200a}' || c == '\U{2028}' || c == '\U{2029}'
    || c == '\U{202f}' || c == '\U{205f}' || c == '\U{3000}'
  }

  predicate AllSpace(s: string)
  {
    forall i :: 0 <= i < |s| ==> IsSpace(s[i])
  }

  /** s without its leading white space. */
  function TrimLeft(s: string): string
  {
    if s == [] || !IsSpace(s[0]) then s else TrimLeft(s[1..])
  }

  /** TrimLeft removes a prefix made only of white space, and what it leaves
      does not start with white space. */
  lemma {:induction false} TrimLeftRemovesLeadingSpace(s: string)
    ensures var r := TrimLeft(s);
            && |r| <= |s| && r == s[|s| - |r|..]
            && AllSpace(s[..|s| - |r|])
            && (r == [] || !IsSpace(r[0]))
  {
    if s != [] && IsSpace(s[0]) {
      TrimLeftRemovesLeadingSpace(s[1..]);
      var r := TrimLeft(s);
      assert s[1..][|s| - 1 - |r|..] == s[|s| - |r|..];
      assert s[..|s| - |r|] == [s[0]] + s[1..][..|s| - 1 - |r|];
    } else {
      assert s[..0] == [];
      assert s[0..] == s;
    }
  }

  /** s without its trailing white space. */
  function TrimRight(s: string): string
  {
    if s == [] || !IsSpace(s[|s| - 1]) then s else TrimRight(s[..|s| - 1])
  }

  /** TrimRight removes a suffix made only of white space, and what it leaves
      does not end with white space. */
  lemma {:induction false} TrimRightRemovesTrailingSpace(s: string)
    ensures var r := TrimRight(s);
            && |r| <= |s| && r == s[..|r|]
            && AllSpace(s[|r|..])
            && (r == [] || !IsSpace(r[|r| - 1]))
  {
    if s != [] && IsSpace(s[|s| - 1]) {
      var n := |s| - 1;
      TrimRightRemovesTrailingSpace(s[..n]);
      var r := TrimRight(s);
      assert s[..n][..|r|] == s[..|r|];
      assert s[|r|..] == s[..n][|r|..] + [s[n]];
    } else {
      assert s[|s|..] == [];
      assert s[..|s|] == s;
    }
  }

  /** Python's str.strip() with no argument. */
  function Strip(s: string): string
  {
    TrimRight(TrimLeft(s))
  }

  /** Lower-casing of one character. Only the ASCII letters are mapped: no
      other character lower-cases to a letter of "producto". */
  function LowerChar(c: char): char
  {
    if 'A' <= c <= 'Z' then (c as int + 32) as char else c
  }

  /** Python's str.lower(), as far as the column search can tell. */
  function Lower(s: string): string
  {
    if s == [] then [] else [LowerChar(s[0])] + Lower(s[1..])
  }

  /** Lower maps every character on its own and keeps the length. */
  lemma {:induction false} LowerPointwise(s: string)
    ensures |Lower(s)| == |s|
    ensures forall i :: 0 <= i < |s| ==> Lower(s)[i] == LowerChar(s[i])
  {
    if s != [] {
      LowerPointwise(s[1..]);
    }
  }

  /** The test applied to every column name: str(c).strip().lower() == "producto". */
  predicate IsProductColumn(name: string)
  {
    Lower(Strip(name)) == "producto"
  }

  /** The loop at lines 50-54: the first column whose name passes the test,
      or None when there is none (the page then stops with an error). */
  method FindProductColumn(columns: seq<string>) returns (col: Option<nat>)
    ensures col.Some? ==> col.value < |columns| && IsProductColumn(columns[col.value])
    ensures col.Some? ==> forall j :: 0 <= j < col.value ==> !IsProductColumn(columns[j])
    ensures col.None? <==> forall j :: 0 <= j < |columns| ==> !IsProductColumn(columns[j])
  {
    col := None;
    var i := 0;
    while i < |columns|
      invariant 0 <= i <= |columns|
      invariant forall j :: 0 <= j < i ==> !IsProductColumn(columns[j])
    {
      if IsProductColumn(columns[i]) {
        col := Some(i);
        return;
      }
      i := i + 1;
    }
  }

  /** A cell dropna keeps. */
  predicate IsPresent(cell: Option<string>)
  {
    cell.Some?
  }

  /** The catalog's product list (line 60): the non-empty cells of the
      column, as text, in sheet order. */
  function ProductList(cells: seq<Option<string>>): (r: seq<string>)
    ensures |r| == |Filter(cells, IsPresent)|
    ensures forall i :: 0 <= i < |r| ==> Filter(cells, IsPresent)[i] == Some(r[i])
    ensures forall p :: p in r <==> Some(p) in cells
  {
    if cells == [] then []
    else
      var rest := ProductList(cells[1..]);
      assert cells == [cells[0]] + cells[1..];
      if cells[0].Some? then [cells[0].value] + rest else rest
  }

  lemma {:induction false} TrimLeftSkipsSpace(p: string, t: string)
    requires AllSpace(p)
    ensures TrimLeft(p + t) == TrimLeft(t)
  {
    if p != [] {
      assert (p + t)[0] == p[0];
      assert (p + t)[1..] == p[1..] + t;
      TrimLeftSkipsSpace(p[1..], t);
    } else {
      assert p + t == t;
    }
  }

  lemma {:induction false} TrimRightSkipsSpace(t: string, q: string)
    requires AllSpace(q)
    ensures TrimRight(t + q) == TrimRight(t)
  {
    if q != [] {
      var u := t + q;
      assert u[|u| - 1] == q[|q| - 1];
      assert u[..|u| - 1] == t + q[..|q| - 1];
      TrimRightSkipsSpace(t, q[..|q| - 1]);
    } else {
      assert t + q == t;
    }
  }

  /** Trailing text survives TrimLeft once s has a non-space character. */
  lemma {:induction false} TrimLeftAppend(s: string, q: string)
    requires TrimLeft(s) != []
    ensures TrimLeft(s + q) == TrimLeft(s) + q
  {
    if IsSpace(s[0]) {
      assert (s + q)[1..] == s[1..] + q;
      TrimLeftAppend(s[1..], q);
    }
  }

  /** White space around a name does not change the name the test sees. */
  lemma StripIgnoresPadding(p: string, s: string, q: string)
    requires AllSpace(p) && AllSpace(q)
    ensures Strip(p + s + q) == Strip(s)
  {
    assert p + s + q == p + (s + q);
    TrimLeftSkipsSpace(p, s + q);
    if TrimLeft(s) != [] {
      TrimLeftAppend(s, q);
      TrimRightSkipsSpace(TrimLeft(s), q);
    } else {
      BlankTrimsToEmpty(s, q);
    }
  }

  lemma BlankTrimsToEmpty(s: string, q: string)
    requires TrimLeft(s) == [] && AllSpace(q)
    ensures TrimLeft(s + q) == []
  {
    TrimLeftRemovesLeadingSpace(s);
    assert s[..|s|] == s;
    var u := s + q;
    assert AllSpace(u) by {
      forall i | 0 <= i < |u| ensures IsSpace(u[i]) {
        if i < |s| { assert u[i] == s[i]; } else { assert u[i] == q[i - |s|]; }
      }
    }
    assert u + [] == u;
    TrimLeftSkipsSpace(u, []);
  }

  /** Lower-casing neither creates nor removes white space. */
  lemma LowerCharKeepsSpace(c: char)
    ensures IsSpace(LowerChar(c)) == IsSpace(c)
  {
  }

  lemma {:induction false} TrimLeftLower(s: string)
    ensures TrimLeft(Lower(s)) == Lower(TrimLeft(s))
  {
    if s != [] {
      var l := Lower(s);
      assert l[0] == LowerChar(s[0]);
      LowerCharKeepsSpace(s[0]);
      if IsSpace(s[0]) {
        assert l[1..] == Lower(s[1..]);
        TrimLeftLower(s[1..]);
        calc {
          TrimLeft(l);
          TrimLeft(l[1..]);
          Lower(TrimLeft(s[1..]));
          Lower(TrimLeft(s));
        }
      } else {
        assert TrimLeft(l) == l;
        assert TrimLeft(s) == s;
      }
    }
  }

  lemma {:induction false} TrimRightLower(s: string)
    ensures TrimRight(Lower(s)) == Lower(TrimRight(s))
  {
    if s != [] {
      var l := Lower(s);
      var n := |s| - 1;
      LowerPointwise(s);
      LowerPointwise(s[..n]);
      assert l[n] == LowerChar(s[n]);
      LowerCharKeepsSpace(s[n]);
      if IsSpace(s[n]) {
        assert l[..n] == Lower(s[..n]);
        TrimRightLower(s[..n]);
        calc {
          TrimRight(l);
          TrimRight(l[..n]);
          Lower(TrimRight(s[..n]));
          Lower(TrimRight(s));
        }
      } else {
        assert TrimRight(l) == l;
        assert TrimRight(s) == s;
      }
    }
  }

  lemma LowerTwice(s: string)
    ensures Lower(Lower(s)) == Lower(s)
  {
    assert forall i :: 0 <= i < |s| ==> LowerChar(LowerChar(s[i])) == LowerChar(s[i]);
  }

  /** The test is blind to letter case. */
  lemma LowerIgnored(s: string)
    ensures IsProductColumn(Lower(s)) == IsProductColumn(s)
  {
    TrimLeftLower(s);
    TrimRightLower(TrimLeft(s));
    assert Strip(Lower(s)) == Lower(Strip(s));
    LowerTwice(Strip(s));
  }
}
