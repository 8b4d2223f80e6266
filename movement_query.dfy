/** The movement query page (pages/2_Consulta_DB.py): the kind label of each
    header, the kind selection applied to the headers and, through their ids,
    to the details, and the per-kind header sets exported to the spreadsheet. */
module MovementQuery {
  import opened Tables
  import opened Schema
  import opened Ledger

  /** tipo_map. */
  const TipoMap: map<int, string> := map[1 := "Venta", 2 := "Compra", 3 := "Transferencia"]

  /** The options of the "Tipo de movimiento" select box, all selected at first. */
  const KindLabels: seq<string> := ["Venta", "Compra", "Transferencia"]
  const DefaultSelection: set<string> := {"Venta", "Compra", "Transferencia"}

  /** The tipo_movimiento column (line 51): the label of the code, or a
      missing value for a code tipo_map does not have. */
  function TipoMovimiento(code: int): (tipo: Option<string>)
    ensures tipo.Some? <==> 1 <= code <= 3
    ensures tipo.Some? ==> tipo.value in KindLabels
  {
    if code in TipoMap then Some(TipoMap[code]) else None
  }

  /** The query page names every code the form writes as the form does. */
  lemma TipoMovimientoMatchesForm(k: Kind)
    ensures TipoMovimiento(Code(k)) == Some(Label(k))
  {
  }

  /** No two codes share a label. */
  lemma TipoMovimientoInjective(a: int, b: int)
    requires TipoMovimiento(a).Some? && TipoMovimiento(a) == TipoMovimiento(b)
    ensures a == b
  {
  }

  /** The header's label is one of the selected ones (a missing label never is). */
  predicate Selected(sel: set<string>, h: Header)
  {
    TipoMovimiento(h.transaccion).Some? && TipoMovimiento(h.transaccion).value in sel
  }

  /** df_filtrado (line 64): the headers whose label is selected, in table order. */
  function FilterHeaders(hs: seq<Header>, sel: set<string>): (r: seq<Header>)
    ensures forall h :: h in r <==>
      (h in hs && TipoMovimiento(h.transaccion).Some? && TipoMovimiento(h.transaccion).value in sel)
    ensures forall h :: h in r ==> 1 <= h.transaccion <= 3
    ensures forall h :: multiset(r)[h] == if Selected(sel, h) then multiset(hs)[h] else 0
    ensures IsSubsequence(r, hs)
  {
    var p := (h: Header) => Selected(sel, h);
    FilterIsSubsequence(hs, p);
    FilterCount(hs, p);
    Filter(hs, p)
  }

  /** df_det_filtrado (line 73): the details whose id_transaccion is the id
      of a kept header, in table order. */
  function FilterDetails(ds: seq<Detail>, kept: seq<Header>): (r: seq<Detail>)
    ensures forall d :: d in r <==> d in ds && exists h :: h in kept && h.idTransaccion == d.idTransaccion
    ensures forall d :: multiset(r)[d] == if d.idTransaccion in HeaderIds(kept) then multiset(ds)[d] else 0
    ensures IsSubsequence(r, ds)
  {
    var p := (d: Detail) => d.idTransaccion in HeaderIds(kept);
    FilterIsSubsequence(ds, p);
    FilterCount(ds, p);
    Filter(ds, p)
  }

  /** df_ventas, df_compras, df_transferencias (lines 79-81): the headers
      with the given code, in table order. */
  function ByCode(hs: seq<Header>, code: int): (r: seq<Header>)
    ensures forall h :: h in r <==> h in hs && h.transaccion == code
    ensures forall h :: multiset(r)[h] == if h.transaccion == code then multiset(hs)[h] else 0
    ensures IsSubsequence(r, hs)
  {
    FilterIsSubsequence(hs, HasCode(code));
    FilterCount(hs, HasCode(code));
    Filter(hs, HasCode(code))
  }

  /** The mask transaccion == code. */
  function HasCode(code: int): Header -> bool
  {
    (h: Header) => h.transaccion == code
  }

  /** A code tipo_map knows. */
  predicate KnownCode(h: Header)
  {
    1 <= h.transaccion <= 3
  }

  /** The tables the page shows and exports. */
  datatype QueryView = QueryView(
    encabezados: seq<Header>,
    detalles: seq<Detail>,
    ventas: seq<Header>,
    compras: seq<Header>,
    transferencias: seq<Header>)

  /** The page: None when the header table is empty (it stops at lines
      38-40 before any filtering); otherwise the selected headers, their
      details, and the three per-kind sets, taken from the whole header
      table whatever is selected. */
  function ConsultaDB(hs: seq<Header>, ds: seq<Detail>, sel: set<string>): (v: Option<QueryView>)
    ensures v.None? <==> hs == []
    ensures v.Some? ==> v.value.encabezados == FilterHeaders(hs, sel)
                        && v.value.detalles == FilterDetails(ds, v.value.encabezados)
    ensures v.Some? ==> v.value.ventas == ByCode(hs, 1) && v.value.compras == ByCode(hs, 2)
                        && v.value.transferencias == ByCode(hs, 3)
  {
    if hs == [] then None
    else
      var kept := FilterHeaders(hs, sel);
      Some(QueryView(kept, FilterDetails(ds, kept), ByCode(hs, 1), ByCode(hs, 2), ByCode(hs, 3)))
  }

  /** The default selection keeps exactly the headers with a code from 1 to 3. */
  lemma DefaultSelectionKeepsKnownKinds(hs: seq<Header>)
    ensures FilterHeaders(hs, DefaultSelection) == Filter(hs, KnownCode)
  {
    FilterExt(hs, (h: Header) => Selected(DefaultSelection, h), KnownCode);
  }

  /** Selecting one kind gives the same headers as that kind's export sheet. */
  lemma SingleKindSelection(hs: seq<Header>, k: Kind)
    ensures FilterHeaders(hs, {Label(k)}) == ByCode(hs, Code(k))
  {
    FilterExt(hs, (h: Header) => Selected({Label(k)}, h), HasCode(Code(k)));
  }

  /** On a ledger the form wrote, the default selection shows every header
      and every detail. */
  lemma DefaultSelectionShowsLedger(hs: seq<Header>, ds: seq<Detail>, nextHeaderId: nat, nextDetailId: nat)
    requires LedgerInvariant(hs, ds, nextHeaderId, nextDetailId)
    ensures FilterHeaders(hs, DefaultSelection) == hs
    ensures FilterDetails(ds, hs) == ds
  {
    forall h | h in hs ensures Selected(DefaultSelection, h) {
      var i :| 0 <= i < |hs| && hs[i] == h;
      assert HeaderSound(hs[i], ds);
    }
    FilterAll(hs, (h: Header) => Selected(DefaultSelection, h));
    forall d | d in ds ensures d.idTransaccion in HeaderIds(hs) {
      var i :| 0 <= i < |ds| && ds[i] == d;
    }
    FilterAll(ds, (d: Detail) => d.idTransaccion in HeaderIds(hs));
  }

  /** The three per-kind sets together hold every header with a known code,
      each exactly once: they are pairwise disjoint and cover the rest. */
  lemma KindSetsPartition(hs: seq<Header>)
    ensures multiset(ByCode(hs, 1)) + multiset(ByCode(hs, 2)) + multiset(ByCode(hs, 3))
         == multiset(Filter(hs, KnownCode))
    ensures multiset(ByCode(hs, 1)) * multiset(ByCode(hs, 2)) == multiset{}
    ensures multiset(ByCode(hs, 1)) * multiset(ByCode(hs, 3)) == multiset{}
    ensures multiset(ByCode(hs, 2)) * multiset(ByCode(hs, 3)) == multiset{}
  {
    KindSetsCover(hs);
    KindSetsDisjoint(hs, 1, 2);
    KindSetsDisjoint(hs, 1, 3);
    KindSetsDisjoint(hs, 2, 3);
  }

  lemma KindSetsCover(hs: seq<Header>)
    ensures multiset(ByCode(hs, 1)) + multiset(ByCode(hs, 2)) + multiset(ByCode(hs, 3))
         == multiset(Filter(hs, KnownCode))
  {
    var v, c, t, k := multiset(ByCode(hs, 1)), multiset(ByCode(hs, 2)), multiset(ByCode(hs, 3)),
                      multiset(Filter(hs, KnownCode));
    forall x ensures (v + c + t)[x] == k[x] {
      KindCounts(hs, x);
    }
    assert v + c + t == k;
  }

  lemma KindSetsDisjoint(hs: seq<Header>, a: int, b: int)
    requires a != b
    ensures multiset(ByCode(hs, a)) * multiset(ByCode(hs, b)) == multiset{}
  {
    var u, w := multiset(ByCode(hs, a)), multiset(ByCode(hs, b));
    forall x ensures (u * w)[x] == 0 {
      FilterCount(hs, HasCode(a));
      FilterCount(hs, HasCode(b));
    }
    assert u * w == multiset{};
  }

  /** How often one header occurs in each per-kind set. */
  lemma KindCounts(hs: seq<Header>, x: Header)
    ensures multiset(ByCode(hs, 1))[x] + multiset(ByCode(hs, 2))[x] + multiset(ByCode(hs, 3))[x]
         == multiset(Filter(hs, KnownCode))[x]
  {
    FilterCount(hs, HasCode(1));
    FilterCount(hs, HasCode(2));
    FilterCount(hs, HasCode(3));
    FilterCount(hs, KnownCode);
  }

  /** On a ledger the form wrote, the three per-kind sets hold every header. */
  lemma KindSetsCoverLedger(hs: seq<Header>, ds: seq<Detail>, nextHeaderId: nat, nextDetailId: nat)
    requires LedgerInvariant(hs, ds, nextHeaderId, nextDetailId)
    ensures multiset(ByCode(hs, 1)) + multiset(ByCode(hs, 2)) + multiset(ByCode(hs, 3)) == multiset(hs)
    ensures |ByCode(hs, 1)| + |ByCode(hs, 2)| + |ByCode(hs, 3)| == |hs|
  {
    KindSetsPartition(hs);
    DefaultSelectionKeepsKnownKinds(hs);
    DefaultSelectionShowsLedger(hs, ds, nextHeaderId, nextDetailId);
    assert |multiset(hs)| == |hs|;
  }
}
