/** The ledger store: the header and detail tables held in memory with
    their AUTOINCREMENT counters, the consistency the writer keeps between
    them, and the commit that makes a movement's rows visible. */
module Ledger {
  import opened Tables
  import opened Schema
  import opened MovementRules

  /** The detail rows filed under header id, in table order. */
  function DetailsOf(ds: seq<Detail>, id: nat): seq<Detail>
  {
    Filter(ds, (d: Detail) => d.idTransaccion == id)
  }

  function HeaderIds(hs: seq<Header>): set<nat>
  {
    set h | h in hs :: h.idTransaccion
  }

  /** A header and its rows agree: at least one row, every row dated like the
      header and shaped as its kind asks, and the header total equal to the
      total of its rows. */
  predicate Balanced(h: Header, rows: seq<Detail>)
  {
    && |rows| >= 1
    && (forall d :: d in rows ==> d.fecha == h.fecha && RowShape(h.transaccion, d))
    && h.total == RowsTotal(h.transaccion, rows)
  }

  /** A stored header is a kind the form writes, fits that kind, holds no
      empty text and is balanced with its rows. */
  predicate HeaderSound(h: Header, ds: seq<Detail>)
  {
    1 <= h.transaccion <= 3 && FitsKind(h) && NoBlankText(h) && Balanced(h, DetailsOf(ds, h.idTransaccion))
  }

  /** The state every save leaves behind: ids increase in insertion order
      and stay below the counters, every detail row refers to an existing
      header, and every header is a kind the form writes, fits that kind, holds
      no empty text and is balanced with its rows. */
  predicate LedgerInvariant(hs: seq<Header>, ds: seq<Detail>, nextHeaderId: nat, nextDetailId: nat)
  {
    && (forall i, j :: 0 <= i < j < |hs| ==> hs[i].idTransaccion < hs[j].idTransaccion)
    && (forall i :: 0 <= i < |hs| ==> hs[i].idTransaccion < nextHeaderId)
    && (forall i, j :: 0 <= i < j < |ds| ==> ds[i].idDetalle < ds[j].idDetalle)
    && (forall i :: 0 <= i < |ds| ==> ds[i].idDetalle < nextDetailId)
    && (forall i :: 0 <= i < |ds| ==> ds[i].idTransaccion in HeaderIds(hs))
    && (forall i :: 0 <= i < |hs| ==> HeaderSound(hs[i], ds))
  }

  /** Rows appended under other headers leave a header's rows unchanged. */
  lemma OtherRowsIgnored(ds: seq<Detail>, rows: seq<Detail>, id: nat)
    requires forall d :: d in rows ==> d.idTransaccion != id
    ensures DetailsOf(ds + rows, id) == DetailsOf(ds, id)
  {
    var p := (d: Detail) => d.idTransaccion == id;
    FilterAppend(ds, rows, p);
    FilterNone(rows, p);
    assert DetailsOf(ds, id) + [] == DetailsOf(ds, id);
  }

  /** A header id no earlier row uses owns exactly the rows appended under it. */
  lemma FreshRowsOwned(ds: seq<Detail>, rows: seq<Detail>, id: nat)
    requires forall d :: d in ds ==> d.idTransaccion != id
    requires forall d :: d in rows ==> d.idTransaccion == id
    ensures DetailsOf(ds + rows, id) == rows
  {
    var p := (d: Detail) => d.idTransaccion == id;
    FilterAppend(ds, rows, p);
    FilterNone(ds, p);
    FilterAll(rows, p);
  }

  /** Appending one header with a fresh id and its fresh rows, balanced with
      them, keeps the invariant: the rows of every earlier header are
      untouched, and the new header's rows are exactly the appended ones. */
  lemma AppendKeepsInvariant(hs: seq<Header>, ds: seq<Detail>, nextHeaderId: nat, nextDetailId: nat,
                             h: Header, rows: seq<Detail>)
    requires LedgerInvariant(hs, ds, nextHeaderId, nextDetailId)
    requires h.idTransaccion == nextHeaderId && 1 <= h.transaccion <= 3 && FitsKind(h) && NoBlankText(h)
    requires forall i :: 0 <= i < |rows| ==> rows[i].idDetalle == nextDetailId + i && rows[i].idTransaccion == nextHeaderId
    requires Balanced(h, rows)
    ensures LedgerInvariant(hs + [h], ds + rows, nextHeaderId + 1, nextDetailId + |rows|)
  {
    var hs', ds' := hs + [h], ds + rows;
    assert HeaderIds(hs') == HeaderIds(hs) + {h.idTransaccion};
    AppendKeepsHeadersSound(hs, ds, nextHeaderId, h, rows);
    AppendKeepsDetailIds(ds, nextDetailId, rows);
    forall k | 0 <= k < |ds'| ensures ds'[k].idTransaccion in HeaderIds(hs') {
      if k >= |ds| {
        assert ds'[k] == rows[k - |ds|];
      } else {
        assert ds'[k] == ds[k];
      }
    }
    forall i, j | 0 <= i < j < |hs'| ensures hs'[i].idTransaccion < hs'[j].idTransaccion {
      if j == |hs| {
        assert hs'[i] == hs[i];
      }
    }
  }

  /** Every header, old or new, stays sound once the new rows are appended. */
  lemma AppendKeepsHeadersSound(hs: seq<Header>, ds: seq<Detail>, nextHeaderId: nat, h: Header, rows: seq<Detail>)
    requires forall k :: 0 <= k < |hs| ==> HeaderSound(hs[k], ds) && hs[k].idTransaccion < nextHeaderId
    requires forall k :: 0 <= k < |ds| ==> ds[k].idTransaccion in HeaderIds(hs)
    requires h.idTransaccion == nextHeaderId && 1 <= h.transaccion <= 3 && FitsKind(h) && NoBlankText(h)
    requires forall i :: 0 <= i < |rows| ==> rows[i].idTransaccion == nextHeaderId
    requires Balanced(h, rows)
    ensures forall k :: 0 <= k < |hs + [h]| ==> HeaderSound((hs + [h])[k], ds + rows)
  {
    assert forall d :: d in rows ==> d.idTransaccion == nextHeaderId;
    forall d | d in ds ensures d.idTransaccion != nextHeaderId {
      var i :| 0 <= i < |ds| && ds[i] == d;
      assert d.idTransaccion in HeaderIds(hs);
    }
    forall k | 0 <= k < |hs + [h]| ensures HeaderSound((hs + [h])[k], ds + rows) {
      if k == |hs| {
        FreshRowsOwned(ds, rows, h.idTransaccion);
      } else {
        assert (hs + [h])[k] == hs[k];
        OtherRowsIgnored(ds, rows, hs[k].idTransaccion);
      }
    }
  }

  /** Detail ids stay increasing and below the moved counter. */
  lemma AppendKeepsDetailIds(ds: seq<Detail>, nextDetailId: nat, rows: seq<Detail>)
    requires forall i, j :: 0 <= i < j < |ds| ==> ds[i].idDetalle < ds[j].idDetalle
    requires forall i :: 0 <= i < |ds| ==> ds[i].idDetalle < nextDetailId
    requires forall i :: 0 <= i < |rows| ==> rows[i].idDetalle == nextDetailId + i
    ensures forall i, j :: 0 <= i < j < |ds + rows| ==> (ds + rows)[i].idDetalle < (ds + rows)[j].idDetalle
    ensures forall i :: 0 <= i < |ds + rows| ==> (ds + rows)[i].idDetalle < nextDetailId + |rows|
  {
    var ds' := ds + rows;
    forall i | 0 <= i < |ds'| ensures ds'[i].idDetalle < nextDetailId + |rows| {
      if i >= |ds| {
        assert ds'[i] == rows[i - |ds|];
      } else {
        assert ds'[i] == ds[i];
      }
    }
    forall i, j | 0 <= i < j < |ds'| ensures ds'[i].idDetalle < ds'[j].idDetalle {
      if j >= |ds| {
        assert ds'[j] == rows[j - |ds|];
        if i < |ds| {
          assert ds'[i] == ds[i];
        } else {
          assert ds'[i] == rows[i - |ds|];
        }
      } else {
        assert ds'[i] == ds[i] && ds'[j] == ds[j];
      }
    }
  }

  /** What a save writes is consistent at write time: the header built from a
      cart of lines the form can build is balanced with the rows built from
      the same cart, and those rows carry the fresh ids the commit expects. */
  lemma SaveRowsBalanced(kind: Kind, draft: HeaderDraft, id: nat, firstDetail: nat, cart: seq<CartItem>)
    requires cart != [] && forall i :: 0 <= i < |cart| ==> WellFormedLine(cart[i])
    requires CartTotal(kind, cart).Some? && LineRows(kind, id, draft.fecha, cart, firstDetail).Some?
    ensures var h := BuildHeader(kind, draft, id, CartTotal(kind, cart).value);
            var rows := LineRows(kind, id, draft.fecha, cart, firstDetail).value;
            && Balanced(h, rows)
            && (forall i :: 0 <= i < |rows| ==> rows[i].idDetalle == firstDetail + i && rows[i].idTransaccion == id)
  {
    var h := BuildHeader(kind, draft, id, CartTotal(kind, cart).value);
    var rows := LineRows(kind, id, draft.fecha, cart, firstDetail).value;
    LineRowsFaithful(kind, id, draft.fecha, cart, firstDetail);
    CartTotalMatchesRows(kind, id, draft.fecha, cart, firstDetail);
    forall d | d in rows ensures d.fecha == h.fecha && RowShape(h.transaccion, d) {
      var i :| 0 <= i < |rows| && rows[i] == d;
    }
  }

  /** The two tables of the SQLite file, with the next values of their
      AUTOINCREMENT keys (SQLite starts them at 1). */
  class LedgerDb {
    var headers: seq<Header>
    var details: seq<Detail>
    var nextHeaderId: nat
    var nextDetailId: nat

    ghost predicate Valid()
      reads this
    {
      LedgerInvariant(headers, details, nextHeaderId, nextDetailId)
    }

    constructor ()
      ensures Valid()
      ensures headers == [] && details == [] && nextHeaderId == 1 && nextDetailId == 1
    {
      headers, details := [], [];
      nextHeaderId, nextDetailId := 1, 1;
    }

    /** conn.commit(): the header and its staged rows become visible together,
        and both counters move past the ids they used. */
    method Commit(h: Header, rows: seq<Detail>)
      requires Valid()
      requires h.idTransaccion == nextHeaderId && 1 <= h.transaccion <= 3 && FitsKind(h) && NoBlankText(h)
      requires forall i :: 0 <= i < |rows| ==> rows[i].idDetalle == nextDetailId + i && rows[i].idTransaccion == nextHeaderId
      requires Balanced(h, rows)
      modifies this
      ensures Valid()
      ensures headers == old(headers) + [h] && details == old(details) + rows
      ensures nextHeaderId == old(nextHeaderId) + 1 && nextDetailId == old(nextDetailId) + |rows|
    {
      AppendKeepsInvariant(headers, details, nextHeaderId, nextDetailId, h, rows);
      headers, details, nextHeaderId, nextDetailId :=
        headers + [h], details + rows, nextHeaderId + 1, nextDetailId + |rows|;
    }
  }
}
