/** The client account statement (pages/2_Estados_de_Cuenta.py): the query
    joining a client's invoices with their lines, the status filter, the
    product names and the three totals shown under the table. The page reads
    its own tables (clientes, encabezados, detalles), whose rows are declared
    here. Money is in integer cents. */
module AccountStatement {
  import opened Tables
  import opened Schema

  /** A row of clientes. */
  datatype Client = Client(idCliente: string, nombre: string)

  /** A row of encabezados: an invoice with its payment status. */
  datatype Invoice = Invoice(
    idTransaccion: int,
    fecha: Date,
    factura: Option<string>,
    idCliente: Option<string>,
    total: Option<int>,
    estado: Option<string>)

  /** A row of detalles. */
  datatype InvoiceLine = InvoiceLine(
    idTransaccion: int,
    sku: string,
    cantidad: int,
    precio: Option<int>,
    subtotal: Option<int>)

  /** A row of the statement query: client name, invoice columns, line columns. */
  datatype StatementRow = StatementRow(
    cliente: string,
    idTransaccion: int,
    fecha: Date,
    factura: Option<string>,
    sku: string,
    cantidad: int,
    precio: Option<int>,
    subtotal: Option<int>,
    total: Option<int>,
    estado: Option<string>)

  /** The statuses the Estado select box offers, and those it starts with. */
  const EstadoOptions: seq<string> := ["Pagada", "Pendiente de pago", "Pagada parcialmente", "Anulada"]
  const DefaultEstados: set<string> := {"Pagada", "Pendiente de pago"}

  /** The selected columns of one joined (client, invoice, line) triple. */
  function JoinRow(c: Client, e: Invoice, d: InvoiceLine): StatementRow
  {
    StatementRow(c.nombre, e.idTransaccion, e.fecha, e.factura, d.sku, d.cantidad, d.precio, d.subtotal, e.total, e.estado)
  }

  /** The join and WHERE conditions for the client with id k. A NULL
      id_cliente matches no client. */
  predicate Joined(k: string, c: Client, e: Invoice, d: InvoiceLine)
  {
    c.idCliente == k && e.idCliente == Some(c.idCliente) && d.idTransaccion == e.idTransaccion
  }

  /** The lines of invoice e, joined with client c. */
  function JoinLines(c: Client, e: Invoice, ds: seq<InvoiceLine>): (r: seq<StatementRow>)
    ensures forall x :: x in r <==> exists d :: d in ds && d.idTransaccion == e.idTransaccion && x == JoinRow(c, e, d)
    ensures forall d: InvoiceLine :: d.idTransaccion == e.idTransaccion ==> multiset(r)[JoinRow(c, e, d)] == multiset(ds)[d]
  {
    if ds == [] then []
    else
      assert ds == [ds[0]] + ds[1..];
      (if ds[0].idTransaccion == e.idTransaccion then [JoinRow(c, e, ds[0])] else []) + JoinLines(c, e, ds[1..])
  }

  /** The invoices of client c, each with its lines. */
  function JoinInvoices(c: Client, es: seq<Invoice>, ds: seq<InvoiceLine>): (r: seq<StatementRow>)
    ensures forall x :: x in r <==>
      exists e, d :: e in es && d in ds && e.idCliente == Some(c.idCliente) && d.idTransaccion == e.idTransaccion
                     && x == JoinRow(c, e, d)
  {
    if es == [] then []
    else
      assert es == [es[0]] + es[1..];
      (if es[0].idCliente == Some(c.idCliente) then JoinLines(c, es[0], ds) else []) + JoinInvoices(c, es[1..], ds)
  }

  /** The unordered join of the statement query for client id k. */
  function JoinAll(cs: seq<Client>, es: seq<Invoice>, ds: seq<InvoiceLine>, k: string): (r: seq<StatementRow>)
    ensures forall x :: x in r <==>
      exists c, e, d :: c in cs && e in es && d in ds && Joined(k, c, e, d) && x == JoinRow(c, e, d)
  {
    if cs == [] then []
    else
      assert cs == [cs[0]] + cs[1..];
      (if cs[0].idCliente == k then JoinInvoices(cs[0], es, ds) else []) + JoinAll(cs[1..], es, ds, k)
  }

  /** id_cliente is the primary key of clientes. */
  predicate UniqueClientIds(cs: seq<Client>)
  {
    forall i, j :: 0 <= i < j < |cs| ==> cs[i].idCliente != cs[j].idCliente
  }

  /** id_transaccion is the primary key of encabezados. */
  predicate UniqueInvoiceIds(es: seq<Invoice>)
  {
    forall i, j :: 0 <= i < j < |es| ==> es[i].idTransaccion != es[j].idTransaccion
  }

  /** With unique invoice ids, each line of an invoice of client c gives
      exactly one row of c's join, however many equal lines the table has. */
  lemma {:induction false} JoinInvoicesCounts(c: Client, es: seq<Invoice>, ds: seq<InvoiceLine>, e: Invoice, d: InvoiceLine)
    requires UniqueInvoiceIds(es)
    requires e in es && e.idCliente == Some(c.idCliente) && d.idTransaccion == e.idTransaccion
    ensures multiset(JoinInvoices(c, es, ds))[JoinRow(c, e, d)] == multiset(ds)[d]
  {
    var x := JoinRow(c, e, d);
    var tail := es[1..];
    assert es == [es[0]] + tail;
    var head := if es[0].idCliente == Some(c.idCliente) then JoinLines(c, es[0], ds) else [];
    var rest := JoinInvoices(c, tail, ds);
    assert JoinInvoices(c, es, ds) == head + rest;
    assert multiset(head + rest)[x] == multiset(head)[x] + multiset(rest)[x];
    var i :| 0 <= i < |es| && es[i] == e;
    if i == 0 {
      forall e' | e' in tail ensures e'.idTransaccion != e.idTransaccion {
        var j :| 0 <= j < |tail| && tail[j] == e';
        assert es[j + 1] == e';
      }
      assert x !in rest;
      assert multiset(head)[x] == multiset(ds)[d];
    } else {
      assert es[0].idTransaccion != e.idTransaccion;
      assert x !in head;
      assert es[i] == tail[i - 1];
      assert UniqueInvoiceIds(tail) by {
        forall a, b | 0 <= a < b < |tail| ensures tail[a].idTransaccion != tail[b].idTransaccion {
          assert tail[a] == es[a + 1] && tail[b] == es[b + 1];
        }
      }
      JoinInvoicesCounts(c, tail, ds, e, d);
    }
  }

  /** With the primary keys of clientes and encabezados, the join for client
      id k holds each line of each of the client's invoices exactly as often
      as detalles does: one row per line. */
  lemma {:induction false} JoinAllCounts(cs: seq<Client>, es: seq<Invoice>, ds: seq<InvoiceLine>, k: string,
                                         c: Client, e: Invoice, d: InvoiceLine)
    requires UniqueClientIds(cs) && UniqueInvoiceIds(es)
    requires c in cs && e in es && Joined(k, c, e, d)
    ensures multiset(JoinAll(cs, es, ds, k))[JoinRow(c, e, d)] == multiset(ds)[d]
  {
    var x := JoinRow(c, e, d);
    var tail := cs[1..];
    assert cs == [cs[0]] + tail;
    var head := if cs[0].idCliente == k then JoinInvoices(cs[0], es, ds) else [];
    var rest := JoinAll(tail, es, ds, k);
    assert JoinAll(cs, es, ds, k) == head + rest;
    assert multiset(head + rest)[x] == multiset(head)[x] + multiset(rest)[x];
    var i :| 0 <= i < |cs| && cs[i] == c;
    if i == 0 {
      forall c' | c' in tail ensures c'.idCliente != k {
        var j :| 0 <= j < |tail| && tail[j] == c';
        assert cs[j + 1] == c';
      }
      assert x !in rest;
      JoinInvoicesCounts(c, es, ds, e, d);
    } else {
      assert cs[0].idCliente != k;
      assert cs[i] == tail[i - 1];
      assert UniqueClientIds(tail) by {
        forall a, b | 0 <= a < b < |tail| ensures tail[a].idCliente != tail[b].idCliente {
          assert tail[a] == cs[a + 1] && tail[b] == cs[b + 1];
        }
      }
      JoinAllCounts(tail, es, ds, k, c, e, d);
    }
  }

  /** ORDER BY e.fecha, e.id_transaccion. */
  predicate RowLe(a: StatementRow, b: StatementRow)
  {
    a.fecha < b.fecha || (a.fecha == b.fecha && a.idTransaccion <= b.idTransaccion)
  }

  predicate Ordered(rows: seq<StatementRow>)
  {
    forall i, j :: 0 <= i < j < |rows| ==> RowLe(rows[i], rows[j])
  }

  function Insert(x: StatementRow, rows: seq<StatementRow>): (r: seq<StatementRow>)
    requires Ordered(rows)
    ensures Ordered(r)
    ensures multiset(r) == multiset(rows) + multiset{x}
  {
    if rows == [] || RowLe(x, rows[0]) then
      assert forall j :: 0 <= j < |rows| ==> RowLe(rows[0], rows[j]);
      [x] + rows
    else
      var rest := Insert(x, rows[1..]);
      assert rows == [rows[0]] + rows[1..];
      InsertAfterHead(rows[0], x, rows[1..], rest);
      [rows[0]] + rest
  }

  /** The head of a sorted sequence stays in front of what is inserted after it. */
  lemma InsertAfterHead(h: StatementRow, x: StatementRow, tail: seq<StatementRow>, rest: seq<StatementRow>)
    requires Ordered([h] + tail) && RowLe(h, x) && Ordered(rest)
    requires multiset(rest) == multiset(tail) + multiset{x}
    ensures Ordered([h] + rest)
  {
    forall j | 0 <= j < |rest| ensures RowLe(h, rest[j]) {
      assert rest[j] in multiset(rest);
      if rest[j] != x {
        assert rest[j] in multiset(tail);
        var k :| 0 <= k < |tail| && tail[k] == rest[j];
        var u := [h] + tail;
        assert u[0] == h && u[k + 1] == tail[k];
        assert RowLe(u[0], u[k + 1]);
      }
    }
  }

  /** The rows in query order. Rows with equal keys keep their join order;
      SQL leaves the order of rows with equal keys open. */
  function OrderRows(rows: seq<StatementRow>): (r: seq<StatementRow>)
    ensures Ordered(r)
    ensures multiset(r) == multiset(rows)
  {
    if rows == [] then []
    else
      assert rows == [rows[0]] + rows[1..];
      Insert(rows[0], OrderRows(rows[1..]))
  }

  /** The statement query (lines 24-45) for the selected client; with no
      client selected the WHERE clause compares with NULL and no row comes back. */
  function StatementQuery(cs: seq<Client>, es: seq<Invoice>, ds: seq<InvoiceLine>, cliente: Option<string>): seq<StatementRow>
  {
    if cliente.None? then [] else OrderRows(JoinAll(cs, es, ds, cliente.value))
  }

  /** The query returns exactly the lines of the selected client's invoices,
      each joined with its invoice and its client, ordered by (fecha, id_transaccion),
      each (client, invoice, line) triple as often as the join produces it. */
  lemma StatementQueryRows(cs: seq<Client>, es: seq<Invoice>, ds: seq<InvoiceLine>, cliente: Option<string>)
    ensures var r := StatementQuery(cs, es, ds, cliente);
      && Ordered(r)
      && (cliente.Some? ==> multiset(r) == multiset(JoinAll(cs, es, ds, cliente.value)))
      && (forall x :: x in r <==>
            (cliente.Some? &&
             exists c, e, d :: c in cs && e in es && d in ds && Joined(cliente.value, c, e, d) && x == JoinRow(c, e, d)))
  {
    if cliente.Some? {
      var j := JoinAll(cs, es, ds, cliente.value);
      var r := OrderRows(j);
      forall x ensures x in r <==> x in j {
        assert x in r <==> x in multiset(r);
        assert x in j <==> x in multiset(j);
      }
    }
  }

  /** The row's status is one of estados (pandas isin: a NULL status never is). */
  predicate HasStatusIn(estados: set<string>, x: StatementRow)
  {
    x.estado.Some? && x.estado.value in estados
  }

  /** Lines 52-53: a non-empty status selection keeps the rows whose status
      is selected, in order; an empty one keeps every row. */
  function StatusFilter(rows: seq<StatementRow>, estados: set<string>): (r: seq<StatementRow>)
    ensures estados == {} ==> r == rows
    ensures estados != {} ==> forall x :: x in r <==> x in rows && HasStatusIn(estados, x)
    ensures forall x :: multiset(r)[x] == if estados == {} || HasStatusIn(estados, x) then multiset(rows)[x] else 0
    ensures IsSubsequence(r, rows)
  {
    if estados == {} then
      SubsequenceRefl(rows);
      rows
    else
      var p := (x: StatementRow) => HasStatusIn(estados, x);
      FilterIsSubsequence(rows, p);
      FilterCount(rows, p);
      Filter(rows, p)
  }

  /** Line 56: the catalog name of the sku, or the sku itself when the
      catalog has no entry for it. */
  function ProductName(catalog: map<string, string>, sku: string): (name: string)
    ensures sku in catalog ==> name == catalog[sku]
    ensures sku !in catalog ==> name == sku
  {
    if sku in catalog then catalog[sku] else sku
  }

  /** The producto column added to the statement rows. */
  function ProductColumn(rows: seq<StatementRow>, catalog: map<string, string>): (names: seq<string>)
    ensures |names| == |rows|
    ensures forall i :: 0 <= i < |rows| ==> names[i] == ProductName(catalog, rows[i].sku)
  {
    seq(|rows|, i requires 0 <= i < |rows| => ProductName(catalog, rows[i].sku))
  }

  /** A NULL amount adds nothing to a pandas sum. */
  function RowSubtotal(x: StatementRow): int
  {
    Amount(x.subtotal)
  }

  function RowTotal(x: StatementRow): int
  {
    Amount(x.total)
  }

  predicate IsPagada(x: StatementRow)
  {
    x.estado == Some("Pagada")
  }

  predicate HasSubtotal(x: StatementRow)
  {
    x.subtotal.Some?
  }

  /** Line 78: the sum of the subtotal column, which skips NULL subtotals. */
  function TotalComprado(rows: seq<StatementRow>): (t: int)
    ensures t == Sum(Filter(rows, HasSubtotal), RowSubtotal)
  {
    var missing := Filter(rows, (x: StatementRow) => !HasSubtotal(x));
    SumFilterSplit(rows, HasSubtotal, (x: StatementRow) => !HasSubtotal(x), RowSubtotal);
    SumConstant(missing, RowSubtotal, 0);
    Sum(rows, RowSubtotal)
  }

  /** Line 79 as written: the invoice total of every Pagada row, so once per
      line of the invoice. */
  function TotalPagado(rows: seq<StatementRow>): (t: int)
    ensures t == Sum(rows, PaidContribution)
  {
    TotalPagadoPerRow(rows);
    Sum(Filter(rows, IsPagada), RowTotal)
  }

  /** Line 80: what was bought less what was paid; with no Pagada row,
      everything bought is pending. */
  function TotalPendiente(rows: seq<StatementRow>): (t: int)
    ensures t == TotalComprado(rows) - Sum(rows, PaidContribution)
    ensures (forall x :: x in rows ==> !IsPagada(x)) ==> t == TotalComprado(rows)
  {
    if forall x :: x in rows ==> !IsPagada(x) then
      FilterNone(rows, IsPagada);
      TotalComprado(rows) - TotalPagado(rows)
    else
      TotalComprado(rows) - TotalPagado(rows)
  }

  /** What one row adds to total_pagado. */
  function PaidContribution(x: StatementRow): int
  {
    if IsPagada(x) then RowTotal(x) else 0
  }

  /** total_pagado adds the invoice total once for every Pagada row and
      nothing for any other row. */
  lemma {:induction false} TotalPagadoPerRow(rows: seq<StatementRow>)
    ensures Sum(Filter(rows, IsPagada), RowTotal) == Sum(rows, PaidContribution)
  {
    if rows != [] {
      TotalPagadoPerRow(rows[1..]);
      assert rows == [rows[0]] + rows[1..];
    }
  }

  /** A paid invoice total t shown on k lines is counted k times. */
  lemma PaidInvoiceCountedPerLine(rows: seq<StatementRow>, t: int)
    requires forall x :: x in rows ==> IsPagada(x) && x.total == Some(t)
    ensures TotalPagado(rows) == |rows| * t
  {
    FilterAll(rows, IsPagada);
    SumConstant(rows, RowTotal, t);
  }

  /** The selected statuses split total_comprado: the rows a non-empty
      selection keeps plus the rows it drops add up to the unfiltered total. */
  lemma StatusFilterSplitsComprado(rows: seq<StatementRow>, estados: set<string>)
    requires estados != {}
    ensures TotalComprado(rows)
         == TotalComprado(StatusFilter(rows, estados))
          + TotalComprado(Filter(rows, (x: StatementRow) => !HasStatusIn(estados, x)))
  {
    SumFilterSplit(rows, (x: StatementRow) => HasStatusIn(estados, x),
                   (x: StatementRow) => !HasStatusIn(estados, x), RowSubtotal);
  }

  /** A selection containing Pagada leaves total_pagado as it was. */
  lemma StatusFilterKeepsPagado(rows: seq<StatementRow>, estados: set<string>)
    requires "Pagada" in estados
    ensures TotalPagado(StatusFilter(rows, estados)) == TotalPagado(rows)
  {
    var p := (x: StatementRow) => HasStatusIn(estados, x);
    FilterTwice(rows, p, IsPagada);
  }

  /** Selecting by p and then by a stronger q is selecting by q. */
  lemma {:induction false} FilterTwice(s: seq<StatementRow>, p: StatementRow -> bool, q: StatementRow -> bool)
    requires forall x :: q(x) ==> p(x)
    ensures Filter(Filter(s, p), q) == Filter(s, q)
  {
    if s != [] {
      FilterTwice(s[1..], p, q);
    }
  }

  /** What the page shows under the table. */
  datatype Statement = Statement(
    rows: seq<StatementRow>,
    productos: seq<string>,
    comprado: int,
    pagado: int,
    pendiente: int)

  /** The page (lines 24-80): None when the query returns no row ("No hay
      datos"), otherwise the filtered rows, their product names and the
      three totals. */
  function EstadoDeCuenta(cs: seq<Client>, es: seq<Invoice>, ds: seq<InvoiceLine>, cliente: Option<string>,
                          estados: set<string>, catalog: map<string, string>): (s: Option<Statement>)
    ensures s.None? <==> StatementQuery(cs, es, ds, cliente) == []
    ensures s.Some? ==> IsSubsequence(s.value.rows, StatementQuery(cs, es, ds, cliente))
    ensures s.Some? ==> s.value.rows == StatusFilter(StatementQuery(cs, es, ds, cliente), estados)
    ensures s.Some? ==> s.value.productos == ProductColumn(s.value.rows, catalog)
    ensures s.Some? ==> s.value.comprado == Sum(s.value.rows, RowSubtotal)
    ensures s.Some? ==> s.value.pagado == Sum(s.value.rows, PaidContribution)
    ensures s.Some? ==> s.value.pendiente == s.value.comprado - s.value.pagado
    ensures s.Some? && s.value.rows == [] ==> s.value.comprado == 0 && s.value.pagado == 0 && s.value.pendiente == 0
  {
    var query := StatementQuery(cs, es, ds, cliente);
    if query == [] then None
    else
      var rows := StatusFilter(query, estados);
      Some(Statement(rows, ProductColumn(rows, catalog), TotalComprado(rows), TotalPagado(rows), TotalPendiente(rows)))
  }

  /** The default selection is two of the four offered statuses. */
  lemma DefaultEstadosOffered()
    ensures forall e :: e in DefaultEstados ==> e in EstadoOptions
    ensures DefaultEstados != {} && |DefaultEstados| < |EstadoOptions|
  {
    assert "Pagada" in EstadoOptions && "Pendiente de pago" in EstadoOptions;
  }

  // ---- total_pagado once per invoice ----

  function Ids(rows: seq<StatementRow>): set<int>
  {
    set x | x in rows :: x.idTransaccion
  }

  /** One row per invoice id, taken from the input. */
  function FirstLines(rows: seq<StatementRow>): (r: seq<StatementRow>)
    ensures forall x :: x in r ==> x in rows
    ensures Ids(r) == Ids(rows)
    ensures DistinctIds(r)
    decreases |rows|
  {
    if rows == [] then []
    else
      var init, last := rows[..|rows| - 1], rows[|rows| - 1];
      assert rows == init + [last];
      var f := FirstLines(init);
      assert Ids(rows) == Ids(init) + {last.idTransaccion};
      if last.idTransaccion in Ids(init) then f
      else
        assert Ids(f + [last]) == Ids(f) + {last.idTransaccion};
        f + [last]
  }

  /** total_pagado counting each Pagada invoice once. */
  function TotalPagadoPorFactura(rows: seq<StatementRow>): int
  {
    Sum(FirstLines(Filter(rows, IsPagada)), RowTotal)
  }

  /** A further line of an invoice already counted adds nothing. */
  lemma PorFacturaIgnoresRepeatLine(rows: seq<StatementRow>, x: StatementRow)
    requires x.idTransaccion in Ids(Filter(rows, IsPagada))
    ensures TotalPagadoPorFactura(rows + [x]) == TotalPagadoPorFactura(rows)
  {
    var f := Filter(rows, IsPagada);
    FilterAppend(rows, [x], IsPagada);
    if IsPagada(x) {
      assert Filter([x], IsPagada) == [x];
      assert (f + [x])[..|f + [x]| - 1] == f;
    } else {
      assert Filter([x], IsPagada) == [];
      assert f + [] == f;
    }
  }

  /** No two rows belong to the same invoice. */
  predicate DistinctIds(rows: seq<StatementRow>)
  {
    forall i, j :: 0 <= i < j < |rows| ==> rows[i].idTransaccion != rows[j].idTransaccion
  }

  /** Rows with pairwise different invoice ids are their own first lines. */
  lemma {:induction false} FirstLinesOfDistinct(rows: seq<StatementRow>)
    requires DistinctIds(rows)
    ensures FirstLines(rows) == rows
  {
    if rows != [] {
      var init, last := rows[..|rows| - 1], rows[|rows| - 1];
      FirstLinesOfDistinct(init);
      forall y | y in init ensures y.idTransaccion != last.idTransaccion {
        var i :| 0 <= i < |init| && init[i] == y;
        assert rows[i] == y;
      }
      assert init + [last] == rows;
    }
  }

  /** If no two Pagada rows share an invoice, the Pagada rows have pairwise different ids. */
  lemma {:induction false} PaidRowsDistinct(rows: seq<StatementRow>)
    requires forall i, j :: 0 <= i < j < |rows| && IsPagada(rows[i]) && IsPagada(rows[j]) ==>
               rows[i].idTransaccion != rows[j].idTransaccion
    ensures DistinctIds(Filter(rows, IsPagada))
  {
    if rows != [] {
      var tail := rows[1..];
      PaidRowsDistinct(tail);
      if IsPagada(rows[0]) {
        var f := Filter(rows, IsPagada);
        forall j | 0 < j < |f| ensures f[0].idTransaccion != f[j].idTransaccion {
          assert f[j] in Filter(tail, IsPagada);
          var k :| 0 <= k < |tail| && tail[k] == f[j];
          assert rows[k + 1] == f[j];
        }
      }
    }
  }

  /** When every paid invoice shows a single line, the per-line sum of
      line 79 equals the per-invoice sum. */
  lemma PagadoAgreesOnSingleLineInvoices(rows: seq<StatementRow>)
    requires forall i, j :: 0 <= i < j < |rows| && IsPagada(rows[i]) && IsPagada(rows[j]) ==>
               rows[i].idTransaccion != rows[j].idTransaccion
    ensures TotalPagadoPorFactura(rows) == TotalPagado(rows)
  {
    PaidRowsDistinct(rows);
    FirstLinesOfDistinct(Filter(rows, IsPagada));
  }

  /** One Pagada invoice of total 150.00 with lines of 100.00 and 50.00: line
      79 reports 300.00 paid and -150.00 pending; counted once per invoice,
      150.00 is paid and nothing is pending. */
  lemma PagadoDoubleCounts()
    ensures var a := StatementRow("Cliente", 1, 0, None, "A", 1, Some(10000), Some(10000), Some(15000), Some("Pagada"));
            var b := StatementRow("Cliente", 1, 0, None, "B", 1, Some(5000), Some(5000), Some(15000), Some("Pagada"));
            && TotalComprado([a, b]) == 15000
            && TotalPagado([a, b]) == 30000
            && TotalPendiente([a, b]) == -15000
            && TotalPagadoPorFactura([a, b]) == 15000
  {
    var a := StatementRow("Cliente", 1, 0, None, "A", 1, Some(10000), Some(10000), Some(15000), Some("Pagada"));
    var b := StatementRow("Cliente", 1, 0, None, "B", 1, Some(5000), Some(5000), Some(15000), Some("Pagada"));
    assert Filter([a, b], IsPagada) == [a, b];
    assert [a, b][..1] == [a];
    assert FirstLines([a]) == [a];
    assert FirstLines([a, b]) == [a];
  }
}
