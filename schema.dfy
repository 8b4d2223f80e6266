/** The two ledger tables, encabezado_transaccion and detalle_transaccion
    (database.py), and the three kinds of movement the form records. */
module Schema {
  import opened Tables

  /** A calendar date as a day number. */
  type Date = nat

  /** The kinds of movement offered by the "Tipo de Movimiento" select box. */
  datatype Kind = Venta | Compra | Transferencia

  /** The code stored in the transaccion column: 1 venta, 2 compra, 3 transferencia. */
  function Code(k: Kind): (c: int)
    ensures 1 <= c <= 3
  {
    match k
    case Venta => 1
    case Compra => 2
    case Transferencia => 3
  }

  /** The label the form shows for a kind. */
  function Label(k: Kind): string
  {
    match k
    case Venta => "Venta"
    case Compra => "Compra"
    case Transferencia => "Transferencia"
  }

  /** A row of encabezado_transaccion. Money is in integer cents; for a
      transfer, total is a count of boxes. */
  datatype Header = Header(
    idTransaccion: nat,
    fecha: Date,
    transaccion: int,
    noEnvio: Option<string>,
    tipoVenta: Option<string>,
    metodoPago: Option<string>,
    bodega1: Option<string>,
    bodega2: Option<string>,
    idCliente: Option<string>,
    proveedor: Option<string>,
    total: int)

  /** A row of detalle_transaccion. Money is in integer cents. */
  datatype Detail = Detail(
    idDetalle: nat,
    idTransaccion: nat,
    fecha: Date,
    sku: string,
    cantidad: int,
    precio: Option<int>,
    subtotal: Option<int>)

  /** A missing amount adds nothing to a pandas sum. */
  function Amount(o: Option<int>): int
  {
    if o.Some? then o.value else 0
  }

  function DetailQuantity(d: Detail): int
  {
    d.cantidad
  }

  function DetailSubtotal(d: Detail): int
  {
    Amount(d.subtotal)
  }

  /** What the header total of a movement with the given code must be, given
      its rows: the sum of quantities for a transfer (code 3), the sum of
      subtotals otherwise. */
  function RowsTotal(code: int, rows: seq<Detail>): int
  {
    if code == 3 then Sum(rows, DetailQuantity) else Sum(rows, DetailSubtotal)
  }

  /** The shape of a detail row under a header with the given code: at least
      one unit; a transfer row has no price and no subtotal; any other row has
      a price of at least zero and subtotal = quantity * price. */
  predicate RowShape(code: int, d: Detail)
  {
    d.cantidad >= 1 &&
    if code == 3 then d.precio.None? && d.subtotal.None?
    else d.precio.Some? && d.subtotal.Some? && d.precio.value >= 0
         && d.subtotal.value == d.cantidad * d.precio.value
  }
}
