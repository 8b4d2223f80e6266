/** The value-level rules of the movements page
    (pages/1_Movimientos_de_Inventario.py): cart lines, the cart total, the
    payment options of a sale, and the header and detail rows a save writes. */
module MovementRules {
  import opened Tables
  import opened Schema

  /** One entry of the pending-transaction cart. A sale or purchase line holds
      Producto, Cantidad, Precio and Subtotal; a transfer line only Producto
      and Cantidad. Money is in integer cents. */
  datatype CartItem = CartItem(producto: string, cantidad: int, precio: Option<int>, subtotal: Option<int>)

  /** The line has the Precio and Subtotal keys of a sale or purchase line. */
  predicate Priced(item: CartItem)
  {
    item.precio.Some? && item.subtotal.Some?
  }

  /** The lines the two "Agregar al detalle" buttons can build: the quantity
      widget has minimum 1 and the price widget minimum 0. */
  predicate WellFormedLine(item: CartItem)
  {
    item.cantidad >= 1 &&
    if Priced(item) then item.precio.value >= 0 && item.subtotal.value == item.cantidad * item.precio.value
    else item.precio.None? && item.subtotal.None?
  }

  /** The sale or purchase line built at lines 197-204. */
  function SaleLine(producto: string, cantidad: int, precio: int): (item: CartItem)
    requires cantidad >= 1 && precio >= 0
    ensures WellFormedLine(item) && Priced(item)
    ensures item.producto == producto && item.cantidad == cantidad && item.precio == Some(precio)
  {
    CartItem(producto, cantidad, Some(precio), Some(cantidad * precio))
  }

  /** The transfer line built at lines 322-326. */
  function TransferLine(producto: string, cantidad: int): (item: CartItem)
    requires cantidad >= 1
    ensures WellFormedLine(item) && !Priced(item)
    ensures item.producto == producto && item.cantidad == cantidad
  {
    CartItem(producto, cantidad, None, None)
  }

  const Contado := "Venta al contado"
  const Credito := "Venta al crédito"
  const PendienteDePago := "Pendiente de pago"

  /** The choices of the "Forma de Pago" select box for a sale type. */
  function PaymentOptions(tipo: string): (opts: seq<string>)
    ensures |opts| >= 1
    ensures tipo == Contado ==> opts == ["Efectivo", "Tarjeta", "Transferencia"]
    ensures tipo == Credito ==> opts == [PendienteDePago]
    ensures tipo != Contado && tipo != Credito ==> opts == [""]
    ensures "" in opts <==> tipo != Contado && tipo != Credito
    ensures PendienteDePago in opts <==> tipo == Credito
  {
    if tipo == Contado then ["Efectivo", "Tarjeta", "Transferencia"]
    else if tipo == Credito then [PendienteDePago]
    else [""]
  }

  function ItemQuantity(item: CartItem): int
  {
    item.cantidad
  }

  function ItemSubtotal(item: CartItem): int
  {
    Amount(item.subtotal)
  }

  /** Some line carries a Subtotal, so the cart's data frame has that column. */
  predicate HasSubtotalColumn(cart: seq<CartItem>)
  {
    exists i :: 0 <= i < |cart| && cart[i].subtotal.Some?
  }

  /** The total shown under the cart and stored in the header (lines 210 and
      332): the sum of the Subtotal column for a sale or purchase, the sum of
      Cantidad for a transfer. Without a Subtotal column the sale page fails
      before its Guardar button is drawn: None. */
  function CartTotal(kind: Kind, cart: seq<CartItem>): (t: Option<int>)
    ensures t.None? <==> kind != Transferencia && forall i :: 0 <= i < |cart| ==> cart[i].subtotal.None?
  {
    if kind == Transferencia then Some(Sum(cart, ItemQuantity))
    else if HasSubtotalColumn(cart) then Some(Sum(cart, ItemSubtotal))
    else None
  }

  /** Over lines the form can build, a total is never negative, and a
      transfer's box count is at least its number of lines. */
  lemma {:induction false} CartTotalBounds(kind: Kind, cart: seq<CartItem>)
    requires forall i :: 0 <= i < |cart| ==> WellFormedLine(cart[i])
    ensures Sum(cart, ItemSubtotal) >= 0 && Sum(cart, ItemQuantity) >= |cart|
    ensures CartTotal(kind, cart).Some? ==> CartTotal(kind, cart).value >= 0
    ensures kind == Transferencia ==> CartTotal(kind, cart).value >= |cart|
    ensures kind != Transferencia && cart != [] && Priced(cart[0]) ==> CartTotal(kind, cart).Some?
  {
    if cart != [] {
      CartTotalBounds(kind, cart[1..]);
      assert WellFormedLine(cart[0]);
      if Priced(cart[0]) {
        assert cart[0].subtotal.value >= 0;
      }
    }
  }

  /** What the form holds for the header when Guardar is pressed; every
      text field starts as "" (lines 121-129). */
  datatype HeaderDraft = HeaderDraft(
    fecha: Date,
    correlativo: string,
    tipo: string,
    pago: string,
    bodega: string,
    cliente: string,
    proveedor: string,
    bodegaEntrada: string,
    bodegaSalida: string)

  /** Python's `s or None`: the empty text is stored as NULL. */
  function OrNone(s: string): (o: Option<string>)
    ensures o.None? <==> s == ""
    ensures o.Some? ==> o.value == s
  {
    if s == "" then None else Some(s)
  }

  predicate NotBlank(o: Option<string>)
  {
    o.None? || o.value != ""
  }

  /** No text column of the header holds the empty text. */
  predicate NoBlankText(h: Header)
  {
    NotBlank(h.noEnvio) && NotBlank(h.tipoVenta) && NotBlank(h.metodoPago) && NotBlank(h.bodega1)
    && NotBlank(h.bodega2) && NotBlank(h.idCliente) && NotBlank(h.proveedor)
  }

  /** The header is the sparse union the kinds share: sale type, payment
      method and client belong to sales, the supplier to purchases, and the
      second warehouse to transfers; any other kind leaves them NULL. */
  predicate FitsKind(h: Header)
  {
    && (h.transaccion != 1 ==> h.tipoVenta.None? && h.metodoPago.None? && h.idCliente.None?)
    && (h.transaccion != 2 ==> h.proveedor.None?)
    && (h.transaccion != 3 ==> h.bodega2.None?)
  }

  /** The header row a save inserts (lines 232-270 and 354-371). */
  function BuildHeader(kind: Kind, d: HeaderDraft, id: nat, total: int): (h: Header)
    ensures h.idTransaccion == id && h.fecha == d.fecha && h.transaccion == Code(kind) && h.total == total
    ensures FitsKind(h) && NoBlankText(h)
    ensures h.noEnvio == OrNone(d.correlativo)
    ensures h.bodega1 == OrNone(if kind == Transferencia then d.bodegaEntrada else d.bodega)
    ensures kind == Venta ==> h.tipoVenta == OrNone(d.tipo) && h.metodoPago == OrNone(d.pago) && h.idCliente == OrNone(d.cliente)
    ensures kind == Compra ==> h.proveedor == OrNone(d.proveedor)
    ensures kind == Transferencia ==> h.bodega2 == OrNone(d.bodegaSalida)
  {
    match kind
    case Venta =>
      Header(id, d.fecha, 1, OrNone(d.correlativo), OrNone(d.tipo), OrNone(d.pago),
             OrNone(d.bodega), None, OrNone(d.cliente), None, total)
    case Compra =>
      Header(id, d.fecha, 2, OrNone(d.correlativo), None, None,
             OrNone(d.bodega), None, None, OrNone(d.proveedor), total)
    case Transferencia =>
      Header(id, d.fecha, 3, OrNone(d.correlativo), None, None,
             OrNone(d.bodegaEntrada), OrNone(d.bodegaSalida), None, None, total)
  }

  /** A sale stores no payment method exactly when no sale type was chosen,
      and stores "Pendiente de pago" exactly for a credit sale. */
  lemma SalePaymentRecorded(d: HeaderDraft, id: nat, total: int)
    requires d.pago in PaymentOptions(d.tipo)
    ensures BuildHeader(Venta, d, id, total).metodoPago.None? <==> d.tipo != Contado && d.tipo != Credito
    ensures BuildHeader(Venta, d, id, total).metodoPago == Some(PendienteDePago) <==> d.tipo == Credito
    ensures BuildHeader(Venta, d, id, total).tipoVenta.None? <==> d.tipo == ""
  {
  }

  /** A sale or purchase row reads item["Precio"] and item["Subtotal"]: a
      line without them raises KeyError. A transfer row reads neither. */
  predicate Insertable(kind: Kind, item: CartItem)
  {
    kind == Transferencia || Priced(item)
  }

  /** The detail row inserted for one cart line (lines 275-287, 376-388). */
  function RowOf(kind: Kind, id: nat, fecha: Date, item: CartItem, idDetalle: nat): Detail
  {
    Detail(idDetalle, id, fecha, item.producto, item.cantidad,
           if kind == Transferencia then None else item.precio,
           if kind == Transferencia then None else item.subtotal)
  }

  /** The detail rows of a save, one per cart line in cart order, numbered
      from firstId; None when some line raises KeyError. */
  function LineRows(kind: Kind, id: nat, fecha: Date, items: seq<CartItem>, firstId: nat): (rows: Option<seq<Detail>>)
    ensures rows.Some? <==> forall i :: 0 <= i < |items| ==> Insertable(kind, items[i])
    ensures rows.Some? ==> |rows.value| == |items|
    ensures rows.Some? ==> forall i :: 0 <= i < |items| ==> rows.value[i] == RowOf(kind, id, fecha, items[i], firstId + i)
  {
    if items == [] then Some([])
    else if !Insertable(kind, items[0]) then None
    else
      var rest := LineRows(kind, id, fecha, items[1..], firstId + 1);
      if rest.None? then None
      else Some([RowOf(kind, id, fecha, items[0], firstId)] + rest.value)
  }

  /** Every row of a save carries the new header id and the header's date,
      the line's product and quantity, and, unless it is a transfer row, the
      line's price and subtotal; a transfer row's price and subtotal are NULL.
      Over lines the form can build, every row has the shape its kind asks. */
  lemma LineRowsFaithful(kind: Kind, id: nat, fecha: Date, items: seq<CartItem>, firstId: nat)
    requires LineRows(kind, id, fecha, items, firstId).Some?
    ensures var rows := LineRows(kind, id, fecha, items, firstId).value;
      forall i :: 0 <= i < |items| ==>
        && rows[i].idDetalle == firstId + i && rows[i].idTransaccion == id && rows[i].fecha == fecha
        && rows[i].sku == items[i].producto && rows[i].cantidad == items[i].cantidad
        && (kind == Transferencia ==> rows[i].precio.None? && rows[i].subtotal.None?)
        && (kind != Transferencia ==> rows[i].precio == items[i].precio && rows[i].subtotal == items[i].subtotal)
        && (WellFormedLine(items[i]) ==> RowShape(Code(kind), rows[i]))
  {
  }

  /** The total stored in the header is the total of the rows stored with it:
      the sum of their subtotals for a sale or purchase, of their quantities
      for a transfer. */
  lemma {:induction false} CartTotalMatchesRows(kind: Kind, id: nat, fecha: Date, cart: seq<CartItem>, firstId: nat)
    requires cart != []
    requires LineRows(kind, id, fecha, cart, firstId).Some?
    ensures CartTotal(kind, cart) == Some(RowsTotal(Code(kind), LineRows(kind, id, fecha, cart, firstId).value))
  {
    var rows := LineRows(kind, id, fecha, cart, firstId).value;
    var rest := LineRows(kind, id, fecha, cart[1..], firstId + 1).value;
    assert rows == [RowOf(kind, id, fecha, cart[0], firstId)] + rest;
    assert rows[1..] == rest;
    assert Sum(cart, ItemSubtotal) == ItemSubtotal(cart[0]) + Sum(cart[1..], ItemSubtotal);
    assert Sum(cart, ItemQuantity) == ItemQuantity(cart[0]) + Sum(cart[1..], ItemQuantity);
    assert Sum(rows, DetailSubtotal) == DetailSubtotal(rows[0]) + Sum(rest, DetailSubtotal);
    assert Sum(rows, DetailQuantity) == DetailQuantity(rows[0]) + Sum(rest, DetailQuantity);
    if kind != Transferencia {
      assert cart[0].subtotal.Some?;
      assert HasSubtotalColumn(cart);
    }
    if |cart| > 1 {
      CartTotalMatchesRows(kind, id, fecha, cart[1..], firstId + 1);
      assert kind != Transferencia ==> HasSubtotalColumn(cart[1..]) by {
        if kind != Transferencia { assert cart[1..][0].subtotal.Some?; }
      }
    } else {
      assert cart[1..] == [] && rest == [];
    }
  }
}
