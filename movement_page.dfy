/** The session state of the movements page and the operations its buttons
    run (pages/1_Movimientos_de_Inventario.py): the cart functions, the two
    Guardar blocks and the message shown after a save. */
module MovementPage {
  import opened Tables
  import opened Schema
  import opened MovementRules
  import opened Ledger

  /** Why a Guardar press wrote nothing. */
  datatype SaveFailure =
    | StorageFailure(statement: nat)  // the statement-th database call raised (0: header insert, 1..n: detail inserts, n+1: commit)
    | MissingKey(line: nat)           // the cart line at this index has no Precio or Subtotal key

  datatype SaveOutcome =
    | Saved(id: nat)            // committed; id is the new header's id_transaccion
    | EmptyCart                 // "Agrega al menos un producto antes de guardar."
    | NoTotal                   // the sale cart has no Subtotal column: the page fails before Guardar
    | RolledBack(cause: SaveFailure)

  /** The database call with this index raises, among calls first..last. */
  predicate RaisesWithin(failAt: Option<nat>, first: nat, last: nat)
  {
    failAt.Some? && first <= failAt.value <= last
  }

  /** A save of this cart commits: the cart is not empty, it has a total,
      every line can be inserted, and no database call raises. */
  predicate Commits(kind: Kind, cart: seq<CartItem>, failAt: Option<nat>)
  {
    && cart != []
    && CartTotal(kind, cart).Some?
    && (forall i :: 0 <= i < |cart| ==> Insertable(kind, cart[i]))
    && !RaisesWithin(failAt, 0, |cart| + 1)
  }

  datatype Staging = Staged(rows: seq<Detail>) | Raised(cause: SaveFailure)

  /** The detail-insert loop of a save (lines 274-287, 375-388): one row per
      cart line, in cart order, each staged in the open transaction. The
      loop stops at the first line that raises: a line without its Precio or
      Subtotal key in a sale or purchase raises KeyError while its parameters
      are built, before its insert runs; otherwise the insert itself may
      raise (detail insert k, for line k - 1, is database call k). */
  method StageDetails(kind: Kind, id: nat, fecha: Date, cart: seq<CartItem>, firstDetail: nat, failAt: Option<nat>)
    returns (r: Staging)
    ensures r.Staged? <==> (forall i :: 0 <= i < |cart| ==> Insertable(kind, cart[i])) && !RaisesWithin(failAt, 1, |cart|)
    ensures r.Staged? ==> r.rows == LineRows(kind, id, fecha, cart, firstDetail).value
    ensures r.Raised? && r.cause.StorageFailure? ==>
      var k := r.cause.statement;
      && 1 <= k <= |cart| && failAt == Some(k)
      && forall i :: 0 <= i < k ==> Insertable(kind, cart[i])
    ensures r.Raised? && r.cause.MissingKey? ==>
      var k := r.cause.line;
      && k < |cart| && !Insertable(kind, cart[k]) && !RaisesWithin(failAt, 1, k)
      && forall i :: 0 <= i < k ==> Insertable(kind, cart[i])
  {
    var rows: seq<Detail> := [];
    var i := 0;
    while i < |cart|
      invariant 0 <= i <= |cart| && |rows| == i
      invariant forall k :: 0 <= k < i ==> Insertable(kind, cart[k])
      invariant forall k :: 0 <= k < i ==> rows[k] == RowOf(kind, id, fecha, cart[k], firstDetail + k)
      invariant !RaisesWithin(failAt, 1, i)
    {
      if !Insertable(kind, cart[i]) {
        return Raised(MissingKey(i));
      }
      if failAt == Some(i + 1) {
        return Raised(StorageFailure(i + 1));
      }
      rows := rows + [RowOf(kind, id, fecha, cart[i], firstDetail + i)];
      i := i + 1;
    }
    r := Staged(rows);
  }

  /** What a Guardar press decides before anything becomes visible: either
      the header and rows to commit, or why nothing is written. */
  datatype Plan = Write(header: Header, rows: seq<Detail>) | Abort(outcome: SaveOutcome)

  /** The body of a Guardar block up to conn.commit(), with id and
      firstDetail the ids the database hands out next (lines 221-289 and
      343-390). */
  method Prepare(kind: Kind, draft: HeaderDraft, cart: seq<CartItem>, id: nat, firstDetail: nat, failAt: Option<nat>)
    returns (plan: Plan)
    ensures plan.Write? <==> Commits(kind, cart, failAt)
    ensures plan.Write? ==>
      && plan.header == BuildHeader(kind, draft, id, CartTotal(kind, cart).value)
      && plan.rows == LineRows(kind, id, draft.fecha, cart, firstDetail).value
    ensures plan.Abort? ==> !plan.outcome.Saved?
  {
    if cart == [] {
      return Abort(EmptyCart);
    }
    var total := CartTotal(kind, cart);
    if total.None? {
      return Abort(NoTotal);
    }
    if failAt == Some(0) {
      return Abort(RolledBack(StorageFailure(0)));
    }
    var header := BuildHeader(kind, draft, id, total.value);
    var staged := StageDetails(kind, id, draft.fecha, cart, firstDetail, failAt);
    if staged.Raised? {
      assert !Commits(kind, cart, failAt) by {
        if staged.cause.MissingKey? {
          assert !Insertable(kind, cart[staged.cause.line]);
        }
      }
      return Abort(RolledBack(staged.cause));
    }
    if failAt == Some(|cart| + 1) {
      return Abort(RolledBack(StorageFailure(|cart| + 1)));
    }
    plan := Write(header, staged.rows);
  }

  /** st.session_state of the page. */
  class MovementForm {
    var cart: seq<CartItem>      // carrito
    var expandProduct: bool      // expand_producto
    var savedOk: bool            // guardado_ok
    var savedId: Option<nat>     // guardado_id
    var formVersion: nat         // form_version

    /** Every cart line is one the add buttons can build. */
    ghost predicate Valid()
      reads this
    {
      forall i :: 0 <= i < |cart| ==> WellFormedLine(cart[i])
    }

    /** The defaults set on the first run (lines 65-79). */
    constructor ()
      ensures Valid()
      ensures cart == [] && expandProduct && !savedOk && savedId == None && formVersion == 0
    {
      cart, expandProduct := [], true;
      savedOk, savedId := false, None;
      formVersion := 0;
    }

    /** _agregar_item_carrito: append the line and fold the product expander. */
    method AddItem(item: CartItem)
      requires Valid() && WellFormedLine(item)
      modifies this
      ensures Valid()
      ensures cart == old(cart) + [item] && !expandProduct
      ensures savedOk == old(savedOk) && savedId == old(savedId) && formVersion == old(formVersion)
    {
      cart := cart + [item];
      expandProduct := false;
    }

    /** _vaciar_carrito: empty the cart and unfold the product expander. */
    method ClearCart()
      modifies this
      ensures Valid()
      ensures cart == [] && expandProduct
      ensures savedOk == old(savedOk) && savedId == old(savedId) && formVersion == old(formVersion)
    {
      cart := [];
      expandProduct := true;
    }

    /** _quitar_ultimo: drop the last line of a non-empty cart; an empty cart
        and every other field stay as they are. */
    method RemoveLast()
      requires Valid()
      modifies this
      ensures Valid()
      ensures old(cart) == [] ==> cart == []
      ensures old(cart) != [] ==> cart == old(cart)[..|old(cart)| - 1]
      ensures expandProduct == old(expandProduct) && savedOk == old(savedOk)
      ensures savedId == old(savedId) && formVersion == old(formVersion)
    {
      if cart != [] {
        cart := cart[..|cart| - 1];
      }
    }

    /** A Guardar press (lines 221-308 for a sale or purchase, 343-408 for a
        transfer). failAt names the database call that raises, if any. The
        header and the detail rows are staged in the open transaction and
        become visible only at the commit; any exception rolls them back and
        leaves the session as it was. A committed save resets the form. */
    method Save(kind: Kind, draft: HeaderDraft, ledger: LedgerDb, failAt: Option<nat>) returns (outcome: SaveOutcome)
      requires Valid() && ledger.Valid()
      modifies this, ledger
      ensures Valid() && ledger.Valid()
      ensures outcome.Saved? <==> Commits(kind, old(cart), failAt)
      ensures outcome.Saved? ==>
        && outcome.id == old(ledger.nextHeaderId)
        && ledger.headers == old(ledger.headers)
             + [BuildHeader(kind, draft, old(ledger.nextHeaderId), CartTotal(kind, old(cart)).value)]
        && ledger.details == old(ledger.details)
             + LineRows(kind, old(ledger.nextHeaderId), draft.fecha, old(cart), old(ledger.nextDetailId)).value
        && ledger.nextHeaderId == old(ledger.nextHeaderId) + 1
        && ledger.nextDetailId == old(ledger.nextDetailId) + |old(cart)|
      ensures outcome.Saved? ==>
        && cart == [] && expandProduct && savedOk && savedId == Some(outcome.id)
        && formVersion == old(formVersion) + 1
      ensures !outcome.Saved? ==> unchanged(this) && unchanged(ledger)
    {
      var id := ledger.nextHeaderId;
      var plan := Prepare(kind, draft, cart, id, ledger.nextDetailId, failAt);
      if plan.Abort? {
        return plan.outcome;
      }
      SaveRowsBalanced(kind, draft, id, ledger.nextDetailId, cart);
      ledger.Commit(plan.header, plan.rows);
      savedOk, savedId := true, Some(id);
      cart, expandProduct := [], true;
      formVersion := formVersion + 1;
      outcome := Saved(id);
    }

    /** The message after the reload (lines 416-420): the saved id is shown
        once, and both flags are cleared. */
    method TakeSavedMessage() returns (shown: Option<nat>)
      modifies this
      ensures shown == if old(savedOk) then old(savedId) else None
      ensures !savedOk && (old(savedOk) ==> savedId == None) && (!old(savedOk) ==> savedId == old(savedId))
      ensures cart == old(cart) && expandProduct == old(expandProduct) && formVersion == old(formVersion)
    {
      shown := None;
      if savedOk {
        shown := savedId;
        savedOk, savedId := false, None;
      }
    }
  }
}
