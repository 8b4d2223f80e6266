# Inventory ledger of coimpex_frutas, in Dafny

This project models the small inventory ledger behind the Streamlit pages
of coimpex_frutas, a produce trading business. It covers three pages.

- **Registro de Movimientos** (`pages/1_Movimientos_de_Inventario.py`). Staff
  record a sale (Venta, code 1), a purchase (Compra, code 2) or a transfer
  between warehouses (Transferencia, code 3). Lines go into a session cart,
  which can be appended to, shortened by its last line or emptied. Guardar
  writes one `encabezado_transaccion` header and one `detalle_transaccion`
  row per cart line in a single database transaction, then resets the form.
- **Estado de Cuenta** (`pages/2_Estados_de_Cuenta.py`). It joins a
  client's invoices with their lines, keeps the selected payment statuses,
  names the products, and shows Total Comprado, Total Pagado and Total
  Pendiente.
- **Consulta DB** (`pages/2_Consulta_DB.py`). It labels every header with its
  kind, filters headers by the selected kinds and details by their header
  id, and splits the header table into one set per kind for export.

Modules, one per file:

| file | module | what it holds |
|---|---|---|
| `tables.dfy` | `Tables` | `Option` for NULL cells; the order-preserving row selection (a pandas boolean mask), column sums and their lemmas |
| `schema.dfy` | `Schema` | the header and detail rows of `database.py`; kind codes; the total a header owes its rows |
| `text.dfy` | `Text` | `str.strip()` / `str.lower()` and the search for the "Producto" column |
| `movement_rules.dfy` | `MovementRules` | cart lines, cart total, payment options, the header and detail rows a save builds |
| `ledger.dfy` | `Ledger` | the two tables with their AUTOINCREMENT counters (class `LedgerDb`) and the invariant every save keeps |
| `movement_page.dfy` | `MovementPage` | the page's session state (class `MovementForm`), its cart buttons and the Guardar blocks |
| `account_statement.dfy` | `AccountStatement` | the statement query, status filter, product names and totals |
| `movement_query.dfy` | `MovementQuery` | `tipo_map`, the kind and detail filters, the per-kind sets |

Money is in integer cents. A date is a day number. A database failure is
an input: `failAt` names the database call of a save that raises (0 is the
header insert, k is the insert for cart line k - 1, and |cart| + 1 is the
commit). `LedgerDb.Valid()` is the ledger invariant. It says that ids
increase in insertion order and stay below the counters, that every detail
has its header, and that every header fits its kind, stores no empty text,
has at least one row, and equals the total of its rows.

## Model

| member | source | states |
|---|---|---|
| `Schema.Code` | database.py:19 | the stored code of every kind is 1, 2 or 3 |
| `Text.TrimLeftRemovesLeadingSpace` | pages/1_Movimientos_de_Inventario.py:52 | stripping the left removes a prefix made only of Python white space and leaves no leading white space |
| `Text.TrimRightRemovesTrailingSpace` | pages/1_Movimientos_de_Inventario.py:52 | stripping the right removes a suffix made only of white space and leaves no trailing white space |
| `Text.LowerPointwise` | pages/1_Movimientos_de_Inventario.py:52 | lower-casing keeps the length and maps each character on its own |
| `Text.StripIgnoresPadding` | pages/1_Movimientos_de_Inventario.py:52 | white space around a column name never changes whether it matches |
| `Text.LowerIgnored` | pages/1_Movimientos_de_Inventario.py:52 | letter case never changes whether a column name matches |
| `Text.FindProductColumn` | pages/1_Movimientos_de_Inventario.py:50-58 | the result is the first column whose stripped, lower-cased name is "producto"; it is None exactly when no column matches |
| `Text.ProductList` | pages/1_Movimientos_de_Inventario.py:60 | the product list is the column's non-empty cells, in sheet order, each as often as the sheet has it |
| `MovementRules.SaleLine` | pages/1_Movimientos_de_Inventario.py:194-204 | a sale or purchase line has quantity ≥ 1, price ≥ 0 and subtotal = quantity × price |
| `MovementRules.TransferLine` | pages/1_Movimientos_de_Inventario.py:320-326 | a transfer line has quantity ≥ 1 and neither price nor subtotal |
| `MovementRules.PaymentOptions` | pages/1_Movimientos_de_Inventario.py:146-151 | a cash sale offers exactly Efectivo, Tarjeta and Transferencia; a credit sale offers only "Pendiente de pago"; anything else offers only "" |
| `MovementRules.CartTotal` | pages/1_Movimientos_de_Inventario.py:206-210 | a sale or purchase cart without any subtotal has no total (the page fails there); otherwise there is a total, which `CartTotalMatchesRows` ties to the rows saved with it and `CartTotalBounds` bounds |
| `MovementRules.CartTotalBounds` | pages/1_Movimientos_de_Inventario.py:206-210 | over lines the form builds, a cart total is never negative, a transfer's box count is at least its number of lines, and a cart whose first line is priced has a sale total |
| `MovementRules.OrNone` | pages/1_Movimientos_de_Inventario.py:242-247 | the empty text is stored as NULL and any other text as itself |
| `MovementRules.BuildHeader` | pages/1_Movimientos_de_Inventario.py:232-270 | the header carries the new id, the date, the kind's code and the total; each kind fills only its own fields (sale type, payment and client for a sale; supplier for a purchase; both warehouses for a transfer), with `or None` on each; no field holds "" |
| `MovementRules.SalePaymentRecorded` | pages/1_Movimientos_de_Inventario.py:140-153 | a sale stores no payment method exactly when no sale type was chosen, and stores "Pendiente de pago" exactly for a credit sale |
| `MovementRules.LineRows` | pages/1_Movimientos_de_Inventario.py:274-287 | there is one row per cart line in cart order, numbered from the first free id, unless some sale or purchase line lacks its price keys |
| `MovementRules.LineRowsFaithful` | pages/1_Movimientos_de_Inventario.py:375-388 | every row carries the header id, the header date, the line's product and quantity; a transfer row's price and subtotal are NULL; every row has its kind's shape |
| `MovementRules.CartTotalMatchesRows` | pages/1_Movimientos_de_Inventario.py:239-249 | the total stored in the header equals the subtotal sum (sale, purchase) or quantity sum (transfer) of the rows stored with it |
| `Ledger.AppendKeepsInvariant` | pages/1_Movimientos_de_Inventario.py:272-289 | appending a balanced header with fresh ids and its rows keeps the ledger invariant |
| `Ledger.SaveRowsBalanced` | pages/1_Movimientos_de_Inventario.py:232-287 | the header and rows one save builds are balanced and carry the ids the counters hand out |
| `Ledger.LedgerDb.constructor` | database.py:15-46 | the tables start empty, with both AUTOINCREMENT counters at 1 |
| `Ledger.LedgerDb.Commit` | pages/1_Movimientos_de_Inventario.py:289 | the commit appends the header and its rows together, moves both counters past the ids used, and keeps the invariant |
| `MovementPage.MovementForm.constructor` | pages/1_Movimientos_de_Inventario.py:65-79 | a new session has an empty cart, an open product expander, no saved flag, no saved id and form version 0 |
| `MovementPage.MovementForm.AddItem` | pages/1_Movimientos_de_Inventario.py:84-87 | the line is appended at the end of the cart, earlier lines are unchanged, and the expander closes |
| `MovementPage.MovementForm.ClearCart` | pages/1_Movimientos_de_Inventario.py:89-92 | the cart becomes empty and the expander opens |
| `MovementPage.MovementForm.RemoveLast` | pages/1_Movimientos_de_Inventario.py:94-97 | exactly the last line is removed from a non-empty cart; an empty cart and all other fields stay as they are |
| `MovementPage.StageDetails` | pages/1_Movimientos_de_Inventario.py:274-287 | the loop stages all of the save's rows exactly when no line lacks its keys and no detail insert raises; otherwise it names the first line or insert that raised |
| `MovementPage.Prepare` | pages/1_Movimientos_de_Inventario.py:221-289 | a save reaches the commit exactly when the cart is non-empty, has a total, every line is insertable and no call raises; it then writes the built header and rows |
| `MovementPage.MovementForm.Save` | pages/1_Movimientos_de_Inventario.py:221-308 | both Guardar blocks (the transfer one is lines 343-408): on success the ledger gains the header and all its rows, the cart empties, the expander opens, the version grows by 1 and the new id is kept; on any failure the ledger and the session are unchanged; the invariant holds either way |
| `MovementPage.MovementForm.TakeSavedMessage` | pages/1_Movimientos_de_Inventario.py:416-420 | the saved id is shown once, after which both flags are cleared |
| `AccountStatement.JoinAll` | pages/2_Estados_de_Cuenta.py:37-40 | a row is in the join exactly when it joins a client with the given id, one of that client's invoices and one of that invoice's lines |
| `AccountStatement.JoinLines` | pages/2_Estados_de_Cuenta.py:39 | the rows of one invoice are exactly its lines, each line giving one row as often as detalles holds it |
| `AccountStatement.JoinAllCounts` | pages/2_Estados_de_Cuenta.py:37-40 | with id_cliente and id_transaccion unique, each line of each of the client's invoices appears in the join exactly as often as in detalles: one row per line |
| `AccountStatement.OrderRows` | pages/2_Estados_de_Cuenta.py:41 | the result is ordered by (fecha, id_transaccion) and is a permutation of its input |
| `AccountStatement.StatementQueryRows` | pages/2_Estados_de_Cuenta.py:24-45 | the query returns exactly the selected client's invoice lines joined with their invoice, ordered by (fecha, id_transaccion), as often as the join has them; no client selected gives no rows |
| `AccountStatement.StatusFilter` | pages/2_Estados_de_Cuenta.py:52-53 | an empty status set keeps every row; otherwise exactly the rows whose status is selected are kept, in order, each as often as the query returned it |
| `AccountStatement.ProductName` | pages/2_Estados_de_Cuenta.py:56 | the catalog name of the sku, or the sku itself when the catalog lacks it |
| `AccountStatement.ProductColumn` | pages/2_Estados_de_Cuenta.py:56 | one product name per row, the catalog lookup of that row's sku |
| `AccountStatement.TotalComprado` | pages/2_Estados_de_Cuenta.py:78 | Total Comprado is the sum of the non-NULL subtotals; `StatusFilterSplitsComprado` splits it between kept and dropped rows |
| `AccountStatement.TotalPagado` | pages/2_Estados_de_Cuenta.py:79 | Total Pagado is the per-row sum of the invoice total over Pagada rows (see `TotalPagadoPerRow` and Findings) |
| `AccountStatement.TotalPendiente` | pages/2_Estados_de_Cuenta.py:80 | Total Pendiente is Total Comprado less the per-row paid sum; with no Pagada row it equals Total Comprado |
| `AccountStatement.TotalPagadoPerRow` | pages/2_Estados_de_Cuenta.py:79 | Total Pagado adds the invoice total once for every Pagada row and nothing for other rows |
| `AccountStatement.PaidInvoiceCountedPerLine` | pages/2_Estados_de_Cuenta.py:79 | a paid invoice of total t shown on k lines adds k × t |
| `AccountStatement.StatusFilterSplitsComprado` | pages/2_Estados_de_Cuenta.py:52-78 | the subtotals of the rows a selection keeps plus those it drops give the unfiltered Total Comprado |
| `AccountStatement.StatusFilterKeepsPagado` | pages/2_Estados_de_Cuenta.py:52-79 | a selection containing Pagada does not change Total Pagado |
| `AccountStatement.EstadoDeCuenta` | pages/2_Estados_de_Cuenta.py:47-80 | nothing is computed exactly when the query returns no rows; otherwise the shown rows are the status-filtered query, the names are the catalog lookups of their skus, Comprado is their subtotal sum, Pagado their per-row paid sum and Pendiente = Comprado − Pagado; a filter that removes every row gives three zero totals |
| `AccountStatement.DefaultEstadosOffered` | pages/2_Estados_de_Cuenta.py:22 | the default selection {Pagada, Pendiente de pago} is drawn from the four offered statuses |
| `AccountStatement.PagadoDoubleCounts` | pages/2_Estados_de_Cuenta.py:78-80 | one Pagada invoice of 150.00 with lines of 100.00 and 50.00 gives Comprado 150.00, Pagado 300.00 and Pendiente −150.00 as written; counted once per invoice it gives 150.00 paid |
| `AccountStatement.FirstLines` | pages/2_Estados_de_Cuenta.py:79 | keeps one row per invoice id, drawn from the input, and covers every invoice id |
| `AccountStatement.PorFacturaIgnoresRepeatLine` | pages/2_Estados_de_Cuenta.py:79 | with each paid invoice counted once, another line of an already counted invoice adds nothing |
| `AccountStatement.PagadoAgreesOnSingleLineInvoices` | pages/2_Estados_de_Cuenta.py:79 | when every paid invoice shows a single line, the per-line and per-invoice sums agree |
| `MovementQuery.TipoMovimiento` | pages/2_Consulta_DB.py:45-51 | a code has a label exactly when it is 1, 2 or 3, and the label is one of the three kind names |
| `MovementQuery.TipoMovimientoMatchesForm` | pages/2_Consulta_DB.py:45-49 | each kind's stored code is labelled with the name the form uses for that kind |
| `MovementQuery.TipoMovimientoInjective` | pages/2_Consulta_DB.py:45-49 | no two codes share a label |
| `MovementQuery.FilterHeaders` | pages/2_Consulta_DB.py:58-64 | exactly the headers whose label is selected are kept, in order and as often as the table has them; a code outside 1–3 never passes |
| `MovementQuery.FilterDetails` | pages/2_Consulta_DB.py:73 | exactly the details whose header id belongs to a kept header are kept, in order and as often as the table has them |
| `MovementQuery.ByCode` | pages/2_Consulta_DB.py:79-81 | each per-kind set holds exactly the headers with that code, in order and as often as the table has them |
| `MovementQuery.ConsultaDB` | pages/2_Consulta_DB.py:38-81 | an empty header table stops the page; otherwise it shows the selected headers and exactly the details of those headers, and the per-kind sets come from the whole table, whatever the selection |
| `MovementQuery.DefaultSelectionKeepsKnownKinds` | pages/2_Consulta_DB.py:58-64 | the default selection keeps exactly the headers with a code from 1 to 3 |
| `MovementQuery.SingleKindSelection` | pages/2_Consulta_DB.py:64-81 | selecting one kind shows the same headers as that kind's export set |
| `MovementQuery.DefaultSelectionShowsLedger` | pages/2_Consulta_DB.py:64-73 | on a ledger the form wrote, the default selection shows every header and every detail |
| `MovementQuery.KindSetsPartition` | pages/2_Consulta_DB.py:79-81 | the three per-kind sets are pairwise disjoint and together hold each header with a known code exactly once |
| `MovementQuery.KindSetsCoverLedger` | pages/2_Consulta_DB.py:79-81 | on a ledger the form wrote, the three per-kind sets together are the whole header table |

## Left out

- The Streamlit interface is left out: widgets, `st.rerun`, containers, messages, and `st.stop` as a page exit. Session state is the fields of `MovementForm`.
- SQLite is left out: connections, cursors, SQL text and `lastrowid`. It is replaced by the two sequences of `LedgerDb` and their next-id counters. A failing database call is the `failAt` parameter.
- `db.run_query`, `data.productos` and the PDF generator are not part of this model. The statement tables and the catalog are inputs.
- Reading the Excel catalog and the Excel export (`generar_excel`) are left out. The catalog's column names and cells are inputs.
- Date and currency formatting (`_to_iso_date`, `strftime`, `f"Q {x:,.2f}"`, the `astype` conversions) are left out. They are library formatting.
- The login check in `app.py` is left out.
- `_db_error_box` is left out. It only displays the exception.
- MovementPage.MovementForm.Save: prices, subtotals and totals are exact cents. The source stores Python floats, so its totals match their rows only up to rounding.
- Text.LowerChar: only ASCII letters are lower-cased. No other character lower-cases into a letter of "producto", so the column test is unchanged. Other Unicode case mappings are not modelled.
- Text.FindProductColumn: column labels are text. `str(c)` of a non-text label is not modelled.
- AccountStatement.OrderRows: rows with the same (fecha, id_transaccion) keep their join order. SQL leaves the order of rows with equal keys open, so the model fixes one of the orders the query may return.
- AccountStatement.EstadoDeCuenta: NULL quantities and the failure of `astype(int)` on them are not modelled. A NULL price, subtotal or total adds 0, as in a pandas sum.
- AccountStatement.EstadoDeCuenta keeps line 79 as written: its Total Pagado is the per-line sum. The per-invoice figure is `AccountStatement.TotalPagadoPorFactura` (see Findings).
- The model orders `fecha` as a day number; the column type of `encabezados.fecha` is not in the source.

## Findings

| source | as written | input that shows it | evidently intended | confidence | as-written member | corrected member |
|---|---|---|---|---|---|---|
| pages/2_Estados_de_Cuenta.py:79 | Total Pagado sums the invoice `total` over every Pagada row of the line-level join, so a paid invoice with k lines counts k times | one Pagada invoice, total 150.00, with lines of 100.00 and 50.00: Total Pagado 300.00, Total Pendiente −150.00 | each paid invoice's total counted once: Total Pagado 150.00, Total Pendiente 0.00 | not executed; high, because the join repeats the invoice total on every one of its lines | `AccountStatement.PagadoDoubleCounts` | `AccountStatement.TotalPagadoPorFactura` |

The corrected `TotalPagadoPorFactura` counts the first Pagada row of each
invoice. `PorFacturaIgnoresRepeatLine` proves that another line of a counted
invoice adds nothing. `PagadoAgreesOnSingleLineInvoices` proves that it agrees
with the page whenever each paid invoice has a single line.
