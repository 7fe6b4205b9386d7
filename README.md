# Cotizador quotation core in Dafny

Cotizador is a small quotation system: a Django backend stores quotations
(`Cotizacion`) and their items (`ItemCotizacion`), and a React front end edits,
lists and prints them. This project models the parts of it that compute or keep
state:

- **The quotation store** (`quotation_store.dfy`, module `QuotationStore`).
  - It holds two tables, as a `Store` class with `quotes` and `items`.
  - Numbering: `numero` is 1 + the largest number, or 1 for an empty table.
  - Item totals are `cantidad × valor_unitario`.
  - `calcular_totales` gives subtotal = Σ item totals, IVA 19 % and total = subtotal + IVA.
  - Every item save or delete recomputes and re-saves the owning quotation.
  - Integrity errors (duplicate number, duplicate item number, unknown quotation) are `Result` failures that leave the tables unchanged.
  - `Valid` collects the constraints every method keeps.
- **The 19 % rule** (`tax.dfy`), shared by the backend and both forms.
- **The quotation form** (`quote_form.dfy`, `CrearCotizacion.jsx`).
  - The item editor: change, add with max + 1 ids, remove.
  - The running totals.
  - The client search, case-insensitive substring on empresa or nombre, gated on query length.
  - The JSON de-duplication of the client list.
  - The selection of a client and the form reset.
  - The POST payload and the switch to the printable view.
  - The component is a class whose fields are its React state. Each handler is a method whose postcondition gives the new state as a function of the old. The lemmas are about those functions.
- **The older form** (`home_form.dfy`, `Home.jsx`).
  - The validated append: ids 1..n, line totals.
  - The totals.
  - The submit guard.
  - The payload, whose `observaciones` holds one text line per item.
- **The listing pages** (`paging.dfy`, `quote_list.dfy`, `client_list.dfy`).
  - Ten rows a page, cut with `Array.prototype.slice`; `ceil(n / 10)` pages; buttons only when there is more than one page.
  - The loading/error/table choice.
  - The delete-by-id list update.
  - The PDF modal's loading states.
  - The nesting of the cliente fields for the A4 view (`quote_view.dfy`).
  - `paginate` does not clamp the page, and a deletion does not adjust it. When the last page holds one row and that row is deleted, the current page is left past the end and shows an empty table. With eleven rows to start with, no page button is left to leave it. `QuoteList.DeletingLoneLastRow` states this.
- **The PDF generator's computations** (`pdf_report.dfy`).
  - The money text `f"${x:,.0f}".replace(',', '.')` on whole pesos.
  - The header and item rows built by the loop over the items.
  - The totals rows, the closing sections and the file name.
- **The session** (`browser_storage.dfy`, `auth_context.dfy`, `use_auth.dfy`).
  - `localStorage` as a map.
  - The `AuthProvider`: mount-time restore, login and logout with their navigation, and `isLoggedIn`.
  - The stand-alone `useAuth` hook.
- **Form against backend** (`form_backend.dfy`). For the same items, the totals the form shows are those `calcular_totales` computes.

Amounts are exact reals: `Decimal` in the backend, without the two-decimal rounding of the database columns, and the front end's numbers without floating-point rounding. The PDF works on whole pesos (`nat`).

## Model

| member | source | states |
|---|---|---|
| `Tax.WithIva` | backend/cotizador/cotizacion/models.py:129-131 | iva = subtotal × 0.19 and total = subtotal + iva = subtotal × 1.19; a non-negative subtotal gives 0 ≤ iva ≤ subtotal ≤ total; all three are zero exactly when the subtotal is |
| `QuotationStore.MaxNumero` | backend/cotizador/cotizacion/models.py:113-115 | the Max aggregate bounds every number, is one of them, and is 0 on an empty table |
| `QuotationStore.NextNumero` | backend/cotizador/cotizacion/models.py:116 | the automatic number is at least 1, larger than every existing number, and 1 on an empty table |
| `QuotationStore.NextNumeroFree` | backend/cotizador/cotizacion/models.py:63 | the automatic number never violates the unique constraint on numero |
| `QuotationStore.Put` | backend/cotizador/cotizacion/models.py:118 | a save writes the row under its key, keeps keys unique and leaves every other row in place |
| `QuotationStore.WithoutPk` | backend/cotizador/cotizacion/models.py:178 | a delete removes the row with that key and keeps every other key |
| `QuotationStore.CotizacionSave` | backend/cotizador/cotizacion/models.py:111-123 | save numbers an unnumbered quotation, fails with DuplicateNumero exactly when another row holds the number, and otherwise returns the instance with the recomputed totals and writes the row StoredRow gives |
| `QuotationStore.SaveNumbering` | backend/cotizador/cotizacion/models.py:111-116 | an unnumbered save always succeeds with a number above every existing one; a numbered save keeps its number |
| `QuotationStore.NumberingIncreases` | backend/cotizador/cotizacion/models.py:112-116 | after an automatic number n is assigned, the next automatic number is n + 1 |
| `QuotationStore.StoredRow` | backend/cotizador/cotizacion/models.py:120-123 | the stored row carries the number; its amounts are the recomputed ones unless all three are zero, in which case the saved ones stay |
| `QuotationStore.SaveStoredAmounts` | backend/cotizador/cotizacion/models.py:120-123 | a quotation with no items keeps the amounts it was saved with; one whose items sum to non-zero stores the recomputed totals |
| `QuotationStore.ItemsOf` | backend/cotizador/cotizacion/models.py:128 | `self.items.all()`: exactly the item rows whose foreign key is the quotation |
| `QuotationStore.SumTotalsConcat` | backend/cotizador/cotizacion/models.py:129 | the sum of item totals is additive over concatenation |
| `QuotationStore.CalcularTotales` | backend/cotizador/cotizacion/models.py:125-131 | total = subtotal + iva, iva = subtotal × 0.19, and a quotation without items gets all zeros |
| `QuotationStore.SumTotalsNonNegative` | backend/cotizador/cotizacion/models.py:145-154 | items that pass the validators and carry their line total sum to a non-negative amount |
| `QuotationStore.ValidatedTotalsNonNegative` | backend/cotizador/cotizacion/models.py:82-99 | under the validators, 0 ≤ iva ≤ subtotal ≤ total for every quotation |
| `QuotationStore.ItemsOfConcat` | backend/cotizador/cotizacion/models.py:128 | selecting a quotation's items distributes over concatenation, so their order is kept |
| `QuotationStore.InsertAddsLine` | backend/cotizador/cotizacion/models.py:167-174 | inserting an item adds its total to its own quotation's sum and leaves every other quotation's sum unchanged |
| `QuotationStore.DeleteSubtractsLine` | backend/cotizador/cotizacion/models.py:176-181 | deleting an item takes its total off its own quotation's sum and leaves every other sum unchanged |
| `QuotationStore.PutKeepsNumbering` | backend/cotizador/cotizacion/models.py:63 | writing a row whose number no other row holds keeps numbers positive and unique, and keeps every key |
| `QuotationStore.PutKeepsItems` | backend/cotizador/cotizacion/models.py:139-169 | writing an item with an existing quotation, a free item number and its line total keeps the item constraints and references |
| `QuotationStore.FilterKeepsItems` | backend/cotizador/cotizacion/models.py:165 | removing item rows keeps unique keys, unique item numbers per quotation, line totals and references |
| `QuotationStore.FilterKeepsNumbering` | backend/cotizador/cotizacion/models.py:63 | removing quotation rows keeps keys and numbers unique |
| `QuotationStore.WithoutItemsOf` | backend/cotizador/cotizacion/models.py:139-141 | the cascade leaves no item of the deleted quotation and keeps every other item |
| `QuotationStore.CascadeKeepsReferences` | backend/cotizador/cotizacion/models.py:139-141 | after the cascade every remaining item refers to a remaining quotation |
| `QuotationStore.Store.constructor` | backend/cotizador/cotizacion/models.py:61-185 | an empty store satisfies every constraint |
| `QuotationStore.Store.SaveQuotation` | backend/cotizador/cotizacion/models.py:111-123 | the quotation table becomes the one CotizacionSave gives (unchanged on failure), items are untouched, and the constraints hold |
| `QuotationStore.Store.SaveItem` | backend/cotizador/cotizacion/models.py:167-174 | the item's total becomes cantidad × valor_unitario; an unknown quotation or a repeated item number fails and changes nothing; otherwise the item is written and its quotation's amounts become calcular_totales over the new items, every other quotation unchanged |
| `QuotationStore.Store.RecomputeParent` | backend/cotizador/cotizacion/models.py:173-174 | the parent's amounts become calcular_totales over the current items; every other quotation is unchanged; numbering and references are kept |
| `QuotationStore.Store.DeleteItem` | backend/cotizador/cotizacion/models.py:176-181 | the item row is removed and its quotation's amounts become calcular_totales over the remaining items, others unchanged; an unknown key changes nothing |
| `QuotationStore.Store.DeleteQuotation` | backend/cotizador/cotizacion/models.py:139-141 | the quotation and, by the cascade, all its items are removed; the constraints hold |
| `QuotationStore.Store.DeleteAll` | backend/cotizador/crear_datos_iniciales.py:23-24 | after deleting everything the next number assigned is 1 |
| `QuotationStore.Store.Listing` | backend/cotizador/cotizacion/models.py:107 | the quotations in descending numero order, the same rows as the table |
| `QuotationStore.Store.ItemsInOrder` | backend/cotizador/cotizacion/models.py:162 | a quotation's items in ascending item_numero order, the same rows as ItemsOf |
| `Seqs.FilterMembers` | frontend/react/src/pages/CrearCotizacion.jsx:79 | Array.filter keeps exactly the elements that pass |
| `Seqs.FilterConcat` | frontend/react/src/pages/CrearCotizacion.jsx:79 | filtering distributes over concatenation, so the kept elements keep their order |
| `Seqs.FilterDropsOne` | frontend/react/src/pages/ListadoCotizaciones.jsx:70 | when exactly one element fails, the filter is the list without it |
| `Seqs.FilterPairwise` | frontend/react/src/pages/CrearCotizacion.jsx:79 | a pairwise property (distinct ids, distinct keys) survives filtering |
| `Seqs.SortBy` | backend/cotizador/cotizacion/models.py:107 | an ORDER BY: sorted by the key and a permutation of the rows |
| `Text.OrEmpty` | frontend/react/src/pages/CrearCotizacion.jsx:119-123 | `o \|\| ""` is the value when it is truthy and "" otherwise |
| `Text.LowerIdempotent` | frontend/react/src/pages/CrearCotizacion.jsx:106-108 | toLowerCase applied twice is toLowerCase once |
| `Text.IncludesAt` | frontend/react/src/pages/CrearCotizacion.jsx:106-108 | includes holds exactly when the query starts at some position |
| `Text.TrimEmptyIff` | frontend/react/src/pages/Home.jsx:22 | `s.trim()` is empty exactly when every character of s is white space |
| `Text.JoinSnoc` | frontend/react/src/pages/Home.jsx:51 | joining one more part appends the separator and the part |
| `Text.SplitJoin` | frontend/react/src/pages/Home.jsx:51 | splitting a join gives back the parts when none holds the separator |
| `Text.Digits` | backend/cotizador/cotizacion/pdf_generator.py:92-94 | `str(n)`: decimal digits, no leading zero |
| `Text.ValueOfDigits` | backend/cotizador/cotizacion/pdf_generator.py:92-94 | reading back `str(n)` gives n |
| `QuoteView.ForView` | frontend/react/src/pages/ListadoCotizaciones.jsx:85-94 | the remap keeps the record and nests a cliente that agrees with its four cliente_* fields |
| `QuoteView.ForViewUnique` | frontend/react/src/pages/CrearCotizacion.jsx:156-165 | the remap is the only view that keeps the record and agrees with it |
| `QuoteForm.Apply` | frontend/react/src/pages/CrearCotizacion.jsx:65 | `{...item, [field]: value}` keeps the id |
| `QuoteForm.FormTotals` | frontend/react/src/pages/CrearCotizacion.jsx:82-90 | subtotal is the reduce of cantidad × precioUnitario, impuestos and total follow the 19 % rule, and an empty list gives zeros |
| `QuoteForm.SubtotalConcat` | frontend/react/src/pages/CrearCotizacion.jsx:83-86 | the reduce is additive over concatenation |
| `QuoteForm.SubtotalUpdate` | frontend/react/src/pages/CrearCotizacion.jsx:83-86 | replacing one row moves the subtotal by the difference of the two lines |
| `QuoteForm.ChangeItem` | frontend/react/src/pages/CrearCotizacion.jsx:63-67 | the map keeps length and every id |
| `QuoteForm.ChangeItemEffect` | frontend/react/src/pages/CrearCotizacion.jsx:63-67 | with distinct ids an edit changes exactly the row with that id, ids stay distinct, and the subtotal moves by that row's change; an unknown id changes nothing |
| `QuoteForm.MaxId` | frontend/react/src/pages/CrearCotizacion.jsx:71 | `Math.max(...ids)` bounds every id and is one of them |
| `QuoteForm.NewId` | frontend/react/src/pages/CrearCotizacion.jsx:70-71 | the new id exceeds every id, and is 1 for an empty list |
| `QuoteForm.AddItem` | frontend/react/src/pages/CrearCotizacion.jsx:72-75 | exactly one blank row {cantidad 1, "", 0} with the new id is appended and the others are unchanged |
| `QuoteForm.AddItemEffect` | frontend/react/src/pages/CrearCotizacion.jsx:69-76 | adding keeps ids distinct and leaves the totals unchanged |
| `QuoteForm.RemoveItem` | frontend/react/src/pages/CrearCotizacion.jsx:78-80 | no remaining row has the removed id |
| `QuoteForm.RemoveItemEffect` | frontend/react/src/pages/CrearCotizacion.jsx:78-80 | with distinct ids, removing drops exactly that row, keeps the order and lowers the subtotal by its line; an unknown id changes nothing |
| `QuoteForm.RemoveOfferedKeepsOne` | frontend/react/src/pages/CrearCotizacion.jsx:319-329 | the delete button, shown only for more than one row, never empties the list |
| `QuoteForm.SearchClients` | frontend/react/src/pages/CrearCotizacion.jsx:103-109 | a client is in the results exactly when its empresa or nombre contains the query, case-insensitively |
| `QuoteForm.SearchIgnoresCase` | frontend/react/src/pages/CrearCotizacion.jsx:106-108 | lower-casing the query does not change the results |
| `QuoteForm.SearchFindsEmpresa` | frontend/react/src/pages/CrearCotizacion.jsx:105-106 | any piece of a client's empresa finds that client |
| `QuoteForm.DedupFrom` | frontend/react/src/pages/CrearCotizacion.jsx:52-54 | the kept records are the unseen ones of the input, each once |
| `QuoteForm.Dedup` | frontend/react/src/pages/CrearCotizacion.jsx:52-54 | the result has no repeated record and holds exactly the records of the input |
| `QuoteForm.DedupAppend` | frontend/react/src/pages/CrearCotizacion.jsx:52-54 | first occurrences are kept in order: a later record is kept exactly when it is new |
| `QuoteForm.DedupDistinct` | frontend/react/src/pages/CrearCotizacion.jsx:52-54 | a list without repeats comes back unchanged |
| `QuoteForm.PayloadItems` | frontend/react/src/pages/CrearCotizacion.jsx:145-149 | one payload item per form row, in order, with cantidad, caracteristica and valor_unitario |
| `QuoteForm.PayloadTotalsMatchItems` | frontend/react/src/pages/CrearCotizacion.jsx:142-149 | the totals sent are those of the items sent |
| `QuoteForm.QuoteFormPage.constructor` | frontend/react/src/pages/CrearCotizacion.jsx:7-30 | the initial state: empty fields, one blank item with id 1, no results |
| `QuoteForm.QuoteFormPage.CurrentTotals` | frontend/react/src/pages/CrearCotizacion.jsx:82-90 | the totals panel shows FormTotals of the current items |
| `QuoteForm.QuoteFormPage.ResetFormulario` | frontend/react/src/pages/CrearCotizacion.jsx:33-44 | every quotation field except clienteNombre is cleared, one blank item with id 1 and the default delivery time are restored, the search state is kept, and the form is shown again |
| `QuoteForm.QuoteFormPage.LoadClientes` | frontend/react/src/pages/CrearCotizacion.jsx:47-61 | the client list becomes the de-duplicated response, or stays on error |
| `QuoteForm.QuoteFormPage.HandleItemChange` | frontend/react/src/pages/CrearCotizacion.jsx:63-67 | the items become ChangeItem of the old items; ids stay distinct |
| `QuoteForm.QuoteFormPage.HandleAddItem` | frontend/react/src/pages/CrearCotizacion.jsx:69-76 | the items become AddItem of the old items; ids stay distinct and the totals do not change |
| `QuoteForm.QuoteFormPage.HandleRemoveItem` | frontend/react/src/pages/CrearCotizacion.jsx:78-80 | the items become RemoveItem of the old items; ids stay distinct |
| `QuoteForm.QuoteFormPage.HandleBusquedaChange` | frontend/react/src/pages/CrearCotizacion.jsx:99-116 | a query longer than one character shows the search results; a shorter one clears and hides them |
| `QuoteForm.QuoteFormPage.HandleSelectCliente` | frontend/react/src/pages/CrearCotizacion.jsx:118-126 | the five client fields take the client's values or "", the results are hidden and the search box cleared |
| `QuoteForm.QuoteFormPage.CurrentPayload` | frontend/react/src/pages/CrearCotizacion.jsx:131-150 | the contact travels as cliente_nombre and the notes as observaciones, with the current totals and one entry per item |
| `QuoteForm.QuoteFormPage.SubmitFinished` | frontend/react/src/pages/CrearCotizacion.jsx:152-178 | a created quotation, remapped, replaces the form with the A4 view; an error leaves the state |
| `FormBackend.SumMatchesSubtotal` | backend/cotizador/cotizacion/models.py:129 | the backend's sum of item totals equals the form's reduce over the same lines |
| `FormBackend.FormMatchesBackend` | frontend/react/src/pages/CrearCotizacion.jsx:82-90 | for the same items, the form's subtotal, IVA and total are calcular_totales's |
| `HomeForm.SetClientFieldEffect` | frontend/react/src/pages/Home.jsx:17-19 | the field named by the input takes the value and the other three keep theirs |
| `HomeForm.AcceptsIsGuard` | frontend/react/src/pages/Home.jsx:22 | the validation is `detalle.trim() !== '' && cantidad > 0 && precioUnitario >= 0` |
| `HomeForm.Appended` | frontend/react/src/pages/Home.jsx:24 | exactly one item is appended after the unchanged ones |
| `HomeForm.AppendedWellFormed` | frontend/react/src/pages/Home.jsx:21-24 | an accepted item keeps ids 1..n, validity and line totals |
| `HomeForm.WellFormedIds` | frontend/react/src/pages/Home.jsx:21-24 | ids of a list built by appends increase strictly |
| `HomeForm.SubtotalOfWellFormed` | frontend/react/src/pages/Home.jsx:37 | the reduce over precioTotal is Σ cantidad × precio and never negative |
| `HomeForm.AppendedSubtotal` | frontend/react/src/pages/Home.jsx:23-37 | adding an item raises the subtotal by its cantidad × precio |
| `HomeForm.ItemLines` | frontend/react/src/pages/Home.jsx:51 | one text line per item, in order |
| `HomeForm.BuildPayload` | frontend/react/src/pages/Home.jsx:34-57 | a payload exists exactly when all four client fields and an item are present; it carries the 19 % totals of the items, the first item's detalle, the client fields, empresa 1, activa and the fixed delivery time |
| `HomeForm.ObservacionesLines` | frontend/react/src/pages/Home.jsx:51 | splitting observaciones at the line breaks gives back each item's line |
| `HomeForm.PayloadTotals` | frontend/react/src/pages/Home.jsx:37-39 | a payload from appended items carries non-negative totals under the 19 % rule |
| `HomeForm.HomePage.constructor` | frontend/react/src/pages/Home.jsx:6-15 | the initial state: empty client fields and items, inputs "", 1 and 0 |
| `HomeForm.HomePage.HandleClienteChange` | frontend/react/src/pages/Home.jsx:17-19 | the client fields become SetClientField of the old ones |
| `HomeForm.HomePage.HandleAddItem` | frontend/react/src/pages/Home.jsx:21-29 | an accepted entry is appended and the inputs reset to "", 1, 0; a rejected one changes nothing; the list stays well formed |
| `HomeForm.HomePage.Submit` | frontend/react/src/pages/Home.jsx:32-57 | what handleSubmit posts is BuildPayload of the state |
| `Paging.SliceIndex` | frontend/react/src/pages/ListadoCotizaciones.jsx:58 | slice's index rule lands in 0..n and leaves an in-range index as it is |
| `Paging.TotalPagesIsCeiling` | frontend/react/src/pages/ListadoCotizaciones.jsx:59 | `Math.ceil(n / 10)` is the fewest pages of ten that hold n rows, and 0 only for no rows |
| `Paging.PageSize` | frontend/react/src/pages/ListadoCotizaciones.jsx:56-58 | a page never shows more than ten rows |
| `Paging.PageRows` | frontend/react/src/pages/ListadoCotizaciones.jsx:56-58 | row j of page p is row (p - 1) × 10 + j of the list |
| `Paging.RowOnPage` | frontend/react/src/pages/ListadoClientes.jsx:30-33 | every row appears on a page in 1..totalPages, at position i % 10 of page i / 10 + 1 |
| `Paging.PagesInRange` | frontend/react/src/pages/ListadoCotizaciones.jsx:56-59 | pages 1..totalPages are non-empty and a page past the last is empty |
| `Paging.PagesPrefix` | frontend/react/src/pages/ListadoClientes.jsx:30-33 | pages 1..k read in order are the first 10k rows |
| `Paging.PagesCoverList` | frontend/react/src/pages/ListadoCotizaciones.jsx:56-59 | pages 1..totalPages read in order give back the whole list |
| `Paging.PageButtons` | frontend/react/src/pages/ListadoCotizaciones.jsx:157-170 | buttons 1..totalPages appear only when there is more than one page |
| `Paging.SelectScreen` | frontend/react/src/pages/ListadoClientes.jsx:44-48 | exactly one of the loading text, the error text and the table is shown, loading before error |
| `QuoteList.WithoutQuote` | frontend/react/src/pages/ListadoCotizaciones.jsx:70 | the filter keeps exactly the quotations with another id |
| `QuoteList.WithoutQuoteDropsOne` | frontend/react/src/pages/ListadoCotizaciones.jsx:70 | deleting the quotation at position k gives the list without that row, in order |
| `QuoteList.ClientCell` | frontend/react/src/pages/ListadoCotizaciones.jsx:134 | `cliente_empresa \|\| cliente_nombre` |
| `QuoteList.DeletingLoneLastRow` | frontend/react/src/pages/ListadoCotizaciones.jsx:56-70 | deleting the only row of the last page leaves the current page past the end and empty |
| `QuoteList.QuoteListPage.constructor` | frontend/react/src/pages/ListadoCotizaciones.jsx:15-21 | the initial state: loading, page 1, modal closed |
| `QuoteList.QuoteListPage.CurrentRows` | frontend/react/src/pages/ListadoCotizaciones.jsx:58 | at most ten rows on screen |
| `QuoteList.QuoteListPage.Screen` | frontend/react/src/pages/ListadoCotizaciones.jsx:107-108 | the table shows only when nothing is loading and there is no error |
| `QuoteList.QuoteListPage.ModalContent` | frontend/react/src/pages/ListadoCotizaciones.jsx:174-193 | the modal is hidden, loading, or shows the selected quotation, by modalVisible, loadingModal and the selection |
| `QuoteList.QuoteListPage.FetchFinished` | frontend/react/src/pages/ListadoCotizaciones.jsx:24-34 | the list or the error is set and loading ends |
| `QuoteList.QuoteListPage.Paginate` | frontend/react/src/pages/ListadoCotizaciones.jsx:61 | the page becomes the given number, unclamped, and nothing else changes |
| `QuoteList.QuoteListPage.HandleEliminar` | frontend/react/src/pages/ListadoCotizaciones.jsx:63-75 | a confirmed, successful delete removes the quotations with that id; otherwise the list is unchanged |
| `QuoteList.QuoteListPage.BeginVerPdf` | frontend/react/src/pages/ListadoCotizaciones.jsx:78-80 | the modal opens on the loading text with nothing selected |
| `QuoteList.QuoteListPage.EndVerPdf` | frontend/react/src/pages/ListadoCotizaciones.jsx:82-102 | success selects the remapped quotation; failure closes the modal; loading ends either way |
| `QuoteList.QuoteListPage.OpenFromNavigation` | frontend/react/src/pages/ListadoCotizaciones.jsx:39-42 | a truthy new-quotation id in the navigation state opens its modal |
| `QuoteList.QuoteListPage.CloseModal` | frontend/react/src/pages/ListadoCotizaciones.jsx:105 | the modal is hidden |
| `ClientList.EmpresaCell` | frontend/react/src/pages/ListadoClientes.jsx:65 | an empty or missing empresa shows as "N/A" |
| `ClientList.ClientListPage.constructor` | frontend/react/src/pages/ListadoClientes.jsx:6-9 | the initial state: loading, page 1 |
| `ClientList.ClientListPage.CurrentRows` | frontend/react/src/pages/ListadoClientes.jsx:32 | at most ten rows on screen |
| `ClientList.ClientListPage.Screen` | frontend/react/src/pages/ListadoClientes.jsx:44-48 | the table shows only when nothing is loading and there is no error |
| `ClientList.ClientListPage.FetchFinished` | frontend/react/src/pages/ListadoClientes.jsx:13-24 | the list or the error is set and loading ends |
| `ClientList.ClientListPage.Paginate` | frontend/react/src/pages/ListadoClientes.jsx:35 | the page becomes the given number and nothing else changes |
| `PdfReport.Pad3` | backend/cotizador/cotizacion/pdf_generator.py:95 | a later digit group has exactly three digits |
| `PdfReport.GroupedReplace` | backend/cotizador/cotizacion/pdf_generator.py:95 | replacing the "," separator by "." gives the number grouped by "." |
| `PdfReport.FormatMoneyIsDotGrouped` | backend/cotizador/cotizacion/pdf_generator.py:95-96 | a rendered amount is "$" and the digits grouped by "." |
| `PdfReport.FormatBoldMoneyIsBold` | backend/cotizador/cotizacion/pdf_generator.py:117 | the TOTAL cell is the same rendering inside bold tags |
| `PdfReport.GroupedIsJoin` | backend/cotizador/cotizacion/pdf_generator.py:95 | the grouped number is its digit groups joined by the separator |
| `PdfReport.GroupsShape` | backend/cotizador/cotizacion/pdf_generator.py:95 | the first group has 1-3 digits and every later group 3; there is one group exactly below 1000 |
| `PdfReport.MoneyShape` | backend/cotizador/cotizacion/pdf_generator.py:114-117 | a rendered amount is "$" and its groups joined by ".", has no ",", and has a "." exactly from 1000 on |
| `PdfReport.GroupedChars` | backend/cotizador/cotizacion/pdf_generator.py:95 | a grouped number holds only digits and the separator |
| `PdfReport.DigitsSplit` | backend/cotizador/cotizacion/pdf_generator.py:95 | from 1000 on, the digits are those of the thousands followed by the last three |
| `PdfReport.StripGroupSeparators` | backend/cotizador/cotizacion/pdf_generator.py:95 | removing the "." separators leaves the plain digits |
| `PdfReport.MoneyDigits` | backend/cotizador/cotizacion/pdf_generator.py:95 | removing "$" and every "." gives the decimal digits of the amount, which read back as the amount |
| `PdfReport.MoneyInjective` | backend/cotizador/cotizacion/pdf_generator.py:95 | different amounts render differently |
| `PdfReport.ItemsHeader` | backend/cotizador/cotizacion/pdf_generator.py:82-88 | the header row has five cells |
| `PdfReport.ItemRow` | backend/cotizador/cotizacion/pdf_generator.py:91-97 | an item row has five cells |
| `PdfReport.BuildItemRows` | backend/cotizador/cotizacion/pdf_generator.py:82-97 | the header, then exactly one five-cell row per item in item order |
| `PdfReport.TotalsRows` | backend/cotizador/cotizacion/pdf_generator.py:114-118 | three rows carrying the rendered subtotal, IVA and, in bold, total |
| `PdfReport.ClosingBlocks` | backend/cotizador/cotizacion/pdf_generator.py:130-137 | the Observaciones section appears exactly when there are observations, and the delivery-time section always closes the story |
| `PdfReport.FilenameNumber` | backend/cotizador/cotizacion/pdf_generator.py:17 | the file name is "cotizacion_", the number's digits and ".pdf", and the number reads back from it |
| `PdfReport.FilenameInjective` | backend/cotizador/cotizacion/pdf_generator.py:17 | different quotation numbers download under different names |
| `BrowserStorage.GetItem` | frontend/react/src/context/AuthContext.jsx:16 | getItem returns the stored value, or null for a missing key |
| `BrowserStorage.StoreTokensEffect` | frontend/react/src/context/AuthContext.jsx:24-25 | after the two setItem calls the keys hold the tokens and every other key is unchanged |
| `BrowserStorage.ClearTokensEffect` | frontend/react/src/context/AuthContext.jsx:32-33 | after the two removeItem calls neither key is present and every other key is unchanged |
| `BrowserStorage.ClearUndoesStore` | frontend/react/src/hooks/useAuth.js:8-18 | a logout erases every trace of the login before it |
| `AuthContext.Mount` | frontend/react/src/context/AuthContext.jsx:15-20 | a truthy stored access token becomes the token; otherwise the token stays |
| `AuthContext.LoginEffect` | frontend/react/src/context/AuthContext.jsx:23-40 | after login, isLoggedIn holds exactly for a non-empty access token, both tokens are stored, and the route is "/" |
| `AuthContext.LogoutEffect` | frontend/react/src/context/AuthContext.jsx:31-40 | after logout, isLoggedIn is false, both keys are gone, and the route is "/login" |
| `AuthContext.ReloadAfterLogin` | frontend/react/src/context/AuthContext.jsx:15-28 | a provider mounted afresh over a login's storage is logged in exactly when the login was, with the same token |
| `AuthContext.ReloadAfterLogout` | frontend/react/src/context/AuthContext.jsx:15-36 | after a logout a reload does not log back in |
| `AuthContext.UseAuth` | frontend/react/src/context/AuthContext.jsx:50-56 | useAuth returns the provider's value, or fails with the message outside a provider |
| `AuthContext.AuthProvider.constructor` | frontend/react/src/context/AuthContext.jsx:11 | the token starts as null |
| `AuthContext.AuthProvider.RestoreOnMount` | frontend/react/src/context/AuthContext.jsx:15-20 | the state becomes Mount of the old state |
| `AuthContext.AuthProvider.DoLogin` | frontend/react/src/context/AuthContext.jsx:23-28 | the state becomes Login of the old state; logged in exactly for a non-empty token |
| `AuthContext.AuthProvider.DoLogout` | frontend/react/src/context/AuthContext.jsx:31-36 | the state becomes Logout of the old state; logged out |
| `UseAuthHook.Init` | frontend/react/src/hooks/useAuth.js:6 | the token starts as the stored access token, or null |
| `UseAuthHook.LoginEffect` | frontend/react/src/hooks/useAuth.js:8-23 | a login authenticates exactly for a non-empty token and stores both tokens |
| `UseAuthHook.LoginThenLogout` | frontend/react/src/hooks/useAuth.js:8-23 | login then logout always ends unauthenticated with the storage a logout alone leaves |
| `UseAuthHook.AgreesWithProvider` | frontend/react/src/hooks/useAuth.js:6-23 | the hook starts authenticated exactly when the provider is logged in after its mount |
| `UseAuthHook.AuthHook.constructor` | frontend/react/src/hooks/useAuth.js:6 | the state is Init of the storage |
| `UseAuthHook.AuthHook.DoLogin` | frontend/react/src/hooks/useAuth.js:8-12 | the state becomes Login of the old state |
| `UseAuthHook.AuthHook.DoLogout` | frontend/react/src/hooks/useAuth.js:14-18 | the state becomes Logout of the old state; unauthenticated |
| `UseAuthHook.AuthHook.IsAuthenticatedNow` | frontend/react/src/hooks/useAuth.js:20-23 | `!!token`: a token is present and not empty |

## Left out

- Network, async and the DOM are left out. `fetch`, awaits, `window.confirm`, `alert` and `console` are not modelled. Each handler is one atomic transition, and the outcome of its request is a `Result` parameter (or a `confirmed` flag).
- React scheduling is left out. `useEffect` timing, batching of setters and stale closures are not modelled.
- The `location`/`navigate` cleanup after opening a new quotation's modal is left out; it only clears the router state.
- The input `onChange` handlers that copy one field into state are left out.
- The two-decimal rounding of the `DecimalField(max_digits=12, decimal_places=2)` amount columns (models.py lines 82-99 and 150-158) and their `max_digits=12` limit are not modelled. Stored amounts are the exact in-memory `Decimal` values: the model keeps an iva of 1.9019 where the database would store 1.90, and it does not reject amounts with more than ten integer digits.
- Floating point is left out. The front end's `0.19` multiplications and sums are IEEE doubles. They are modelled on exact reals, so rounding differences are not captured.
- `Number()` of a non-numeric input (NaN) is not modelled.
- `query.length` counts UTF-16 code units; the model counts characters.
- toLowerCase is modelled for ASCII and Latin-1 letters only.
- JSON-level details of the de-duplication are left out. Key order and the null/undefined distinction are not modelled: equal records are equal datatype values.
- `.0f` rounding of cents in the PDF is left out. PDF amounts are whole non-negative pesos; negative amounts are not modelled.
- Number rendering in Home.jsx (`${n}` and `toLocaleString()`) is locale-dependent. It is a parameter (`NumberFormat`).
- The `formatCurrency` helpers of the listing and form pages are locale library calls and are not modelled.
- Dates are not modelled (`fecha`, `creada_en`, `toLocaleDateString`).
- `Empresa`, the logo, the reportlab layout (styles, colours, column widths, footer canvas), Spacer sizes and the `HttpResponse` are not modelled. Only the text of the cells and sections is.
- The first, shadowed definitions at the top of models.py (lines 3-40) are not modelled; the later ones replace them.
- views.py, serializers.py, the url configurations, admin.py and api.js are not part of this model. They are REST plumbing, and several of their field names do not match models.py (`Cliente`, `descripcion`, `precio_unitario`). The `cliente_*` fields the client search reads are therefore taken as the records' fields.
- CotizacionA4.jsx, Login.jsx, App.jsx and the layout components are presentation and routing and are not part of this model.
- `QuotationStore.PassesValidators`: the MinValueValidators are a predicate, not checks inside save. Django runs them only in `full_clean`. The non-negativity results are stated under that predicate.
- Database ordering (`ordering = [...]`) is modelled as a sort applied to the table, not as query behaviour.
- Concurrency of the database (two saves racing for the same automatic number) is not modelled.
- `QuotationStore.Store.DeleteAll`: the bulk queryset delete of the reset script is modelled as emptying both tables. A bulk delete does not call `ItemCotizacion.delete`, so no totals are recomputed, and the model recomputes none either.
