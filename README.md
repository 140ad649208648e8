# Water-well bookkeeping: a Dafny model

A small Next.js app for a water-well business records its clients and sales. Each client is a vehicle with a plate, a tank capacity and payment terms: *corriente* pays at the pump, *crédito* pays later. Each sale is one fill by one worker. The app also keeps its workers.

This project models the app's bookkeeping core in Dafny and proves what that core promises:

- **Storage.** The record store keeps three collections and the current worker's id in the browser's local storage. It saves by id as an upsert and deletes by filtering. It answers per-client gallon totals and "sales of a day".
- **AppContext.** The application context holds in-memory mirrors of the store. Every mutator writes to the store first and changes the mirror only when that write succeeds. The context also offers the client search, the day summary and the client-with-gallons lookup.
- **Reportes.** The reports page provides:
  - the overall totals;
  - the date/worker filter;
  - the per-client and per-worker rollups, sorted;
  - the seven-day series;
  - the exported CSV text.
- **VentasPage.** The sales page runs the ordered validation of a new sale and applies the credit-client rule. It also covers the prefilled form, the edit record and the list of today's sales.
- **ClientesPage.** The clients page runs the ordered validation, including a case-insensitive duplicate-plate check for new clients. It also covers name and plate normalisation, the edit merge, the dialog form and the capacity figures.
- **ClienteSearcher.** The client picker is a state machine over the search term, the result list, the dropdown and the highlighted row. The arrow keys wrap around.
- **Dashboard.** The dashboard shows the last five sales of today, newest first, and a guarded average.

The model is built from the following modules:

- `Wrappers`: `Option` and `Result`.
- `Text`: JavaScript's `trim`, `toLowerCase`/`toUpperCase`, `includes`, `split` and `join`, on Dafny strings.
- `Records`: `filter`, `map`, `reduce`, `findIndex`, `find`, `reverse`, `slice(-n)` and a stable descending sort, on sequences.
- `Types`: the records of `src/lib/types.ts`.
- `Totals`: the sums over sales.
- One module per source file: `Storage`, `AppContext`, `Reportes`, `VentasPage`, `ClientesPage`, `ClienteSearcher` and `Dashboard`.

These parts follow the source's form:

- **Classes whose methods change fields with `modifies` frames.** These are the store, the context provider, the two page components and the searcher.
- **Functions with lemmas.** These are the pure queries and rules.

Amounts are exact `real`s. A form's number field is `Option<real>`, where `None` is the empty text. Some values come in as parameters:

- timestamps, fresh ids and "today";
- the parse of a timestamp into an instant (`instante`);
- the ISO day key of a past day (`claveDia`);
- the end-of-day bound;
- the user's answer to a confirm dialog;
- whether the browser's storage accepts writes (`Store.escribible`).

A write to a non-writable store reports `false` and stores nothing.

The searcher's state is the state after the search effect has run. A change of term re-runs the effect within the same method.

## Model

| member | source | states |
|---|---|---|
| Storage.Store.constructor | src/lib/storage.ts:14-23 | An empty store (no client, sale, worker or current worker) with the given writability. |
| Storage.Store.SaveCliente | src/lib/storage.ts:25-43 | Returns whether the write succeeded. On success the list becomes the upsert of the client: replace the first slot with its id, otherwise append. On failure the list is unchanged. |
| Storage.Store.DeleteCliente | src/lib/storage.ts:45-56 | Reports success whenever storage is writable, even for an absent id. On success the list is the list without that id. On failure nothing changes. |
| Storage.Store.SaveVenta | src/lib/storage.ts:70-88 | As SaveCliente, for sales. |
| Storage.Store.DeleteVenta | src/lib/storage.ts:90-101 | As DeleteCliente, for sales. |
| Storage.Store.SaveTrabajador | src/lib/storage.ts:115-133 | As SaveCliente, for workers. |
| Storage.Store.GetTrabajadorActual | src/lib/storage.ts:135-143 | No contract of its own: it returns the stored id, `None` when none was stored. The read-back after a write is stated on `Storage.Store.SetTrabajadorActual`. |
| Storage.Store.SetTrabajadorActual | src/lib/storage.ts:136-155 | After a successful write, reading the current worker's id back gives the id just stored. A failed write leaves the stored id as it was. |
| Records.Upsert | src/lib/storage.ts:29-35 | An existing id keeps the length. A new id appends the record at the end. Afterwards the first record with that id is the saved one, and every other slot keeps its record. |
| Records.UpsertKeepsUnique | src/lib/storage.ts:25-43 | Saving keeps the collection's ids unique. |
| Records.UpsertSameIds | src/lib/storage.ts:29-35 | After a save, the ids present are the old ids plus the saved record's id. |
| Records.FirstIndex | src/lib/storage.ts:29 | `findIndex`: the first position holding the id, or -1 exactly when no position holds it. |
| Records.FirstIndexIs | src/lib/storage.ts:29 | A position holding the id with no earlier one is what `findIndex` returns. |
| Records.Find | src/context/AppContext.tsx:88 | `find`: nothing exactly when no record has the id; otherwise the record at the first position holding the id. |
| Records.RemoveId | src/lib/storage.ts:49 | No record with the id remains. For an absent id the list comes back unchanged. |
| Records.RemoveIdKeepsOthers | src/lib/storage.ts:45-56 | The result is an order-preserving subsequence holding exactly the records with another id. Unique ids stay unique. |
| Records.Filter | src/lib/storage.ts:172-175 | `filter`: no longer than the input, and every kept element passes. |
| Records.FilterSubseq | src/lib/storage.ts:172-175 | A filter keeps its elements in their original order. |
| Records.FilterCount | src/lib/storage.ts:172-175 | A filter keeps each passing element as often as it occurs and drops every failing one. |
| Records.FilterMembers | src/lib/storage.ts:158-161 | An element is in the filtered list iff it is in the list and passes. |
| Records.FilterAll | src/app/reportes/page.tsx:46-69 | Filtering by a condition every element meets changes nothing. |
| Records.FilterThenFilter | src/app/reportes/page.tsx:50-66 | Two successive filters equal one filter by their conjunction. |
| Records.FilterAppend | src/lib/storage.ts:172-175 | Filtering distributes over concatenation. |
| Records.FilterSnoc | src/app/reportes/page.tsx:74 | One more element at the end is kept iff it passes, after the filter of the rest. |
| Records.FilterPartition | src/context/AppContext.tsx:269-285 | The passing and the failing elements together account for the whole list. |
| Records.FilterNonEmpty | src/app/reportes/page.tsx:94 | A filter is non-empty iff some element passes. |
| Records.Map | src/app/reportes/page.tsx:72-97 | `map`: same length, and each position holds the image of the input's element. |
| Records.MapMembers | src/app/reportes/page.tsx:72-97 | The mapped list holds exactly the images of the input's elements. |
| Records.SumAppend | src/lib/storage.ts:163-166 | A `reduce` sum over a concatenation is the sum of the two sums. |
| Records.SumPartition | src/context/AppContext.tsx:269-285 | A sum splits into the sum over the passing elements plus the sum over the failing ones. |
| Records.SumNonNegative | src/app/clientes/page.tsx:304 | A sum of non-negative terms is non-negative. |
| Records.SumPositive | src/app/clientes/page.tsx:304 | A sum of positive terms over a non-empty list is positive. |
| Records.SubseqKeepsUnique | src/lib/storage.ts:45-56 | A subsequence of a list with unique ids has unique ids, and its elements come from the list. |
| Records.ReplaceAll | src/context/AppContext.tsx:144 | The mirror's map-update: same length, and each record with the saved id is replaced by it while the others are kept. |
| Records.ReplaceAllIsUpsert | src/context/AppContext.tsx:140-151 | When the id is present once, the mirror's map-update and the store's save give the same list. |
| Records.AppendIsUpsert | src/context/AppContext.tsx:129-133 | For an absent id, the mirror's append and the store's save give the same list. |
| Records.Reverse | src/app/ventas/page.tsx:408 | `reverse`: position i holds the input's position n-1-i. |
| Records.ReverseMembers | src/app/ventas/page.tsx:408 | Reversing keeps exactly the same elements. |
| Records.LastN | src/app/page.tsx:21 | `slice(-n)` for n > 0: the last min(n, length) elements. |
| Records.Insert | src/app/reportes/page.tsx:96 | Inserting into a descending list keeps it descending, and adds exactly that element. |
| Records.SortDesc | src/app/reportes/page.tsx:96 | `sort` by a decreasing key: descending, with the same multiset of elements. |
| Records.SortDescMembers | src/app/reportes/page.tsx:96 | Sorting keeps exactly the same elements. |
| Storage.GetVentasPorCliente | src/lib/storage.ts:158-161 | Exactly the client's sales: every result belongs to the client, and a sale is in the result iff it is stored and the client's. |
| Storage.GetTotalGalonesPorCliente | src/lib/storage.ts:163-166 | The client's lifetime gallons equal `GalonesDe`, the independent count where each stored sale adds its gallons iff it is the client's. The total is 0 when the client has no sale. |
| Storage.TotalGalonesIsSum | src/lib/storage.ts:163-166 | The `reduce` sum over the client's filtered sales equals the sale-by-sale count `GalonesDe`, which is 0 when the client has no sale. |
| Storage.TotalGalonesAfterSale | src/lib/storage.ts:163-166 | A new sale adds its gallons to its own client's total and nothing to any other client's. |
| Storage.DiaBuscado | src/lib/storage.ts:170 | The target day is the given day when it is present and non-empty, and today when it is missing or empty. |
| Storage.GetVentasDelDia | src/lib/storage.ts:168-176 | Every returned sale's date part (the text before 'T') is the target day. |
| Storage.DaySalesExact | src/lib/storage.ts:168-176 | The day's sales are an order-preserving subsequence of the store. A sale is in them iff it is stored and dated that day, and each is kept as often as it is stored. |
| Text.Before | src/lib/storage.ts:173 | `split(sep)[0]`: a prefix without the separator, stopped only by the separator or the end. |
| Text.DatePart | src/lib/storage.ts:173 | The date part of a timestamp: the prefix before the first 'T', or the whole text when there is no 'T'. |
| Text.TrimStart | src/context/AppContext.tsx:167 | A suffix that starts with a non-space, after a white-space prefix; empty iff the text is all white space. |
| Text.TrimEnd | src/context/AppContext.tsx:167 | A prefix that ends with a non-space, before a white-space suffix; empty iff the text is all white space. |
| Text.TrimParts | src/context/AppContext.tsx:167 | Trimming the end after the start leaves a slice of the text with only white space around it. |
| Text.Trim | src/context/AppContext.tsx:167 | `trim()`: a slice surrounded by white space only, with non-space ends. It is empty iff the text is all white space, so `!termino.trim()` means "blank". |
| Text.TrimIdempotent | src/app/ventas/page.tsx:87 | Trimming twice is trimming once. |
| Text.Lower | src/context/AppContext.tsx:169 | `toLowerCase` on ASCII: same length, each capital becomes its own small letter (code point + 32), and every other character is kept. |
| Text.Upper | src/app/clientes/page.tsx:99 | `toUpperCase` on ASCII: same length, each small letter becomes its own capital (code point - 32), and every other character is kept. |
| Text.LowerUpper | src/app/clientes/page.tsx:85-103 | Lower-casing an upper-cased text equals lower-casing the text, so a saved upper-case plate still matches its input. |
| Text.LowerLower | src/context/AppContext.tsx:169-173 | Lower-casing is idempotent. |
| Text.Contains | src/context/AppContext.tsx:171-172 | `includes`: true iff the needle occurs at some position. |
| Text.Split | src/app/reportes/page.tsx:177-181 | Not called by the page: it is how the CSV built by these lines' `join` is read back, the partner that `Text.SplitJoin`, `Reportes.CsvLines` and `Reportes.CsvRowFields` use. It gives at least one piece, and no piece holds the separator. |
| Text.Join | src/app/reportes/page.tsx:177-181 | `join`: empty for no pieces, otherwise the text starts with the first piece. Its read-back is stated by `Text.SplitJoin`. |
| Text.SplitPiece | src/app/reportes/page.tsx:179-181 | A piece without the separator, then the separator, splits first into that piece. |
| Text.SplitJoin | src/app/reportes/page.tsx:179-181 | Splitting a `join` gives the pieces back when no piece holds the separator. |
| Text.JoinAvoids | src/app/reportes/page.tsx:179-181 | A character absent from the pieces and different from the separator is absent from the join. |
| Text.CountAppend | src/app/reportes/page.tsx:180 | Occurrence counts add over concatenation. |
| Text.CountPositive | src/app/reportes/page.tsx:180 | A character occurs iff its count is positive. |
| Text.SplitCount | src/app/reportes/page.tsx:180 | `split` gives one more piece than there are separators. |
| Text.JoinCount | src/app/reportes/page.tsx:180 | A join holds the pieces' separators plus one between each pair of pieces. |
| Text.CountAllAtLeast | src/app/reportes/page.tsx:180 | One piece's separators are among all the pieces' separators. |
| Totals.Pagadas | src/context/AppContext.tsx:274 | Only paid sales. |
| Totals.Pendientes | src/context/AppContext.tsx:275 | Only unpaid sales. |
| Totals.PaidAndPendingPartition | src/context/AppContext.tsx:269-285 | Paid count plus unpaid count is the number of sales, and paid amount plus unpaid amount is the amount billed. |
| Totals.NoPendingNoDebt | src/context/AppContext.tsx:269-285 | No unpaid sale means no unpaid amount. With positive prices, unpaid sales mean a positive unpaid amount. |
| Totals.AppendSale | src/context/AppContext.tsx:273-276 | Appending a sale adds its gallons and its price to the two sums. It joins the paid list, and adds its price to the paid amount, iff it is paid; otherwise it joins the pending list and amount. |
| Totals.RoundJs | src/app/page.tsx:273 | `Math.round`: the integer within half a unit of the value, with halves rounded up. |
| Totals.PromedioRedondeado | src/app/page.tsx:272-275 | The rounded average is 0 when the count is 0, otherwise within half a unit of total/count. |
| AppContext.BuscarClientes | src/context/AppContext.tsx:166-174 | A blank term returns the whole list. Otherwise every result's lower-cased name or plate contains the lower-cased term. |
| AppContext.SearchExact | src/context/AppContext.tsx:169-173 | For a non-blank term, the result is the order-preserving subsequence of exactly the matching clients, each kept as often as it occurs in the list. The term is not trimmed. |
| AppContext.LowerKeepsSpace | src/context/AppContext.tsx:167-169 | Lower-casing neither creates nor removes white space. |
| AppContext.SearchIgnoresCase | src/context/AppContext.tsx:166-174 | Two terms equal up to letter case find the same clients. |
| AppContext.Resumen | src/context/AppContext.tsx:269-285 | The day summary:<br>• the count is the number of the day's sales;<br>• unpaid plus paid count is the total;<br>• income plus unpaid amount is the amount billed;<br>• zero unpaid sales means zero unpaid amount. |
| AppContext.IncomeIsPaidOnly | src/context/AppContext.tsx:274-283 | A paid sale adds its price to income. The same sale unpaid adds nothing to income and its price to the unpaid amount. |
| AppContext.ResumenSnoc | src/context/AppContext.tsx:269-285 | The day summary of no sales is all zero. One more sale adds 1 to the count and its gallons to the gallon total. A paid sale adds its price to income; an unpaid one adds 1 to the pending count and its price to the pending amount. |
| AppContext.ClienteConGalones | src/context/AppContext.tsx:287-296 | Null (None) iff no client has the id. Otherwise it is the first client with that id, with only the gallon total replaced by the sum over that client's stored sales. |
| AppContext.TrabajadorInicial | src/context/AppContext.tsx:87-90 | With no stored id, the previous worker is kept. With a stored id, it is the first worker with that id, or null when none has it. |
| AppContext.UpdateOfAbsentIdDiverges | src/context/AppContext.tsx:140-151 | Updating an id the mirror lacks appends it in the store but leaves the mirror unchanged, so the two disagree. |
| AppContext.NuevoCliente | src/context/AppContext.tsx:123-127 | The new client carries the fresh id and registration time, no gallon total, and exactly the form's name, plate, capacity and type. |
| AppContext.NuevaVenta | src/context/AppContext.tsx:184-189 | The new sale carries the fresh id, the timestamp and the current worker's id, and exactly the form's client, gallons, price, paid flag and notes. |
| AppContext.NuevoTrabajador | src/context/AppContext.tsx:235-239 | The new worker carries the fresh id and registration time and the given name. |
| AppContext.AppProvider.constructor | src/context/AppContext.tsx:66-70 | Empty mirrors, no current worker, loading. |
| AppContext.AppProvider.CargarDatos | src/context/AppContext.tsx:73-99 | The mirrors equal the store, and the current worker is restored from the stored id. Loading is off. |
| AppContext.AppProvider.RefreshData | src/context/AppContext.tsx:298-302 | The mirrors equal the store again. |
| AppContext.AppProvider.AgregarCliente | src/context/AppContext.tsx:121-138 | Writes the new client first. The mirror gets it appended only if the write succeeded. The mirror stays equal to the store for a fresh id. |
| AppContext.AppProvider.ActualizarCliente | src/context/AppContext.tsx:140-151 | Writes first. Only on success the mirror's same-id entries are replaced. When the id is present once, the mirror stays equal to the store, with unique ids. |
| AppContext.AppProvider.EliminarCliente | src/context/AppContext.tsx:153-164 | Deletes in the store first. Only on success the id is filtered out of the mirror. They stay in sync. |
| AppContext.AppProvider.AgregarVenta | src/context/AppContext.tsx:177-200 | With no current worker, returns false and changes nothing. Otherwise it saves a sale stamped with the current worker's id and appends it to the mirror only on success. |
| AppContext.AppProvider.ActualizarVenta | src/context/AppContext.tsx:202-213 | As ActualizarCliente, for sales. |
| AppContext.AppProvider.EliminarVenta | src/context/AppContext.tsx:215-226 | As EliminarCliente, for sales. |
| AppContext.AppProvider.AgregarTrabajador | src/context/AppContext.tsx:233-250 | As AgregarCliente, for workers. |
| AppContext.AppProvider.SeleccionarTrabajador | src/context/AppContext.tsx:252-266 | An id missing from the mirror returns false and leaves the current worker, stored and in memory, unchanged. Otherwise the id is stored, and on success that worker becomes current. |
| Reportes.Promedio | src/app/reportes/page.tsx:32-33 | An average is 0 when the denominator is not positive, otherwise it times the denominator gives the numerator. |
| Reportes.EstadisticasGenerales | src/app/reportes/page.tsx:27-43 | Over all sales:<br>• income plus pending is the amount billed;<br>• no sales gives zero gallons and a zero average;<br>• the averages multiply back to their totals;<br>• zero gallons gives a zero price per gallon. |
| Reportes.GeneralesSnoc | src/app/reportes/page.tsx:27-43 | No sales give zero gallons, income and pending. One more sale adds 1 to the count and its gallons to the gallons. Its price goes to income when it is paid and to pending otherwise. |
| Reportes.VentasFiltradas | src/app/reportes/page.tsx:46-69 | The successive filters equal one filter by every active condition. With no filter set, the result is all sales. |
| Reportes.FiltradasExact | src/app/reportes/page.tsx:50-66 | The filtered sales are an order-preserving subsequence holding exactly the sales that meet the start bound, the end-of-day bound and the worker filter. |
| Reportes.MaxInstante | src/app/reportes/page.tsx:80-82 | The latest instant is at least every sale's instant and is some sale's instant. |
| Reportes.UltimaVisitaComoEscrita | src/app/reportes/page.tsx:80-91 | As written: a reported last visit is the maximum instant, and never 0. |
| Reportes.UltimaVisita | src/app/reportes/page.tsx:80-82 | A last visit exists iff there is a sale. It is at least every sale's instant and is one of them. |
| Reportes.EpochVisitLost | src/app/reportes/page.tsx:91 | One visit at instant 0: the code as written reports no last visit; the corrected rollup reports 0. |
| Reportes.UltimaVisitaAgrees | src/app/reportes/page.tsx:80-91 | Except at instant 0, as-written and corrected agree. |
| Reportes.EstadisticaCliente | src/app/reportes/page.tsx:72-92 | No contract of its own. It rolls up the client's filtered sales; `ClienteStatTotals`, `ClienteStatVisits` and `ClienteStatSnoc` state its properties. |
| Reportes.ClienteStatTotals | src/app/reportes/page.tsx:72-92 | Per client:<br>• the rollup is that client's;<br>• spent = paid + owed;<br>• no visits gives zero gallons, spending, paid, owed and average;<br>• otherwise average × visits = gallons. |
| Reportes.ClienteStatVisits | src/app/reportes/page.tsx:74-82 | A client has visits iff some filtered sale is theirs. It then has a last visit, no earlier than any such sale. |
| Reportes.ClienteStatSnoc | src/app/reportes/page.tsx:72-92 | Another client's sale leaves the rollup unchanged. The client's own sale adds one visit, its gallons, and its price to the spending. That price also goes to paid when the sale is paid and to owed otherwise. |
| Reportes.EstadisticasPorCliente | src/app/reportes/page.tsx:94-96 | Sorted by total gallons, descending, and no longer than the client list. |
| Reportes.PorClienteMembers | src/app/reportes/page.tsx:72-96 | Holds exactly the rollups, with at least one visit, of the listed clients. Each occurs as often as the client list yields it. |
| Reportes.PorClienteIncludes | src/app/reportes/page.tsx:72-96 | A client's rollup is listed iff some filtered sale is that client's. |
| Reportes.EstadisticaTrabajador | src/app/reportes/page.tsx:100-112 | No contract of its own. It rolls up the worker's filtered sales; `TrabajadorStatProps` and `TrabajadorStatSnoc` state its properties. |
| Reportes.TrabajadorStatProps | src/app/reportes/page.tsx:100-112 | Per worker:<br>• the sale count is positive iff some filtered sale is theirs;<br>• zero sales gives zero totals and a zero average;<br>• otherwise average × sales = gallons. |
| Reportes.TrabajadorStatSnoc | src/app/reportes/page.tsx:100-112 | Another worker's sale leaves the rollup unchanged. The worker's own sale adds one sale and its gallons. Its price goes to income only when it is paid. |
| Reportes.EstadisticasPorTrabajador | src/app/reportes/page.tsx:114-116 | Sorted by sale count, descending, and no longer than the worker list. |
| Reportes.PorTrabajadorMembers | src/app/reportes/page.tsx:100-116 | Holds exactly the rollups, with at least one sale, of the listed workers. Each occurs as often as the worker list yields it. |
| Reportes.Dia | src/app/reportes/page.tsx:124-144 | No contract of its own. It is one entry of the series; `DiaCuenta` and `DiaIsResumen` state its properties. |
| Reportes.DiaCuenta | src/app/reportes/page.tsx:124-144 | A day's entry carries that day. It counts a sale iff some stored sale falls on that day. An empty day has zero totals. |
| Reportes.DiaIsResumen | src/app/reportes/page.tsx:128-143 | A day's entry agrees with the day summary of that day: count, gallons and paid income. |
| Reportes.VentasPorDia | src/app/reportes/page.tsx:120-147 | Exactly 7 entries, oldest first. Entry k is the entry, over the unfiltered stored sales, of the day 6-k days before today. |
| Reportes.ONa | src/app/reportes/page.tsx:168-173 | The `'N/A'` default: a non-empty value is kept, and a missing or empty value becomes "N/A", so the result is never empty. |
| Reportes.FilaCsv | src/app/reportes/page.tsx:166-175 | Eight values in header order:<br>• the date text;<br>• the found client's name and plate (`N/A` when empty), or `N/A` for an unknown client;<br>• the gallons and the price as text;<br>• `Sí`/`No` for paid;<br>• the found worker's name, or `N/A`;<br>• the notes or empty. |
| Reportes.LineasCsv | src/app/reportes/page.tsx:177-181 | A header line (empty when there are no rows), then one comma-joined line per filtered sale, in order. |
| Reportes.Csv | src/app/reportes/page.tsx:177-181 | No contract of its own. It joins the lines with newlines; `CsvLines` states its read-back. |
| Reportes.CsvLines | src/app/reportes/page.tsx:162-181 | With no newline in any value, the CSV text splits back into the header plus one line per filtered sale. |
| Reportes.CsvRowFields | src/app/reportes/page.tsx:166-180 | With no comma in a row's values, its line splits back into those eight values. |
| Reportes.CommaInValueShiftsColumns | src/app/reportes/page.tsx:177-181 | Nothing is escaped: any value holding a comma makes its row's line split into more than eight values. |
| Reportes.CommaInNotesShiftsColumns | src/app/reportes/page.tsx:174-180 | A note holding a comma makes its line split into more than eight values. |
| Reportes.CommaInDateShiftsColumns | src/app/reportes/page.tsx:166-180 | A date text holding a comma makes its line split into more than eight values. |
| VentasPage.NormalizarNotas | src/app/ventas/page.tsx:87 | Blank notes become absent. Other notes become their trimmed text, with non-space ends. |
| VentasPage.NormalizarNotasIdempotent | src/app/ventas/page.tsx:87 | Normalising normalised notes changes nothing. |
| VentasPage.ValidarVenta | src/app/ventas/page.tsx:53-89 | Each error is returned iff its check is the first to fail, in order: no worker, no client, gallons ≤ 0, price ≤ 0, over capacity. On success the data carries the client, the gallons (within capacity), the price and the normalised notes. It is paid iff the switch is on and the client is corriente. |
| VentasPage.PrecioSugerido | src/app/ventas/page.tsx:237 | The suggested price is 10 iff the client is crédito, and exactly 5 otherwise, an unset type included. |
| VentasPage.PagadoSugerido | src/app/ventas/page.tsx:240 | The paid switch starts on for a corriente client, and off for a crédito client or an unset type. |
| VentasPage.PrefillValid | src/app/ventas/page.tsx:231-241 | A form prefilled from a client with positive capacity passes validation, filling the tank; the sale is paid iff the client is corriente. |
| VentasPage.EditarVenta | src/app/ventas/page.tsx:491-503 | Keeps id, client, worker and date. Replaces gallons, price, paid and the normalised notes. |
| VentasPage.TextoNotas | src/app/ventas/page.tsx:489 | The edit form's notes text: the notes when present, otherwise the empty text. |
| VentasPage.EditUntouchedKeepsVenta | src/app/ventas/page.tsx:485-503 | Saving the edit form untouched gives back the same sale. |
| VentasPage.VentasHoyListadas | src/app/ventas/page.tsx:408 | No contract of its own. It is today's stored sales reversed; `VentasHoyExact` states its contents and order. |
| VentasPage.VentasHoyExact | src/app/ventas/page.tsx:408 | The list holds exactly the stored sales dated today, in reverse store order. |
| VentasPage.VentasPage.constructor | src/app/ventas/page.tsx:29-38 | The form starts at its defaults, not loading, with the edit dialog closed. |
| VentasPage.VentasPage.ResetForm | src/app/ventas/page.tsx:42-48 | The defaults: no client, empty gallons, price and notes, paid on. |
| VentasPage.VentasPage.OnClienteSelected | src/app/ventas/page.tsx:231-241 | Records the pick. For a client it sets gallons to the capacity, the price to 10 for crédito and 5 otherwise, and paid iff corriente. |
| VentasPage.VentasPage.Registrar | src/app/ventas/page.tsx:79-102 | Saves through `agregarVenta`. The form resets only if that succeeds. Without a current worker nothing changes. Loading ends off. |
| VentasPage.VentasPage.HandleSubmit | src/app/ventas/page.tsx:50-104 | A refused form returns its first error and changes nothing; `agregarVenta` is not called. An accepted form is saved, with the form reset only on success. |
| VentasPage.VentasPage.HandleEditVenta | src/app/ventas/page.tsx:106-109 | Opens the edit dialog on the sale. |
| VentasPage.VentasPage.HandleUpdateVenta | src/app/ventas/page.tsx:111-120 | Saves the edited sale through `actualizarVenta`. The dialog closes only on success. |
| VentasPage.VentasPage.HandleDeleteVenta | src/app/ventas/page.tsx:122-131 | Without confirmation nothing changes. With it the sale is deleted in store and mirror. |
| ClientesPage.ValidarCliente | src/app/clientes/page.tsx:66-104 | Each error is returned iff its check is the first to fail, in order: blank name, blank plate, capacity ≤ 0, duplicate plate (new clients only). On success it returns the trimmed name, the trimmed upper-cased plate, the capacity and the type. |
| ClientesPage.PlacaExiste | src/app/clientes/page.tsx:86-88 | A predicate: some stored plate, lower-cased, equals the trimmed, lower-cased input. `SavedPlateIsDuplicate` states what it catches. |
| ClientesPage.SavedPlateIsDuplicate | src/app/clientes/page.tsx:85-103 | A plate saved through the form, entered again in any letter case or with surrounding white space, is a duplicate. |
| ClientesPage.Fusionar | src/app/clientes/page.tsx:107-112 | Keeps id, registration date and gallon total. Overwrites name, plate, capacity and type. |
| ClientesPage.TipoMostrado | src/app/clientes/page.tsx:54 | A present type is shown as is. A missing type is shown as corriente. |
| ClientesPage.EditUntouchedKeepsCliente | src/app/clientes/page.tsx:48-112 | Editing a well-formed client and saving unchanged passes validation and gives back the same client. |
| ClientesPage.ClientesFiltrados | src/app/clientes/page.tsx:36-38 | Always the `buscarClientes` result; for a blank term that is every client. |
| ClientesPage.CapacidadTotal | src/app/clientes/page.tsx:304 | No contract of its own. It is the `reduce` sum of the capacities; `CapacidadTotalAfterAdd` and `CapacidadTotalPositive` state its properties. |
| ClientesPage.CapacidadTotalAfterAdd | src/app/clientes/page.tsx:304 | A new client adds exactly its capacity to the total. |
| ClientesPage.CapacidadTotalPositive | src/app/clientes/page.tsx:304 | With positive capacities the total is 0 for no clients, otherwise positive. |
| ClientesPage.CapacidadPromedio | src/app/clientes/page.tsx:285-288 | 0 with no clients, otherwise within half a unit of total/count. |
| ClientesPage.ClientesPage.constructor | src/app/clientes/page.tsx:25-34 | The dialog is closed, the form at its defaults, the search empty, not loading. |
| ClientesPage.ClientesPage.ResetForm | src/app/clientes/page.tsx:40-46 | Empty fields, type corriente, no client being edited. |
| ClientesPage.ClientesPage.HandleOpenDialog | src/app/clientes/page.tsx:48-59 | Opens the dialog. For a client it copies the fields, with a missing type shown as corriente. Otherwise it resets. |
| ClientesPage.ClientesPage.HandleCloseDialog | src/app/clientes/page.tsx:61-64 | Closes the dialog and resets the form. |
| ClientesPage.ClientesPage.Guardar | src/app/clientes/page.tsx:95-133 | Saves the merge for an edit or a fresh client otherwise. The dialog closes and the form resets only on success. Loading ends off. |
| ClientesPage.ClientesPage.HandleSubmit | src/app/clientes/page.tsx:66-135 | A refused form returns its first error and changes nothing. An accepted one is saved as Guardar says. |
| ClientesPage.ClientesPage.HandleDeleteCliente | src/app/clientes/page.tsx:137-146 | Without confirmation nothing changes. With it the client is deleted in store and mirror. |
| ClienteSearcher.Siguiente | src/components/ClienteSearcher.tsx:61-66 | ArrowDown: i+1 below the last row, otherwise 0. Always in [0, n). |
| ClienteSearcher.Anterior | src/components/ClienteSearcher.tsx:67-72 | ArrowUp: i-1 above the first row, otherwise n-1. Always in [0, n). |
| ClienteSearcher.ArrowsInverse | src/components/ClienteSearcher.tsx:61-72 | On a highlighted row, ArrowUp undoes ArrowDown and vice versa. |
| ClienteSearcher.Resultados | src/components/ClienteSearcher.tsx:31-42 | A blank term lists nothing. Otherwise the list is the `buscarClientes` result. |
| ClienteSearcher.Etiqueta | src/components/ClienteSearcher.tsx:90 | The label is the name, then " - ", then the plate. |
| ClienteSearcher.LongerNotContained | src/components/ClienteSearcher.tsx:90 | A text longer than another is not inside it. |
| ClienteSearcher.EtiquetaMissesOwnClient | src/components/ClienteSearcher.tsx:90 | The "nombre - placa" label, searched by the effect of lines 31-42, never finds its own client. |
| ClienteSearcher.ClienteSearcher.constructor | src/components/ClienteSearcher.tsx:23-26 | Empty term, closed, no results, no highlight. |
| ClienteSearcher.ClienteSearcher.MostrarResultados | src/components/ClienteSearcher.tsx:33-41 | Shows the rows: open iff there are any, no highlight. |
| ClienteSearcher.ClienteSearcher.EfectoBusqueda | src/components/ClienteSearcher.tsx:31-42 | One run of the effect, after a change of term or any re-render of the provider: the results are those for the current term, open iff non-empty, and the highlight is reset to -1. |
| ClienteSearcher.ClienteSearcher.SetSearchTerm | src/components/ClienteSearcher.tsx:31-42 | A changed term re-runs the search. An unchanged term changes nothing else. |
| ClienteSearcher.ClienteSearcher.HandleSelectCliente | src/components/ClienteSearcher.tsx:86-94 | For a known client it hands on the client with gallons, sets the term to "nombre - placa" and closes. The label's own search then decides whether the dropdown reopens. An unknown client changes nothing. |
| ClienteSearcher.ClienteSearcher.HandleKeyDown | src/components/ClienteSearcher.tsx:57-84 | Keys are ignored while closed or empty. The arrows wrap as Siguiente/Anterior say and change only the highlight. Escape closes and resets the highlight, nothing else. Enter without a highlight changes nothing. Enter on a highlighted row gives the whole post-state of HandleSelectCliente on that row. |
| ClienteSearcher.ClienteSearcher.HandleClearSelection | src/components/ClienteSearcher.tsx:96-102 | Empty term, null selection, closed, no highlight. The results become empty when the term was non-empty (the effect on a blank term) and stay as they were otherwise. |
| ClienteSearcher.ClienteSearcher.ClickOutside | src/components/ClienteSearcher.tsx:45-54 | Closes the dropdown. |
| Dashboard.VentasRecientes | src/app/page.tsx:21 | min(5, n) entries; entry i is today's sale n-1-i; empty iff there are no sales today. |
| Dashboard.RecientesAreLatest | src/app/page.tsx:21 | Only today's sales, and every one of the last five. |
| Dashboard.RecientesDelDia | src/app/page.tsx:20-21 | No contract of its own. It is the recent list over today's stored sales; `RecientesEmptyIffNoSales` states when it is empty. |
| Dashboard.RecientesEmptyIffNoSales | src/app/page.tsx:206 | The empty state (on the list of lines 20-21) shows iff no stored sale is dated today. |
| Dashboard.PromedioGalonesPorVenta | src/app/page.tsx:272-275 | 0 with no sales, otherwise within half a unit of the mean gallons. |
| Dashboard.ResumenHoy | src/app/page.tsx:19 | No contract of its own. It is the day summary of today's stored sales, so `AppContext.Resumen` and `AppContext.ResumenSnoc` state its properties. |

## Left out

- The browser storage plumbing is out: `localStorage`, `JSON.parse`/`stringify`, the `isClient` window check and the `try/catch` around them (src/lib/storage.ts:11-23). The store is in-memory sequences plus a writability flag that stands for every failed write.
- `clearAllData` (src/lib/storage.ts:178-189) is out: it only removes storage keys and no modelled page uses it.
- The realtime subscription (src/context/AppContext.tsx:102-117) is an external asynchronous channel. Its handler is modelled as `RefreshData`.
- React itself is out: rendering, hooks' scheduling, toasts, focus handling and the Blob/URL download (src/app/reportes/page.tsx:183-189). A `confirm` dialog's answer is the `confirmado` parameter.
- Asynchronous execution is out: `async`/`await` and the catch-all `try/catch` blocks of the handlers. Each handler runs to completion.
- The Sidebar's blank-name check before adding a worker is out; it belongs to navigation UI.
- Date and time machinery is out:
  - `Date.now()` ids and `toISOString()` timestamps are parameters.
  - The `setDate`/`setHours` arithmetic of the seven-day series and the end-of-day bound is out; they come in as `claveDia` and `finDia`.
  - `new Date(...)` parsing is the `instante` parameter.
  - `getVentasDelDia` re-formats each stored timestamp through `Date` before taking its day. It is modelled as taking the day part of the stored ISO text, which is the same for the ISO UTC timestamps the app stores.
- Number parsing is out: `parseFloat`, including NaN slipping past `<= 0` checks. A number field is `Option<real>`, with the empty text as `None`. Arithmetic is exact.
- Locale formatting is out: currency, `toLocaleString`, and the CSV's date text (the `fmtFecha` parameter).
- The CSV's Galones and Precio values are the raw numbers, turned into text by JavaScript's default number-to-text conversion when the row is joined (src/app/reportes/page.tsx:170-171, 180). That conversion depends on no locale. It is not modelled: the `fmtNum` parameter stands for it, and the model does not state that it never writes a comma or a newline.
- Case mapping covers ASCII letters only; non-ASCII case mapping is out.
- The plate box's upper-casing of each keystroke (src/app/clientes/page.tsx:191) is out: it is an input handler. The model takes whatever text the field holds.
- `ventasHoy.reverse()` reverses the array returned by `getVentasDelDia` in place. It is modelled as a value, which is equivalent because that array is a fresh copy.
- The searcher's search effect depends on `buscarClientes`, a closure the provider rebuilds on every render (src/context/AppContext.tsx:166, src/components/ClienteSearcher.tsx:42). So the effect re-runs after every provider re-render: a change of loading, of the current worker, or of any mirror. Such a re-run can reopen the dropdown after a selection and reset the highlight. The model exposes one run as `EfectoBusqueda`, but it does not decide when the provider re-renders. `SetSearchTerm`, `HandleSelectCliente` and `HandleClearSelection` run it only on a change of term.
- AppContext.Resumen: its own contract states the count and the split of the billed amount. That the gallons, the income and the pending amount are the sums over the day's sales is stated by `AppContext.ResumenSnoc`.
- Reportes.EstadisticasGenerales: its own contract states the count, the billed split and the averages. That the gallons, income and pending are the sums, and which goes where, is stated by `Reportes.GeneralesSnoc`.
- Reportes.ClienteStatTotals: it does not tie the totals to the client's sales. `Reportes.ClienteStatSnoc` adds that, sale by sale.
- Reportes.TrabajadorStatProps: it does not tie the totals to the worker's sales. `Reportes.TrabajadorStatSnoc` adds that, sale by sale.
- Reportes.EstadisticaCliente: the rollup's `ultimaVisita` is the corrected last visit (`UltimaVisita`). A client whose latest sale is at instant 0 gets `Some(0)` here, where the page shows no last visit (see Findings).
- Reportes.ClienteStatVisits: it states the corrected last visit, so "a client with visits has a last visit" is not true of the page at instant 0 (see Findings).
- Reportes.CsvRowFields: it needs a date text without a comma. The page formats the date with `toLocaleString('es-CO')` (src/app/reportes/page.tsx:166), which by common locale data writes "date, time"; then every row splits into more than eight values, as `Reportes.CommaInDateShiftsColumns` states. The locale's actual output is not modelled.
- Records.SortDesc: stability (equal keys keep their input order) is stated in its documentation, not proved.
- AppContext.AppProvider.GetVentasDelDia, GetResumenDia and GetClienteConGalones only delegate: to `Storage.GetVentasDelDia`, `AppContext.Resumen` and `AppContext.ClienteConGalones`, whose contracts state their properties.
- src/app/reportes/[clienteId]/page.tsx is not part of this model.

## Findings

| source | as written | input that shows it | evidently intended | confidence | as-written member | corrected member |
|---|---|---|---|---|---|---|
| src/app/reportes/page.tsx:80-91 | The last visit is the largest timestamp in milliseconds, and the truthiness test `ultimaVisita ? new Date(ultimaVisita) : null` turns a largest timestamp of 0 into "no last visit" | A client whose one filtered sale is dated 1970-01-01T00:00:00.000Z | Any client with a visit has a last visit, its latest sale's time | not executed | Reportes.UltimaVisitaComoEscrita, Reportes.EpochVisitLost | Reportes.UltimaVisita |
