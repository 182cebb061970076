# Bansal Floor Mill invoices — a verified model

This project models the logic of a small invoicing app in Dafny. The app has
a React front end and four interchangeable back ends:

- an Express server backed by JSON files;
- a Vite development plugin, a Vercel function and a Netlify function, all
  three over one MongoDB collection.

The model covers:

- **Invoice numbers.** The first run of decimal digits in a label such as
  `INV-12` is the invoice's number. The "last number" counter is overwritten
  by every successful create whose number is non-zero. "Next number" is
  last + 1.
- **The file-backed server** (`FileServer.FileStore`). Invoices, items and
  company names are held in sequences and changed in place. Every method
  returns the HTTP status the server answers.
- **The MongoDB collection** the three other back ends share
  (`DocumentStore.InvoiceCollection`). Its invariant is the unique index on
  `invoiceNumber`.
- **Each serverless handler's routing.** This covers how each one turns the
  request path into a branch and a key. The three handlers disagree on
  trailing slashes, and lemmas exhibit the disagreement.
- **Seed items.** The Vite plugin de-duplicates seed items and assigns their
  ids. The model proves the resulting ids are distinct.
- **The invoice form.** Row edits keep amount = rate × quantity. Rebalancing
  rates to a typed total hits that total exactly in exact arithmetic.
- **The invoice list.** An in-place sort by number, a search filter and
  10-per-page pagination.
- **Three small UI state machines:** page navigation, the item manager and
  the typed-"delete" confirmation dialog.

The modules are:

| Module | Contents |
|---|---|
| `Wrappers`, `Text`, `Seqs` | Option, string helpers (JavaScript's `toLowerCase` on ASCII, `trim`, `split`, `includes`, `replace`), order-preserving filters |
| `Records` | the invoice and item records |
| `InvoiceNumber` | the extractor and the counter rule |
| `FileServer` | `server.js` |
| `DocumentStore` | the Mongo collection |
| `ViteApi`, `VercelInvoices`, `NetlifyInvoices` | the three Mongo handlers |
| `InvoiceForm`, `InvoiceList`, `App`, `ItemManager`, `DeleteModal` | the components |

Conditions the code cannot control are parameters of the methods. These are
whether a file or database write succeeds, the current time, a freshly
generated id, and the server's answer to a UI request.

The counter is overwritten, not advanced to a maximum. Every successful
create whose number is non-zero stores that number as the last one
(`api/invoices.js:96-103` and its three copies), and nothing reconciles the
counter with the stored invoices. `InvoiceNumber.CounterCanGoBackwards` shows
that saving `INV-5` and then `INV-3` leaves the next suggestion at 4.

## Model

| member | source | states |
|---|---|---|
| InvoiceNumber.Extract | server.js:108-111 | no number exactly when the label has no decimal digit |
| InvoiceNumber.FirstDigitRun | server.js:109 | the match is a non-empty digit run preceded by no digit and not followed by one |
| InvoiceNumber.ExtractFirstRun | vite-plugin-api.js:137-140 | a label made of a digit-free prefix, a digit run and text not starting with a digit extracts to that run's decimal value |
| InvoiceNumber.ExtractLeadingZeros | api/invoices.js:3-6 | `parseInt(…, 10)` drops leading zeros: `INV001` gives 1 |
| InvoiceNumber.ExtractFirstRunOnly | netlify/functions/invoices.js:3-6 | only the first digit run counts: `INV-2024-007` gives 2024 |
| InvoiceNumber.LeadingZerosVanish | server.js:110 | zeros in front of a digit string do not change its value |
| InvoiceNumber.DigitsValueConcat | server.js:110 | the value of two digit strings joined is the first shifted by the length of the second plus the second |
| InvoiceNumber.DecimalStringValue | src/components/InvoiceForm.jsx:62 | the decimal text of n, as a template literal writes it, reads back as n |
| InvoiceNumber.LabelRoundTrip | src/components/InvoiceForm.jsx:62 | extracting the number of the label `INV-n` gives back n |
| InvoiceNumber.Label | src/components/InvoiceForm.jsx:62 | the proposed label is `INV-` followed by decimal digits |
| InvoiceNumber.LastNumber | server.js:87-96 | the stored last number, 0 when there is none |
| InvoiceNumber.NextNumber | server.js:230-233 | the suggested next number is at least 1 |
| InvoiceNumber.CommitCounter | server.js:156-161 | a create with a non-zero number overwrites the counter with it; otherwise the counter is unchanged |
| InvoiceNumber.CommitIdempotent | server.js:158-161 | committing the same label twice is the same as once |
| InvoiceNumber.CounterCanGoBackwards | api/invoices.js:96-103 | after `INV-5` then `INV-3` the last number is 3 and the next is 4 |
| InvoiceNumber.NextSuggestionAdvances | vite-plugin-api.js:236-242 | saving the suggested `INV-next` makes the following suggestion next + 1 |
| InvoiceNumber.SortKey | src/components/InvoiceList.jsx:29-30 | a label without digits sorts as 0 |
| Records.FindInvoice | server.js:178 | `findIndex`: the first index with the number, -1 exactly when there is none |
| Records.WithoutInvoiceSpec | server.js:203-206 | the filter keeps, in order, every invoice with another number and only those, and is shorter exactly when the number was present |
| Records.UpdatedInvoices | server.js:178-186 | after a successful update only the first invoice with the number changes: the slot becomes the body (number, date, names and details as sent), with `updatedAt` set to now and `savedAt` carried over (now when it had none) |
| Records.FindItem | server.js:311 | `findIndex` over items by id |
| Records.WithoutItemSpec | server.js:333-336 | the item filter keeps exactly the items with another id, in order, and is shorter exactly when the id was present |
| Records.CreateKeepsDistinct | server.js:147-154 | appending an invoice whose number is not stored keeps numbers unique |
| Records.ReplaceKeepsDistinct | vite-plugin-api.js:335-339 | replacing an invoice by one with the same number, or with a number not stored, keeps numbers unique |
| Records.DeleteKeepsDistinct | server.js:203 | deleting keeps numbers unique |
| Records.DeleteFirstIsFilter | vite-plugin-api.js:354 | with unique numbers, removing the first match (`findOneAndDelete`) is the same as filtering the number out |
| FileServer.Merge | server.js:316 | `{ ...item, ...patch }`: each field comes from the patch when the patch has it, else from the item |
| FileServer.MatchesTerm | server.js:412-415 | the empty term matches every company name |
| FileServer.Suggestions | server.js:403-417 | at most 10 suggestions, each a stored company |
| FileServer.SuggestionsSpec | server.js:403-417 | the suggestions are exactly the first 10 matching companies, in list order (all companies when the term is empty); each contains the term ignoring case; fewer than 10 means every matching company is included |
| FileServer.FileStore.constructor | server.js:29-40 | the files as first created: no invoices, items or companies, and a counter of 0 |
| FileServer.FileStore.GetInvoice | server.js:126-138 | 200 with the first invoice with the number, or 404 exactly when there is none |
| FileServer.FileStore.GetLastNumber | server.js:87-96 | the counter, 0 when absent |
| FileServer.FileStore.GetNextNumber | server.js:230-237 | counter + 1 |
| FileServer.FileStore.CreateInvoice | server.js:141-169 | 400 exactly for a stored number; otherwise 200 or 500 by the write, the stamped invoice appended on 200, and the counter overwritten by the commit rule when that write succeeds |
| FileServer.FileStore.UpdateInvoice | server.js:172-196 | 404 exactly for an unknown number; on 200 the first match is replaced by the body with `savedAt` carried over (or now) and `updatedAt` now |
| FileServer.FileStore.DeleteInvoice | server.js:199-216 | 404 exactly when nothing matches; on 200 the list is the filter |
| FileServer.FileStore.CreateItem | server.js:284-302 | 200 or 500 by the write; on 200 the item is appended, a falsy id (0) replaced by the fresh id |
| FileServer.FileStore.UpdateItem | server.js:305-326 | 404 exactly for a NaN or unknown id; on 200 the first item with the id is merged with the patch |
| FileServer.FileStore.DeleteItem | server.js:329-347 | 404 exactly for a NaN or unknown id; on 200 the items are the filter |
| FileServer.FileStore.AddCompany | server.js:382-400 | an empty name fails with 500; a new, non-blank name is appended untrimmed when the write succeeds; a known or blank name changes nothing and answers 200 |
| FileServer.FileStore.GetSuggestions | server.js:403-417 | the suggestions are at most 10, in list order |
| FileServer.UpdateCanDuplicate | server.js:184-186 | for every store with unique numbers, a successful update of a stored number whose body carries another stored invoice's number leaves two invoices with one number |
| DocumentStore.InvoiceCollection.FindOne | vite-plugin-api.js:265 | found exactly when the number is stored, and then it is the stored invoice |
| DocumentStore.InvoiceCollection.ReadLastNumber | vite-plugin-api.js:228-229 | the document's value, 0 without a document |
| DocumentStore.InvoiceCollection.ReadNextNumber | vite-plugin-api.js:240-242 | last + 1 |
| DocumentStore.InvoiceCollection.CreateInvoice | vite-plugin-api.js:287-306 | 400 exactly for a stored number; the stamped invoice saved when the save succeeds; the counter overwritten by the commit rule when both writes succeed; 500 exactly when the save fails or a needed upsert fails; uniqueness kept |
| DocumentStore.InvoiceCollection.UpdateInvoice | vite-plugin-api.js:325-339 | 404 exactly for an unknown number; otherwise 200 exactly when the write succeeds and the new number is the key or unused (unique index), with the slot replaced and `savedAt` carried over |
| DocumentStore.InvoiceCollection.DeleteInvoice | vite-plugin-api.js:354-360 | 404 exactly when nothing matches; on 200 the collection is the filter and one invoice shorter |
| ViteApi.InvoiceKey | vite-plugin-api.js:264 | the text after the last '/', or the path after `/api/invoices/` when that is empty |
| ViteApi.Classify | vite-plugin-api.js:188-370 | other paths and other methods pass through; each GET branch holds exactly when its own test passes and every earlier one fails, in the code's order: the base path lists, then last-number, next-number and export by substring, and any other GET looks up the key |
| ViteApi.KeyOfInvoiceUrl | vite-plugin-api.js:264 | `/api/invoices/<key>` looks up `<key>` |
| ViteApi.KeyWithTrailingSlash | vite-plugin-api.js:264 | `/api/invoices/<key>/` looks up `<key>/` |
| ViteApi.BasePathLists | vite-plugin-api.js:207-213 | a GET of `/api/invoices` lists |
| ViteApi.BasePathSlashLists | vite-plugin-api.js:207-213 | a GET of `/api/invoices/` also lists |
| ViteApi.LastNumberUrl | vite-plugin-api.js:224 | a GET of `/api/invoices/last-number` reads the counter, a POST there creates |
| ViteApi.WithSeedIds | vite-plugin-api.js:47 | each seed item's id is its own when truthy, else its position + 1 |
| ViteApi.AssignIdsSpec | vite-plugin-api.js:45-57 | the survivors are an in-order subsequence with distinct ids, none already seen, the first item of every id kept, no id lost |
| ViteApi.AssignIds | vite-plugin-api.js:45-57 | the mapping never yields more items than it is given |
| ViteApi.SeedItems | vite-plugin-api.js:67-78 | the seed list is never longer than the input |
| ViteApi.SeedItemsSpec | vite-plugin-api.js:67-78 | the seed mapping's ids are distinct, it is never longer than its input, and every assigned id survives |
| ViteApi.LoadSeedItems | vite-plugin-api.js:45-57 | the loop with its `seenIds` set computes the seed mapping |
| ViteApi.ParseInt | vite-plugin-api.js:422 | text without a digit parses to NaN |
| ViteApi.ParseIntLeadingDigits | vite-plugin-api.js:422 | text that starts with a digit, and not with `0x`, parses to its leading digit run |
| ViteApi.ParseIntDecimal | vite-plugin-api.js:422 | a digit run followed by other text parses to the run's value |
| ViteApi.ParseIntTrailingText | vite-plugin-api.js:458 | `parseInt("12abc")` is 12 |
| ViteApi.ItemId | vite-plugin-api.js:421-428 | no id, and so 400, when the URL has fewer than three parts or the third parses to NaN or 0 |
| ViteApi.ItemUrlId | vite-plugin-api.js:457-458 | `/api/items/<part>` uses `parseInt(<part>)` |
| ViteApi.ItemIdRejected | vite-plugin-api.js:460-464 | a digit-free part or `0` is rejected |
| ViteApi.HandleInvoices | vite-plugin-api.js:188-370 | requests outside the API pass through; OPTIONS, the list, the counter reads and export answer 200 and change nothing; last-number answers the stored value or 0 and next-number that plus 1; a GET of a key answers 404 exactly when it is absent; POST, PUT and DELETE answer and change the store exactly as the shared collection's create, update and delete rules say; uniqueness kept |
| VercelInvoices.RequestPath | api/invoices.js:24-38 | a request without a path is treated as `/api/invoices` |
| VercelInvoices.Segments | api/invoices.js:40 | the segments are non-empty and slash-free |
| VercelInvoices.FirstSegment | api/invoices.js:41 | no key exactly when there is no segment |
| VercelInvoices.Classify | api/invoices.js:15-140 | each branch exactly for its method and first segment, in both directions: a GET lists exactly when there is no segment, and looks up the first segment exactly when it is neither counter name nor an export; 405 exactly for other methods |
| VercelInvoices.SegmentsOfInvoiceUrl | api/invoices.js:40 | `/api/invoices/<key>` has the one segment `<key>` |
| VercelInvoices.SegmentsOfInvoiceUrlSlash | api/invoices.js:40 | a trailing slash does not change the segments |
| VercelInvoices.GetInvoiceUrl | api/invoices.js:74-81 | a GET of `/api/invoices/<key>`, with or without the slash, looks up `<key>` |
| VercelInvoices.Handle | api/invoices.js:8-141 | 405 exactly for other methods; OPTIONS, the list, the counter reads and export answer 200 and change nothing; last-number answers the stored value or 0 and next-number that plus 1; a GET of a key answers 404 exactly when it is absent; POST, and PUT and DELETE with a key, answer and change the store exactly as the shared collection's rules say; PUT or DELETE without a key answers 404 and changes nothing |
| NetlifyInvoices.Path | netlify/functions/invoices.js:28 | for a path starting with `/api/invoices`, the rest without one leading '/'; a path without it only loses one leading '/' |
| NetlifyInvoices.PathRemovesFirstOccurrence | netlify/functions/invoices.js:28 | `replace` removes the first `/api/invoices` wherever it occurs, joining the text before and after it |
| NetlifyInvoices.Classify | netlify/functions/invoices.js:18-183 | branches by exact equality of the stripped path |
| NetlifyInvoices.PathOfInvoiceUrl | netlify/functions/invoices.js:28 | `/api/invoices/<rest>` looks up `<rest>` verbatim |
| NetlifyInvoices.TrailingSlashDisagreement | netlify/functions/invoices.js:28-31 | with a trailing slash the Vercel key is `<key>` but the Netlify key is `<key>/` |
| NetlifyInvoices.CounterUrlWithSlash | netlify/functions/invoices.js:44 | `/api/invoices/last-number/` reads the counter on Vercel but looks up an invoice on Netlify |
| NetlifyInvoices.Handle | netlify/functions/invoices.js:8-192 | 405 exactly for other methods; OPTIONS, the list, the counter reads and export answer 200 and change nothing; last-number answers the stored value or 0 and next-number that plus 1; a GET of a key answers 404 exactly when it is absent; POST, PUT and DELETE of the stripped path answer and change the store exactly as the shared collection's rules say |
| InvoiceForm.BlankRow | src/components/InvoiceForm.jsx:229-238 | a new row is blank, quantity 1, amount 0, and consistent |
| InvoiceForm.Tax | src/components/InvoiceForm.jsx:98-101 | no tax at a zero rate |
| InvoiceForm.Total | src/components/InvoiceForm.jsx:108-113 | without tax the total is the subtotal less the discount |
| InvoiceForm.SubtotalNonNegative | src/components/InvoiceForm.jsx:94-96 | consistent rows with non-negative rates and quantities have a non-negative subtotal |
| InvoiceForm.SubtotalAppend | src/components/InvoiceForm.jsx:94-96 | appending a row adds its amount to the subtotal |
| InvoiceForm.EditRow | src/components/InvoiceForm.jsx:180-195 | a rate or quantity edit sets that field and makes the row consistent; a rate edit clears `ratePrefilled`; a name edit changes only the name |
| InvoiceForm.EditRows | src/components/InvoiceForm.jsx:181-194 | every row with the id is edited, the others are untouched |
| InvoiceForm.SelectRow | src/components/InvoiceForm.jsx:197-211 | the predefined name and rate are copied, `ratePrefilled` set, and the row consistent |
| InvoiceForm.SelectRows | src/components/InvoiceForm.jsx:198-210 | every row with the id takes the predefined item |
| InvoiceForm.FindRow | src/components/InvoiceForm.jsx:214 | `find`: the first row with the id |
| InvoiceForm.StepBase | src/components/InvoiceForm.jsx:224 | the quantity the step starts from is never 0, and is the quantity itself when that is not 0 |
| InvoiceForm.ClampStep | src/components/InvoiceForm.jsx:216 | `Math.max(0, x)` is non-negative and at least x |
| InvoiceForm.SavedRows | src/components/InvoiceForm.jsx:282 | the saved rows are exactly the rows with a non-blank name |
| InvoiceForm.SavedRowsInOrder | src/components/InvoiceForm.jsx:282 | the saved rows keep their order, and all rows are saved exactly when no name is blank |
| InvoiceForm.SubtotalCountsBlankRows | src/components/InvoiceForm.jsx:282-283 | the saved subtotal also counts blank rows, so it can differ from the saved rows' sum |
| InvoiceForm.ScaleRow | src/components/InvoiceForm.jsx:149-159 | a row with positive rate and quantity gets rate × ratio and a consistent amount; any other row is unchanged |
| InvoiceForm.Rebalance | src/components/InvoiceForm.jsx:149-160 | the mapped list has as many rows as before |
| InvoiceForm.RebalanceAt | src/components/InvoiceForm.jsx:149-160 | the row at every index is that index's row scaled |
| InvoiceForm.RebalanceScalesSubtotal | src/components/InvoiceForm.jsx:146-160 | scaling the rates by a ratio scales the subtotal by it |
| InvoiceForm.TargetSubtotal | src/components/InvoiceForm.jsx:138-143 | the target subtotal grossed up by the tax rate is the typed total plus the discount |
| InvoiceForm.Ratio | src/components/InvoiceForm.jsx:146 | with a positive subtotal the ratio times the subtotal is the target; otherwise the ratio is 1 |
| InvoiceForm.TargetGivesTotal | src/components/InvoiceForm.jsx:130-143 | the target subtotal gives back the typed total after tax and discount |
| InvoiceForm.RebalanceHitsTotal | src/components/InvoiceForm.jsx:121-163 | after rebalancing, the total equals the typed total |
| InvoiceForm.RebalanceKeepsConsistent | src/components/InvoiceForm.jsx:149-160 | rebalancing keeps rows consistent |
| InvoiceForm.RemoveRows | src/components/InvoiceForm.jsx:242 | the survivors are exactly the rows with another id |
| InvoiceForm.RemoveKeepsRows | src/components/InvoiceForm.jsx:240-244 | removal keeps only existing rows, keeps them consistent, and leaves a row when another id exists |
| InvoiceForm.RemoveDropsOne | src/components/InvoiceForm.jsx:240-244 | with distinct ids removal drops exactly one row |
| InvoiceForm.InvoiceFormState.constructor | src/components/InvoiceForm.jsx:27-29 | the form starts with one blank row, id 1 |
| InvoiceForm.InvoiceFormState.ItemChange | src/components/InvoiceForm.jsx:180-195 | the rows become the edited rows; consistency is kept |
| InvoiceForm.InvoiceFormState.PredefinedSelect | src/components/InvoiceForm.jsx:197-211 | the rows become the selected rows; consistency is kept |
| InvoiceForm.InvoiceFormState.RateStep | src/components/InvoiceForm.jsx:213-219 | nothing for an unknown id; else the first row's rate plus the step, clamped at 0, is typed into every row with the id |
| InvoiceForm.InvoiceFormState.QuantityStep | src/components/InvoiceForm.jsx:221-227 | as the rate step, with a quantity of 0 stepped from 1 |
| InvoiceForm.InvoiceFormState.AddItem | src/components/InvoiceForm.jsx:229-238 | a blank row is appended and the subtotal is unchanged |
| InvoiceForm.InvoiceFormState.RemoveItem | src/components/InvoiceForm.jsx:240-244 | a single row is never removed; otherwise the filter; with distinct ids the list never empties and loses one row |
| InvoiceForm.InvoiceFormState.TotalClick | src/components/InvoiceForm.jsx:115-119 | editing starts from the current total |
| InvoiceForm.InvoiceFormState.TotalChange | src/components/InvoiceForm.jsx:121-163 | a zero subtotal or total changes no row; otherwise the rows are rebalanced and the total is the typed one |
| InvoiceForm.InvoiceFormState.TotalBlur | src/components/InvoiceForm.jsx:165-169 | editing always ends and the typed total is kept; when not editing, or with a zero subtotal or typed total, no row changes; otherwise the rows are rebalanced to the typed total, which the total then equals for consistent non-negative rows |
| InvoiceForm.InvoiceFormState.TotalKeyPress | src/components/InvoiceForm.jsx:171-178 | Enter ends editing, keeps the typed total, changes no row for a zero subtotal or typed total and otherwise rebalances the rows so that consistent non-negative rows hit the typed total; Escape ends editing and resets the typed total to the current one; other keys change nothing |
| InvoiceList.SortDescending | src/components/InvoiceList.jsx:28-32 | the array ends up a permutation of itself in descending key order |
| InvoiceList.InsertLast | src/components/InvoiceList.jsx:28-31 | one insertion pass extends the sorted prefix by one, as a permutation |
| InvoiceList.Matches | src/components/InvoiceList.jsx:43-46 | the empty term matches every invoice |
| InvoiceList.Search | src/components/InvoiceList.jsx:41-47 | the search never returns more invoices than the list, and returns the whole list for an empty term |
| InvoiceList.SearchSpec | src/components/InvoiceList.jsx:41-47 | the search result is an in-order sublist holding exactly the matching invoices |
| InvoiceList.SearchIgnoresCase | src/components/InvoiceList.jsx:43 | an invoice whose number contains the term in any case is found |
| InvoiceList.TotalPages | src/components/InvoiceList.jsx:52 | the page count is the ceiling of n / 10 |
| InvoiceList.Page | src/components/InvoiceList.jsx:53-54 | the page is the slice starting at (page − 1) × 10, at most 10 long, empty past the end |
| InvoiceList.PagesUpToPrefix | src/components/InvoiceList.jsx:53-54 | pages 1..k together are the first 10k invoices |
| InvoiceList.PagesCoverList | src/components/InvoiceList.jsx:52-54 | pages 1..TotalPages together are the whole list |
| InvoiceList.InvoiceListState.Shown | src/components/InvoiceList.jsx:54 | at most 10 invoices are shown |
| InvoiceList.InvoiceListState.FilterInvoices | src/components/InvoiceList.jsx:35-50 | a blank term shows everything and keeps the page; another term shows the search result and goes to page 1 |
| InvoiceList.InvoiceListState.LoadInvoices | src/components/InvoiceList.jsx:26-33 | the loaded list is the fetched invoices sorted, and the filter is re-applied: the page is kept for a blank term and reset to 1 otherwise, and the page direction is kept |
| InvoiceList.InvoiceListState.SetSearchTerm | src/components/InvoiceList.jsx:22-24 | a new term re-applies the filter: a blank term shows every invoice on the same page, any other the search on page 1; the list and the page direction are kept |
| InvoiceList.InvoiceListState.PageChange | src/components/InvoiceList.jsx:56-61 | only pages 1..TotalPages are accepted, with direction +1 forward and −1 otherwise, and the accepted page is not empty |
| App.PageIndex | src/App.jsx:47-48 | create, invoices, items are positions 0, 1, 2 |
| App.FormKey | src/App.jsx:64 | `new-invoice` without editing data, `edit-<number>` with it |
| App.FormKeysDiffer | src/App.jsx:64 | editing two different invoices remounts the form, and so does starting a new one |
| App.AppState.constructor | src/App.jsx:11-15 | the create page with an empty form |
| App.AppState.Render | src/App.jsx:59-90 | on the create page the form shows exactly when nothing is previewed, in edit mode exactly with editing data; the preview can edit only when opened from the list |
| App.AppState.InvoiceGenerate | src/App.jsx:17-23 | the data is previewed, not from the list; editing data is cleared unless updating |
| App.AppState.EditInvoice | src/App.jsx:25-30 | the create page shows the form in edit mode on the invoice |
| App.AppState.ViewFromList | src/App.jsx:32-35 | the invoice is previewed from the list |
| App.AppState.BackToEdit | src/App.jsx:37-40 | the previewed invoice becomes the one being edited and the form shows |
| App.AppState.Reset | src/App.jsx:42-44 | nothing changes |
| App.AppState.BackToList | src/App.jsx:76-80 | the list shows and the preview is dropped |
| App.AppState.PageChange | src/App.jsx:46-57 | direction +1 exactly when moving down the sidebar; the preview is dropped; going to create ends editing and shows a new form |
| ItemManager.RenameItems | src/components/ItemManager.jsx:70-74 | every item with the id gets the new name and rate, the others are unchanged |
| ItemManager.RenameKeepsIds | src/components/ItemManager.jsx:70-74 | renaming keeps the set of ids |
| ItemManager.ItemManagerState.constructor | src/components/ItemManager.jsx:9-12 | no items, no editing, an empty hidden form |
| ItemManager.ItemManagerState.SetForm | src/components/ItemManager.jsx:11 | typing changes only the form |
| ItemManager.ItemManagerState.Add | src/components/ItemManager.jsx:35-54 | with both fields filled and an item returned, it is appended and the form reset and hidden; otherwise nothing changes |
| ItemManager.ItemManagerState.Edit | src/components/ItemManager.jsx:56-60 | the form opens on the item's name and rate text, editing its id |
| ItemManager.ItemManagerState.Update | src/components/ItemManager.jsx:62-86 | with both fields, a truthy editing id and success, only items with that id change, and the form resets; otherwise nothing changes |
| ItemManager.ItemManagerState.Delete | src/components/ItemManager.jsx:88-100 | on confirmation and success exactly the items with the id go, the rest keep their order |
| ItemManager.ItemManagerState.Cancel | src/components/ItemManager.jsx:102-106 | editing ends and the form is emptied and hidden |
| DeleteModal.IsConfirmValid | src/components/DeleteConfirmationModal.jsx:8 | a valid confirmation text is six characters long |
| DeleteModal.ConfirmValidSpec | src/components/DeleteConfirmationModal.jsx:8 | valid exactly for six characters lower-casing to `delete` |
| DeleteModal.UpperCaseConfirms | src/components/DeleteConfirmationModal.jsx:8 | `DELETE` is accepted |
| DeleteModal.DeleteModalState.constructor | src/components/DeleteConfirmationModal.jsx:7 | empty text, no callbacks |
| DeleteModal.DeleteModalState.SetText | src/components/DeleteConfirmationModal.jsx:56 | typing changes only the text |
| DeleteModal.DeleteModalState.Confirm | src/components/DeleteConfirmationModal.jsx:10-16 | a valid text calls confirm then close and clears the text; an invalid one does nothing |
| DeleteModal.DeleteModalState.Close | src/components/DeleteConfirmationModal.jsx:18-21 | always clears the text and calls close, never confirm |
| DeleteModal.DeleteModalState.KeyDown | src/components/DeleteConfirmationModal.jsx:60-66 | Enter confirms only a valid text, Escape always closes, and confirm is called exactly on Enter with a valid text |

## Left out

- File, database and network I/O. File contents are sequences in memory. The
  success of each write is a boolean parameter. A failed read, or a database
  connection that fails, is not modelled; both would answer 500.
- The Express route table. `server.js` registers `/api/invoices/:invoiceNumber`
  (line 126) before `/last-number` (line 220) and `/next-number` (line 230),
  so first-match dispatch sends those two GETs to the single-invoice handler.
  The counter operations are modelled directly instead.
- The sort of GET listings by `savedAt`, the export's file name, the CORS
  headers and the response bodies.
- URL parsing. Each handler receives the request URL as it reads it:
  `req.url` for Vite (query string included, as the code keeps it), the
  pathname for Vercel, and `event.path` for Netlify. `new URL` itself is not
  modelled.
- VercelInvoices.Handle: a PUT or DELETE without a key segment is modelled as
  404. The code passes an undefined key to the database, and what a filter
  with an undefined field matches depends on the driver's settings.
- A POST body without `invoiceNumber`. Records always carry every field, with
  "" standing for a missing string. A database update is therefore modelled as
  replacing the whole record.
- The seed-loading branches around the mapping. The items file and the seed
  file are the same path, so those branches never load anything. Only the
  mapping itself is modelled.
- The Vite items and companies middlewares beyond the item-id check. The
  remaining Mongo handlers for items and companies are also left out.
- Floating point. Form arithmetic is exact `real` arithmetic. Also left out:
  `parseFloat`, the `|| 0` fallbacks for NaN, and the `toFixed(2)` rounding of
  rebalanced rates (so rate × quantity equals the amount only in exact
  arithmetic).
- InvoiceForm.InvoiceFormState.TotalChange: a tax rate of exactly −100 is
  excluded by its precondition. The code divides by zero there and produces an
  infinite or NaN rate, which a real number cannot represent.
- InvoiceForm.InvoiceFormState.TotalBlur and
  InvoiceForm.InvoiceFormState.TotalKeyPress carry the same precondition.
- InvoiceForm.TargetSubtotal carries the same precondition, for the same
  division by zero; so do the lemmas built on it, TargetGivesTotal and
  RebalanceHitsTotal.
- `parseInt` precision above 2^53. Numbers are unbounded naturals.
- `toLowerCase` beyond ASCII. Names written in Devanagari are compared
  unchanged.
- Timestamps, `Date.now()` ids and the server's answers to the item manager.
  These are parameters.
- ItemManager.ItemManagerState.Edit: `rate.toString()` is a parameter, known
  only to be non-empty.
- Loading the item manager's list and the form's initial data, company
  suggestions in the form, Google Sheets export, rendering, animations,
  toasts, and the `window.confirm` dialog (a boolean parameter).
- Concurrency. Concurrent requests race between checking and inserting, and
  between reading and writing a file. The code has no locking, so nothing is
  stated about interleavings.
- InvoiceList.SortDescending: the model proves order and permutation, not the
  stability that `Array.prototype.sort` also guarantees. Invoices with equal
  numbers may come out in another order.
