# Inventory dashboard: a Dafny model of its screen logic

This project models the logic inside the React admin dashboard of a bag
factory's inventory system. Orders move through three stages:
production (printing, then W-cut), packaging, and delivery. Each stage
has a screen that lists records, filters them, pages through them and
edits them, and two helpers write invoices as PDF files.

The model covers:

- the list filters and pagination of the user, finished-product,
  W-cut production, packaging and delivery screens;
- the status machine of the offset-printing order list, with the modal
  that collects a unit number before an order is completed;
- the delivery edit dialog, with its ordered validation, the vehicle
  autocomplete and the driver upsert that runs before the delivery update;
- the packaging drafts, keyed by order, and the edit of a saved package;
- the package label, drawn on a running cursor;
- the two invoice generators: their totals at 18% GST, their `N/A`
  fallbacks, their layout and their file names;
- the number formatters;
- the production-details dialog: how its form is filled and edited, and
  how its reply is classified.

Each screen is a Dafny `class` whose fields are the component's state.
Each handler is a method whose `ensures` states the whole new state.
Pure parts are functions: filters, colour maps, validation, labels, rows
and payloads. Lemmas state what the source promises about them.
Remote calls are never made. A method returns the request it would send
as a value, and the reply comes back as a parameter of a second method.

JavaScript values are modelled explicitly in `JsValues`: `undefined`,
`null`, strings, finite numbers and `NaN`. So are their truthiness, their
template-string rendering and `Number()`. Numbers are exact decimals
(`Decimals.Dec(m, e)` is m / 10^e) with `parseFloat`, `toFixed` and the
number-to-string conversion.

| module | file | models |
|---|---|---|
| `Common` | common.dfy | Option, `filter`, `find`, `slice`, pages of a table |
| `Text` | text.dfy | `trim`, `toLowerCase`, `includes`, `indexOf`, one-character `replace` |
| `Decimals` | decimals.dfy | exact decimals, `parseFloat`, `Number(string)`, `toFixed`, `${n}` |
| `JsValues` | js_values.dfy | field values, `||`, `${v}`, `Number(v) || 0`, `===` |
| `InvoiceCommon` | invoice_common.dfy | GST totals and their cells, shared by both invoices |
| `NumberFormatter` | number_formatter.dfy | src/utils/numberFormatter.js |
| `UpdateNumberFormatting` | update_number_formatting.dfy | src/utils/updateNumberFormatting.js |
| `OpsertOrderList` | opsert_order_list.dfy | src/pages/production/components/OpsertOrderList.jsx |
| `DeliveryManagement` | delivery_management.dfy | src/pages/inventory/DeliveryManagement.jsx |
| `PackagingManagement` | packaging_management.dfy | src/pages/inventory/PackagingManagement.jsx |
| `PdfFinishedProduct` | pdf_finished_product.dfy | src/utils/pdfFinishedProduct.js |
| `PdfGenerator` | pdf_generator.dfy | src/utils/pdfGenerator.js |
| `UpdateDetailsDialog` | update_details_dialog.dfy | src/pages/production/manager/UpdateDetailsDialog.jsx |
| `WCutProductionPage` | wcut_production_page.dfy | src/pages/production/manager/WCutProductionPage.jsx |
| `FinishedProducts` | finished_products.dfy | src/pages/inventory/FinishedProducts.jsx |
| `UserManagement` | user_management.dfy | src/pages/UserManagement.jsx |

In these places the code does something a reader might not expect; the model follows the code:

- The package label's barcode holds only the roll number (or `000000`).
  It is not a composite payload.
- The label's file name is built from the package's GSM, not from a
  package id.
- The sales invoice of `pdfGenerator.js` is named after `invoice_id`, not
  the order id.
- Its subtotal is the stored order price, whatever the quantity.
- Nothing sums package weights.
- A failure from `createDriver` is rethrown as a plain `Error`, so the
  server's message does not reach the operator.
- The finished-product invoice fails when `package_details` holds a
  `null` entry.
- The package label fails when the packaging order has no sales order.
  So a missing section does not always give `N/A`.

## Model

| member | source | states |
|---|---|---|
| Common.Filter | src/pages/UserManagement.jsx:67-75 | `filter` keeps at most as many elements as it is given |
| Common.FilterMembers | src/pages/UserManagement.jsx:67-75 | an element is kept exactly when it is in the list and passes the test |
| Common.FilterCounts | src/pages/UserManagement.jsx:67-75 | a kept element appears as many times as in the list, an element failing the test not at all |
| Common.FilterSubsequence | src/pages/inventory/FinishedProducts.jsx:104-111 | the kept elements are a subsequence of the list: their order is kept |
| Common.FilterTwice | src/pages/inventory/DeliveryManagement.jsx:86-103 | filtering by one test and then another keeps exactly what the conjunction keeps |
| Common.Slice | src/pages/UserManagement.jsx:159 | `slice` clamps both bounds to the length and returns the elements from the start, in order |
| Common.Page | src/pages/UserManagement.jsx:159 | a page holds at most `rowsPerPage` rows, the `k`-th being row `page * rowsPerPage + k` |
| Common.PageShowsEveryRow | src/pages/production/manager/WCutProductionPage.jsx:146-147 | every row appears on the page its index selects, at its offset in that page |
| Common.PagesConcatenate | src/pages/production/manager/WCutProductionPage.jsx:146-147 | the pages read one after another give back the whole list in order |
| Text.TrimIsInfix | src/pages/inventory/DeliveryManagement.jsx:194-196 | `trim` cuts only white space off the two ends, and leaves neither end white |
| Text.TrimEmptyIffBlank | src/pages/inventory/DeliveryManagement.jsx:124-135 | a string trims to `""` exactly when it is all white space |
| Text.Contains | src/pages/UserManagement.jsx:70 | `includes` holds exactly when the query occurs somewhere in the text |
| Text.ContainsEmpty | src/pages/production/manager/WCutProductionPage.jsx:86 | every string includes the empty query |
| Text.ReplaceFirst | src/pages/production/components/OpsertOrderList.jsx:108 | only the first occurrence of the character is replaced, the length kept |
| Text.IndexOf | src/pages/production/components/OpsertOrderList.jsx:108 | the first index holding the character, or -1 exactly when it is absent |
| Decimals.ToFixedShape | src/utils/numberFormatter.js:17 | `toFixed(d)` writes exactly `d` digits after one point, and no point for 0 |
| Decimals.Round | src/utils/numberFormatter.js:17 | the number `toFixed(d)` denotes has `d` decimals and is negative only for a negative input |
| Decimals.RoundIsNearest | src/utils/numberFormatter.js:17 | that number is at most half a unit of the last place away from the input |
| Decimals.ExactRounding | src/utils/numberFormatter.js:17 | with at least as many decimals as the number has, nothing is rounded |
| Decimals.ParseFloatToFixed | src/utils/numberFormatter.js:11-17 | `parseFloat` reads back what `toFixed` wrote as the rounded number, stopping at text that follows |
| Decimals.ToFixedExact | src/utils/numberFormatter.js:11-17 | writing with enough decimals and reading back gives the same number |
| Decimals.NotANumber | src/utils/numberFormatter.js:11-15 | text starting with no space, sign, digit or point is `NaN` to `parseFloat` |
| Decimals.ParseFloatToDisplay | src/utils/pdfFinishedProduct.js:101-102 | `${n}` of a number reads back as that number |
| JsValues.Render | src/utils/pdfFinishedProduct.js:101-102 | a truthy value is never rendered as the empty string |
| JsValues.RenderOr | src/pages/production/manager/UpdateDetailsDialog.jsx:76 | `v \|\| fallback` shows `v` when it is truthy and the fallback otherwise, never `""` for a non-empty fallback |
| JsValues.OrNA | src/utils/pdfGenerator.js:42-45 | `v \|\| 'N/A'` is never empty, and is `N/A` exactly when `v` is falsy or renders as `N/A` |
| JsValues.NumberOrZero | src/utils/pdfFinishedProduct.js:45-46 | `Number(v) \|\| 0` is the number `v` denotes, and 0 for `NaN` |
| JsValues.MissingIsZero | src/utils/pdfFinishedProduct.js:45-46 | missing, blank or non-numeric values count as 0 |
| JsValues.OrText | src/pages/production/manager/WCutProductionPage.jsx:151 | a present non-empty string is shown as it is, anything else as the fallback |
| JsValues.TextOf | src/pages/inventory/DeliveryManagement.jsx:92 | `?.toString() \|\| ""` is empty for a missing value and the rendering otherwise |
| JsValues.StrictEquals | src/pages/inventory/PackagingManagement.jsx:239 | `===` holds only between values of one kind, numbers by value, and never for `NaN` |
| JsValues.StrictEqualsSymmetric | src/pages/inventory/PackagingManagement.jsx:239 | `===` is symmetric |
| InvoiceCommon.TotalsOf | src/utils/pdfGenerator.js:89-90 | GST is 18% of the subtotal and the total is subtotal plus GST, so 118% of it |
| InvoiceCommon.TotalsCells | src/utils/pdfGenerator.js:96-105 | each of the three amounts is written with exactly two decimals |
| InvoiceCommon.TotalsCellsReadBack | src/utils/pdfFinishedProduct.js:134-136 | each written amount reads back as that amount rounded to cents |
| NumberFormatter.FormatNumber | src/utils/numberFormatter.js:6-18 | `null`, `undefined`, `''` and unparseable text give `0.00` whatever the precision; else the `toFixed` of the parsed number |
| NumberFormatter.FormatNumberReadsBack | src/utils/numberFormatter.js:6-18 | a readable value is shown with exactly `decimals` digits after the point and reads back as its rounding |
| NumberFormatter.FormatNumberExact | src/utils/numberFormatter.js:17 | a number with no more decimals than asked for is shown without loss |
| NumberFormatter.FormatCurrency | src/utils/numberFormatter.js:20-23 | the symbol followed by exactly the formatted number |
| NumberFormatter.FormatPercentage | src/utils/numberFormatter.js:25-28 | the formatted number followed by one `%` |
| NumberFormatter.ParseAndFormat | src/utils/numberFormatter.js:30-32 | agrees with `formatNumber` on every input and precision |
| NumberFormatter.PercentageReadsBack | src/utils/numberFormatter.js:25-28 | `parseFloat` of a percentage is the rounded number: reading stops at `%` |
| NumberFormatter.CurrencyDoesNotParse | src/utils/numberFormatter.js:20-23 | a price with the default symbol is `NaN` to `parseFloat` |
| UpdateNumberFormatting.WithUnit | src/utils/updateNumberFormatting.js:32-33 | the formatted number, a space and the unit; `0.00 unit` for a missing value |
| UpdateNumberFormatting.Weight | src/utils/updateNumberFormatting.js:32 | `weight` is the unit composition, defaulting to `kg` |
| UpdateNumberFormatting.Quantity | src/utils/updateNumberFormatting.js:33 | `quantity` is the unit composition, defaulting to `pieces` |
| UpdateNumberFormatting.Currency | src/utils/updateNumberFormatting.js:34 | `currency` is `formatCurrency` with the default symbol and two decimals |
| UpdateNumberFormatting.Percentage | src/utils/updateNumberFormatting.js:35 | `percentage` is `formatPercentage` with two decimals |
| UpdateNumberFormatting.MissingWeight | src/utils/updateNumberFormatting.js:32 | a missing or empty weight is `0.00 kg` |
| UpdateNumberFormatting.WeightReadsBack | src/utils/updateNumberFormatting.js:32 | `parseFloat` of a weight is the value rounded to two decimals |
| UpdateNumberFormatting.QuantityIsWeight | src/utils/updateNumberFormatting.js:32-33 | the two unit formatters agree given a unit and differ only by their default unit |
| OpsertOrderList.StatusColor | src/pages/production/components/OpsertOrderList.jsx:29-33 | pending is warning, in_progress info, completed success, each exactly; every other status default |
| OpsertOrderList.ChipLabel | src/pages/production/components/OpsertOrderList.jsx:108 | same length; the first `_` becomes a space and every other character is upper-cased |
| OpsertOrderList.ChipLabelKeepsLaterUnderscores | src/pages/production/components/OpsertOrderList.jsx:108 | an underscore after the first stays in the label |
| OpsertOrderList.Offered | src/pages/production/components/OpsertOrderList.jsx:114-146 | at most one button: Start Printing for pending, Complete Order for in_progress, Move to Packaging for completed, none exactly for the statuses without a colour |
| OpsertOrderList.CompletionRequest | src/pages/production/components/OpsertOrderList.jsx:51-57 | no request exactly without a unit; else `completed` for the selected order with that unit and the fixed remark |
| OpsertOrderList.UpdateNotice | src/pages/production/components/OpsertOrderList.jsx:37-44 | success names the new status with its first `_` as a space; failure gives the fixed message |
| OpsertOrderList.PackagingNotice | src/pages/production/components/OpsertOrderList.jsx:58-67 | success refreshes the parent and failure does not, each with its message |
| OpsertOrderList.OrderList.constructor | src/pages/production/components/OpsertOrderList.jsx:26-28 | the modal is closed, no order is selected and no unit chosen |
| OpsertOrderList.OrderList.Press | src/pages/production/components/OpsertOrderList.jsx:114-146 | Start Printing requests `in_progress` with `'Printing started'` as the unit and no remark; Complete Order only opens the modal for that order; Move to Packaging requests the move |
| OpsertOrderList.OrderList.OpenModal | src/pages/production/components/OpsertOrderList.jsx:47-50 | the modal opens for that order and the unit is kept |
| OpsertOrderList.OrderList.ChooseUnit | src/pages/production/components/OpsertOrderList.jsx:168-174 | only the chosen unit changes |
| OpsertOrderList.OrderList.CloseModal | src/pages/production/components/OpsertOrderList.jsx:158 | only the modal closes |
| OpsertOrderList.OrderList.Submit | src/pages/production/components/OpsertOrderList.jsx:51-57 | without a unit, an error and no request; with one, the completion request; the state is untouched |
| OpsertOrderList.OrderList.StatusUpdated | src/pages/production/components/OpsertOrderList.jsx:35-45 | success closes the modal and refreshes; failure changes nothing |
| DeliveryManagement.Filtered | src/pages/inventory/DeliveryManagement.jsx:86-103 | the filtered table is never longer than the deliveries |
| DeliveryManagement.FilteredMembers | src/pages/inventory/DeliveryManagement.jsx:86-103 | a delivery is listed exactly when one of its texts contains the query (the order id as typed, the others ignoring case) and its status is the chosen one, in the table's order |
| DeliveryManagement.NoFilterKeepsAll | src/pages/inventory/DeliveryManagement.jsx:86-103 | an empty search and no status list every delivery |
| DeliveryManagement.StatusColor | src/pages/inventory/DeliveryManagement.jsx:322-330 | delivered success, pending warning, in_transit info, each exactly; anything else default |
| DeliveryManagement.EditForm | src/pages/inventory/DeliveryManagement.jsx:72-83 | each field or `''`; the current time when there is no delivery date; never `delivered` for an editable row |
| DeliveryManagement.ChangeField | src/pages/inventory/DeliveryManagement.jsx:111-117 | only the named field takes the value |
| DeliveryManagement.FindExact | src/pages/inventory/DeliveryManagement.jsx:389-391 | the first driver whose vehicle number is `===` the choice, a cleared choice matching a `null` vehicle number; none exactly when no driver matches |
| DeliveryManagement.Prefill | src/pages/inventory/DeliveryManagement.jsx:388-407 | a matched driver fills in its name and contact and the choice (`''` for `null`); any other choice keeps it or `''` and clears both; id, date and status untouched |
| DeliveryManagement.ClearedChoiceFindsNullPlate | src/pages/inventory/DeliveryManagement.jsx:388-398 | clearing the choice fills in the first driver stored with a `null` vehicle number, and leaves the vehicle field empty |
| DeliveryManagement.Validate | src/pages/inventory/DeliveryManagement.jsx:119-145 | valid exactly when no field is blank; otherwise the message of the first blank field in check order |
| DeliveryManagement.BlankIsMissing | src/pages/inventory/DeliveryManagement.jsx:124-135 | a vehicle, name or contact of white space only fails validation |
| DeliveryManagement.FindDriver | src/pages/inventory/DeliveryManagement.jsx:167-169 | the first driver whose vehicle number equals the form's ignoring case, or none exactly when none does |
| DeliveryManagement.DriverRequest | src/pages/inventory/DeliveryManagement.jsx:171-185 | update exactly when a driver matches, that driver's id; else create; the fields as typed |
| DeliveryManagement.DeliveryRequest | src/pages/inventory/DeliveryManagement.jsx:193-199 | the delivery's id; vehicle, name and contact trimmed; the converted date; the status as chosen |
| DeliveryManagement.SaveSteps | src/pages/inventory/DeliveryManagement.jsx:147-212 | invalid sends nothing and reports the first blank; valid sends the driver request, then the delivery update; the dialog closes exactly when every step succeeds |
| DeliveryManagement.SaveAsWritten | src/pages/inventory/DeliveryManagement.jsx:171-177 | as written, an invalid form or an unknown vehicle behaves as intended |
| DeliveryManagement.KnownVehicleNeverSaves | src/pages/inventory/DeliveryManagement.jsx:171-177 | as written, a valid form with a known vehicle sends nothing and never closes, where the intended save succeeds |
| DeliveryManagement.SavedFieldsAreTrimmed | src/pages/inventory/DeliveryManagement.jsx:193-199 | whatever is saved has vehicle, name and contact non-empty with no white space at either end |
| DeliveryManagement.DeliveryScreen.constructor | src/pages/inventory/DeliveryManagement.jsx:36-51 | empty lists and a blank form; first page of 10 rows |
| DeliveryManagement.DeliveryScreen.Shown | src/pages/inventory/DeliveryManagement.jsx:214-217 | at most a page of filtered rows, in order from `page * rowsPerPage` |
| DeliveryManagement.DeliveryScreen.Loaded | src/pages/inventory/DeliveryManagement.jsx:53-66 | `data \|\| []` for both lists, nothing else changed |
| DeliveryManagement.DeliveryScreen.Edit | src/pages/inventory/DeliveryManagement.jsx:72-83 | the row is selected and the form holds its fields |
| DeliveryManagement.DeliveryScreen.Change | src/pages/inventory/DeliveryManagement.jsx:111-117 | only the named field changes; the dialog never holds `delivered` |
| DeliveryManagement.DeliveryScreen.ChooseVehicle | src/pages/inventory/DeliveryManagement.jsx:388-407 | the form is prefilled from the chosen vehicle |
| DeliveryManagement.DeliveryScreen.TypeVehicle | src/pages/inventory/DeliveryManagement.jsx:408-413 | only the vehicle number changes |
| DeliveryManagement.DeliveryScreen.Close | src/pages/inventory/DeliveryManagement.jsx:367 | the dialog closes and the form stays |
| DeliveryManagement.DeliveryScreen.Save | src/pages/inventory/DeliveryManagement.jsx:147-212 | the save as written: an unknown vehicle follows the intended plan, a valid form with a known vehicle fails with no request; the dialog closes exactly on success; no request ever saves `delivered`; `saving` ends false |
| DeliveryManagement.DeliveryScreen.Settle | src/pages/inventory/DeliveryManagement.jsx:201-210 | `saving` is cleared and a success closes the dialog |
| DeliveryManagement.DeliveryScreen.Search | src/pages/inventory/DeliveryManagement.jsx:232 | only the query changes; the page is not reset |
| DeliveryManagement.DeliveryScreen.FilterStatus | src/pages/inventory/DeliveryManagement.jsx:238 | only the status filter changes; the page is not reset |
| DeliveryManagement.DeliveryScreen.ChangePage | src/pages/inventory/DeliveryManagement.jsx:105 | only the page changes |
| DeliveryManagement.DeliveryScreen.ChangeRowsPerPage | src/pages/inventory/DeliveryManagement.jsx:106-109 | the new page size, back on the first page |
| PackagingManagement.Filtered | src/pages/inventory/PackagingManagement.jsx:88-97 | never longer than the orders |
| PackagingManagement.FilteredMembers | src/pages/inventory/PackagingManagement.jsx:88-97 | an order is listed exactly when its customer name or id contains the query ignoring case and its status is the chosen one, in table order |
| PackagingManagement.NoFilterKeepsAll | src/pages/inventory/PackagingManagement.jsx:88-97 | an empty search and no status list every order |
| PackagingManagement.FindOrder | src/pages/inventory/PackagingManagement.jsx:135 | an order with that id is found exactly when one exists |
| PackagingManagement.DraftsOf | src/pages/inventory/PackagingManagement.jsx:152 | the order's drafts, or none when it has no list |
| PackagingManagement.SetDimension | src/pages/inventory/PackagingManagement.jsx:158-165 | only the named input of the draft changes |
| PackagingManagement.SetDimensionSame | src/pages/inventory/PackagingManagement.jsx:158-165 | writing an input's own value back changes nothing |
| PackagingManagement.Measure | src/pages/inventory/PackagingManagement.jsx:176-181 | one `parseFloat`-read entry per draft, in order |
| PackagingManagement.BlankMeasuresNothing | src/pages/inventory/PackagingManagement.jsx:176-181 | a blank draft is saved with every size `NaN` |
| PackagingManagement.Edited | src/pages/inventory/PackagingManagement.jsx:229-235 | the package with the dialog's four sizes and every other field kept |
| PackagingManagement.ReplaceById | src/pages/inventory/PackagingManagement.jsx:238-240 | the intended replacement among listed packages: same length; exactly the entries whose `_id` is `===` the id are replaced |
| PackagingManagement.ReplaceMissing | src/pages/inventory/PackagingManagement.jsx:238-240 | without a matching id (a `NaN` id included) the list is unchanged |
| PackagingManagement.ReplaceTwice | src/pages/inventory/PackagingManagement.jsx:238-240 | replacing again with the same package changes nothing more |
| PackagingManagement.ListedRows | src/pages/inventory/PackagingManagement.jsx:561-593 | a non-empty array lists its first record's `package_details`; an object or an empty array lists nothing; `undefined`, or a first entry without details, makes the render throw |
| PackagingManagement.MapById | src/pages/inventory/PackagingManagement.jsx:238-240 | `packages.map` on the record array: same length; exactly the entries whose own `_id` is `===` the id become the edited package |
| PackagingManagement.LocalUpdateMissesDetail | src/pages/inventory/PackagingManagement.jsx:238-240 | when no record carries the edited detail's `_id`, the local update leaves the list, and what it shows, as it was |
| PackagingManagement.RefreshShowsNothing | src/pages/inventory/PackagingManagement.jsx:245-247 | storing the whole refetched body (or `[]`) leaves the dialog with no package to list |
| PackagingManagement.IntendedRefreshLists | src/pages/inventory/PackagingManagement.jsx:202-204 | the intended refresh lists the first fetched record's details, or nothing without records |
| PackagingManagement.IntendedUpdate | src/pages/inventory/PackagingManagement.jsx:238-240 | the intended local update changes only the first record's details, by `_id`, and keeps every other entry |
| PackagingManagement.IntendedUpdateLists | src/pages/inventory/PackagingManagement.jsx:238-240 | with the intended update each listed package is the edited one exactly when its `_id` matches, the rest unchanged |
| PackagingManagement.OrderValues | src/pages/inventory/PackagingManagement.jsx:376-384 | seven order values, each the field or `N/A` and never empty |
| PackagingManagement.FabricValues | src/pages/inventory/PackagingManagement.jsx:389-393 | the bag's type and colour or `N/A`, then the fixed `1`, `SW350`, `1` |
| PackagingManagement.SizeValues | src/pages/inventory/PackagingManagement.jsx:395-399 | GSM, width, length and the two weights, each or `N/A` and never empty |
| PackagingManagement.OrderBlock | src/pages/inventory/PackagingManagement.jsx:376-384 | seven lines |
| PackagingManagement.FabricBlock | src/pages/inventory/PackagingManagement.jsx:389-393 | five lines |
| PackagingManagement.SizeBlock | src/pages/inventory/PackagingManagement.jsx:395-399 | five lines |
| PackagingManagement.OrderBlockLines | src/pages/inventory/PackagingManagement.jsx:376-384 | line `i` carries the `i`-th caption and value, one line height lower per line |
| PackagingManagement.FabricBlockLines | src/pages/inventory/PackagingManagement.jsx:389-399 | both columns of the fabric block are such stacks, at the left margin and mid-page |
| PackagingManagement.Layout | src/pages/inventory/PackagingManagement.jsx:357-406 | a label has 23 marks |
| PackagingManagement.LayoutPositions | src/pages/inventory/PackagingManagement.jsx:357-406 | company lines at 15-45, separator at 55, order lines from 65 every 12, fabric block from 157 in two columns, barcode at 249 |
| PackagingManagement.LayoutMovesDown | src/pages/inventory/PackagingManagement.jsx:357-406 | down the left margin every mark is strictly below the one before, and the barcode below all |
| PackagingManagement.LabelNeverBlank | src/pages/inventory/PackagingManagement.jsx:376-384 | every order line of a label ends with a non-empty value |
| PackagingManagement.Draw | src/pages/inventory/PackagingManagement.jsx:357-406 | drawing on the running cursor yields exactly the layout |
| PackagingManagement.ComposeLabel | src/pages/inventory/PackagingManagement.jsx:306-414 | refused with the error toast exactly without a package or order; fails, with no toast, exactly without a sales order; else the success toast and the layout, logo at 10 if loaded, barcode of `rollNo` or `000000`, file `package-label-<gsm>.pdf` |
| PackagingManagement.PackagingScreen.constructor | src/pages/inventory/PackagingManagement.jsx:53-70 | nothing selected, `packages` an empty array, dialogs closed, first page of 10 |
| PackagingManagement.PackagingScreen.Shown | src/pages/inventory/PackagingManagement.jsx:470 | at most a page of filtered orders, in order |
| PackagingManagement.PackagingScreen.Loaded | src/pages/inventory/PackagingManagement.jsx:72-81 | the fetched orders replace the list |
| PackagingManagement.PackagingScreen.SelectOrder | src/pages/inventory/PackagingManagement.jsx:132-144 | the found order is selected; a known order makes `packages` a draft map with one blank draft for it and the other drafts unchanged; an unknown id changes nothing |
| PackagingManagement.PackagingScreen.AddDraft | src/pages/inventory/PackagingManagement.jsx:147-156 | one blank draft appended to the selected order's list in the draft map, made if absent; no-op without a selection or when `packages` is `undefined` |
| PackagingManagement.PackagingScreen.ChangeDraft | src/pages/inventory/PackagingManagement.jsx:158-165 | exactly one input of one draft changes; every other draft and order is unchanged |
| PackagingManagement.PackagingScreen.SavePackages | src/pages/inventory/PackagingManagement.jsx:167-191 | no selection: error, no request; no draft list for the order: failure; else the order id and one measured entry per draft |
| PackagingManagement.PackagingScreen.PackagesSaved | src/pages/inventory/PackagingManagement.jsx:184-190 | success clears as Cancel does; failure changes nothing |
| PackagingManagement.PackagingScreen.Cancel | src/pages/inventory/PackagingManagement.jsx:300-305 | nothing selected, `packages` the empty object so nothing is listed, both dialogs closed |
| PackagingManagement.PackagingScreen.ViewPackages | src/pages/inventory/PackagingManagement.jsx:196-208 | the order is selected and the list opens either way; an answered fetch stores the body's `packages`, listing the first record's details (a render failure without the field); a failed fetch keeps `packages` |
| PackagingManagement.PackagingScreen.EditPackage | src/pages/inventory/PackagingManagement.jsx:211-220 | the package is selected with its four sizes; editing them unchanged gives it back |
| PackagingManagement.PackagingScreen.ChangeSize | src/pages/inventory/PackagingManagement.jsx:698-725 | only the named size changes |
| PackagingManagement.PackagingScreen.UpdateSelected | src/pages/inventory/PackagingManagement.jsx:223-244 | refused without a package and order; nothing sent or changed unless `packages` is an array; else the record-level `map` by `_id`, same length, and the update is sent |
| PackagingManagement.PackagingScreen.PackageUpdated | src/pages/inventory/PackagingManagement.jsx:245-253 | success stores the whole refetched body (or `[]`), so nothing is listed, and closes the edit dialog; failure changes nothing |
| PackagingManagement.PackagingScreen.Search | src/pages/inventory/PackagingManagement.jsx:431 | only the query changes |
| PackagingManagement.PackagingScreen.FilterStatus | src/pages/inventory/PackagingManagement.jsx:437 | only the status filter changes |
| PackagingManagement.PackagingScreen.OpenAdd | src/pages/inventory/PackagingManagement.jsx:446-452 | the add dialog opens; nothing else changes |
| PackagingManagement.PackagingScreen.ChangePage | src/pages/inventory/PackagingManagement.jsx:105 | only the page changes |
| PackagingManagement.PackagingScreen.ChangeRowsPerPage | src/pages/inventory/PackagingManagement.jsx:106-109 | the new size, back on the first page |
| PdfFinishedProduct.Amounts | src/utils/pdfFinishedProduct.js:47-49 | subtotal is quantity times price, GST 18% of it, total their sum |
| PdfFinishedProduct.TenAtFifty | src/utils/pdfFinishedProduct.js:45-49 | 10 at 50 gives 500, 90 and 590 |
| PdfFinishedProduct.MissingQuantityIsZero | src/utils/pdfFinishedProduct.js:45-58 | a missing, blank or non-numeric quantity is 0, its cell `N/A`, every total 0 |
| PdfFinishedProduct.NoneAtAnyPrice | src/utils/pdfFinishedProduct.js:47-49 | a zero quantity makes every total 0 whatever the price |
| PdfFinishedProduct.OrderRow | src/utils/pdfFinishedProduct.js:54-59 | four cells; job name never empty; quantity `N/A` exactly for 0, else the number |
| PdfFinishedProduct.OrderRowCents | src/utils/pdfFinishedProduct.js:57-58 | price and subtotal have exactly two decimals and read back as the amounts rounded to cents |
| PdfFinishedProduct.BagRow | src/utils/pdfFinishedProduct.js:71-77 | five non-empty cells, all `N/A` without a bag |
| PdfFinishedProduct.ProductionRow | src/utils/pdfFinishedProduct.js:87-93 | five non-empty cells, all `N/A` without production details |
| PdfFinishedProduct.PackageRow | src/utils/pdfFinishedProduct.js:100-103 | `LxWxH cm` and `W kg` from the sizes as rendered, `undefined` included |
| PdfFinishedProduct.PackageRows | src/utils/pdfFinishedProduct.js:100-103 | one row per entry in order; failure exactly when an entry is `null` |
| PdfFinishedProduct.PackageBody | src/utils/pdfFinishedProduct.js:100-103 | the single row `N/A`, `N/A` without a list; the rows otherwise |
| PdfFinishedProduct.NoPackagesNoRows | src/utils/pdfFinishedProduct.js:100-103 | an empty list gives a table with no rows |
| PdfFinishedProduct.DeliveryRow | src/utils/pdfFinishedProduct.js:118-123 | driver, contact and vehicle never empty; the date text exactly when there is a date, else `N/A` |
| PdfFinishedProduct.StackedGoesDown | src/utils/pdfFinishedProduct.js:65-127 | each later table starts at least 10 below the end of every earlier one |
| PdfFinishedProduct.FileName | src/utils/pdfFinishedProduct.js:152 | `Invoice_<order_id>.pdf`, or `Invoice_N/A.pdf` without an id |
| PdfFinishedProduct.DrawHeader | src/utils/pdfFinishedProduct.js:11-44 | the header marks, and the first table at 93 |
| PdfFinishedProduct.DrawTables | src/utils/pdfFinishedProduct.js:44-141 | the six tables with their rows, in order, stacked 10 apart; none exactly when the package rows fail |
| PdfFinishedProduct.GenerateInvoice | src/utils/pdfFinishedProduct.js:8-157 | thrown `Failed to generate PDF` exactly when the package rows fail; else header, six stacked tables from 93, footer and file name |
| PdfGenerator.Subtotal | src/utils/pdfGenerator.js:88 | the stored price's number, 0 when it is not one |
| PdfGenerator.QuantityIgnored | src/utils/pdfGenerator.js:88-90 | two invoices with the same price have the same totals |
| PdfGenerator.PriceFiveHundred | src/utils/pdfGenerator.js:88-90 | a price of 500 gives 500, 90 and 590 |
| PdfGenerator.MissingPriceIsZero | src/utils/pdfGenerator.js:88-90 | a missing, blank or non-numeric price gives 0 throughout |
| PdfGenerator.BillToLines | src/utils/pdfGenerator.js:41-46 | customer, address, phone, email; never empty; all `N/A` without order details |
| PdfGenerator.InfoLines | src/utils/pdfGenerator.js:49-54 | invoice no, order no, date, status; each falsy field `N/A`; the date as the locale wrote it |
| PdfGenerator.ProductionLines | src/utils/pdfGenerator.js:81-85 | roll size, cylinder size, kg; never empty; all `N/A` without details |
| PdfGenerator.OrderCells | src/utils/pdfGenerator.js:59-65 | job, quantity, price, each rendered or `N/A`; all `N/A` without order details |
| PdfGenerator.FileName | src/utils/pdfGenerator.js:114 | `Invoice_<invoice_id>.pdf`, or `Invoice_N/A.pdf`; the order id plays no part |
| PdfGenerator.DrawHeader | src/utils/pdfGenerator.js:13-57 | the header marks, and the order table at 120 |
| PdfGenerator.DrawBody | src/utils/pdfGenerator.js:77-105 | the production block and the totals below the table's end |
| PdfGenerator.Draw | src/utils/pdfGenerator.js:13-114 | draws the blocks it is given in their place around the table at 120 |
| PdfGenerator.GenerateInvoicePdf | src/utils/pdfGenerator.js:5-115 | header, one-row table at 120, production and totals below it, footer, file name |
| PdfGenerator.HeaderAboveBodyBelow | src/utils/pdfGenerator.js:13-105 | the header is above the table, and all after it is within 50 below its end |
| PdfGenerator.TotalsLines | src/utils/pdfGenerator.js:92-105 | the three labels at `y`, `y+10`, `y+20`, each with its amount on its line |
| UpdateDetailsDialog.OrEmpty | src/pages/production/manager/UpdateDetailsDialog.jsx:25-29 | `v \|\| ''`: a truthy value as it is, else `''` |
| UpdateDetailsDialog.InitialForm | src/pages/production/manager/UpdateDetailsDialog.jsx:18-42 | the record's five details each or `''`, else a blank form; the type from the prop either way |
| UpdateDetailsDialog.ChangeField | src/pages/production/manager/UpdateDetailsDialog.jsx:44-50 | the named field takes the text; every other field and the type are unchanged |
| UpdateDetailsDialog.ChangeSameText | src/pages/production/manager/UpdateDetailsDialog.jsx:44-50 | typing a field's own text again leaves the form as it was |
| UpdateDetailsDialog.Classify | src/pages/production/manager/UpdateDetailsDialog.jsx:58-81 | closes exactly for a reply with data whose manager is not `null`, exactly on success; reloads only then and if given; each failure with its message |
| UpdateDetailsDialog.MissingManagerPasses | src/pages/production/manager/UpdateDetailsDialog.jsx:64-68 | data without any `production_manager` counts as success |
| UpdateDetailsDialog.ErrorWithoutMessage | src/pages/production/manager/UpdateDetailsDialog.jsx:75-77 | an error response without a message shows the fixed message |
| UpdateDetailsDialog.DetailsDialog.constructor | src/pages/production/manager/UpdateDetailsDialog.jsx:8-15 | blank fields and the type from the prop |
| UpdateDetailsDialog.DetailsDialog.Load | src/pages/production/manager/UpdateDetailsDialog.jsx:18-42 | the form is the initial form of the record and type |
| UpdateDetailsDialog.DetailsDialog.Change | src/pages/production/manager/UpdateDetailsDialog.jsx:44-50 | only the named field takes the text |
| UpdateDetailsDialog.SubmitBlocked | src/pages/production/manager/UpdateDetailsDialog.jsx:86-131 | the submit is refused exactly when one of the four `required` inputs (roll size, cylinder size, both quantities) is empty |
| UpdateDetailsDialog.BlankFormBlocked | src/pages/production/manager/UpdateDetailsDialog.jsx:86-131 | a blank form cannot be submitted |
| UpdateDetailsDialog.ChangeBlocks | src/pages/production/manager/UpdateDetailsDialog.jsx:44-50 | emptying a required input blocks the submit; editing the remarks never changes whether it is blocked |
| UpdateDetailsDialog.DetailsDialog.Submit | src/pages/production/manager/UpdateDetailsDialog.jsx:52-131 | nothing is sent or shown exactly while a required input is empty; else the form as it is goes out with the order id, the outcome is the classification, and a reload comes only after success |
| WCutProductionPage.Filtered | src/pages/production/manager/WCutProductionPage.jsx:84-92 | never longer than the records |
| WCutProductionPage.FilteredMembers | src/pages/production/manager/WCutProductionPage.jsx:84-92 | listed exactly when job name (ignoring case) or order id contains the query and the status matches, in order |
| WCutProductionPage.EmptySearchNeedsAName | src/pages/production/manager/WCutProductionPage.jsx:84-92 | with no search and no status, exactly the records with a job name or an order id are listed |
| WCutProductionPage.ChipColor | src/pages/production/manager/WCutProductionPage.jsx:160-168 | success exactly for `Completed`, warning exactly for `Pending`, case-sensitive; default otherwise |
| WCutProductionPage.ChosenStatusChipIsDefault | src/pages/production/manager/WCutProductionPage.jsx:117-120 | every record a status choice lets through has a default chip |
| WCutProductionPage.RowCells | src/pages/production/manager/WCutProductionPage.jsx:150-160 | nine cells; all but id and quantity never empty; missing job, bag or status shows `N/A` |
| WCutProductionPage.ProductionTable.constructor | src/pages/production/manager/WCutProductionPage.jsx:15-24 | no records, empty filters, first page of 5 |
| WCutProductionPage.ProductionTable.Shown | src/pages/production/manager/WCutProductionPage.jsx:146-147 | at most a page of filtered rows, in order from `page * rowsPerPage` |
| WCutProductionPage.ProductionTable.Count | src/pages/production/manager/WCutProductionPage.jsx:189 | the count is the filtered length, at most the records' |
| WCutProductionPage.ProductionTable.Loaded | src/pages/production/manager/WCutProductionPage.jsx:30-40 | `response.data \|\| []` replaces the records |
| WCutProductionPage.ProductionTable.Search | src/pages/production/manager/WCutProductionPage.jsx:64-67 | the query changes and the first page of the new rows is shown |
| WCutProductionPage.ProductionTable.FilterStatus | src/pages/production/manager/WCutProductionPage.jsx:69-72 | the status changes and the first page of the new rows is shown |
| WCutProductionPage.ProductionTable.ChangePage | src/pages/production/manager/WCutProductionPage.jsx:74-76 | only the page changes |
| WCutProductionPage.ProductionTable.ChangeRowsPerPage | src/pages/production/manager/WCutProductionPage.jsx:78-81 | the new size, back on the first page |
| FinishedProducts.Filtered | src/pages/inventory/FinishedProducts.jsx:104-111 | never longer than the products |
| FinishedProducts.FilteredMembers | src/pages/inventory/FinishedProducts.jsx:104-111 | listed exactly when the status matches and the search is empty, in the id, or in the customer name ignoring case; in order |
| FinishedProducts.NoFiltersKeepAll | src/pages/inventory/FinishedProducts.jsx:104-111 | no filters list every product |
| FinishedProducts.StatusColor | src/pages/inventory/FinishedProducts.jsx:86-94 | delivered success, pending warning, completed primary, out_of_stock error, each exactly; default otherwise |
| FinishedProducts.SetFilter | src/pages/inventory/FinishedProducts.jsx:96-98 | the named filter takes the value and the other keeps its own |
| FinishedProducts.ProductsScreen.constructor | src/pages/inventory/FinishedProducts.jsx:27-32 | no products and empty filters |
| FinishedProducts.ProductsScreen.Rows | src/pages/inventory/FinishedProducts.jsx:104-111 | the rows on show are a subsequence of the products |
| FinishedProducts.ProductsScreen.Loaded | src/pages/inventory/FinishedProducts.jsx:38-49 | the fetched products, or none and the fixed toast on failure |
| FinishedProducts.ProductsScreen.ChangeFilter | src/pages/inventory/FinishedProducts.jsx:96-98 | only the named filter changes |
| FinishedProducts.ProductsScreen.ResetFilters | src/pages/inventory/FinishedProducts.jsx:100-102 | both filters cleared, so every product is listed |
| UserManagement.Matching | src/pages/UserManagement.jsx:63-80 | never longer than the users |
| UserManagement.MatchingMembers | src/pages/UserManagement.jsx:63-80 | listed exactly when the search (name or e-mail ignoring case, mobile exactly) and the status (`all` or equal) both pass, in order |
| UserManagement.NoFiltersKeepAll | src/pages/UserManagement.jsx:63-80 | the empty search and `all` list every user |
| UserManagement.SetFilter | src/pages/UserManagement.jsx:83-89 | the named filter takes the value and the other keeps its own |
| UserManagement.SequencedFilters | src/pages/UserManagement.jsx:63-80 | the effect's two filters applied in turn, each only when set, keep exactly the matching users |
| UserManagement.UserList.constructor | src/pages/UserManagement.jsx:32-40 | no users, the empty search and `all`, first page of 5 |
| UserManagement.UserList.Shown | src/pages/UserManagement.jsx:159 | at most a page of filtered users, in order from `page * rowsPerPage` |
| UserManagement.UserList.ApplyFilters | src/pages/UserManagement.jsx:63-80 | the filtered list is exactly the matching users and the page is reset |
| UserManagement.UserList.Loaded | src/pages/UserManagement.jsx:44-57 | `response?.data \|\| []` becomes the users, then the effect runs |
| UserManagement.UserList.LoadFailed | src/pages/UserManagement.jsx:50-53 | no users, the fixed toast, then the effect |
| UserManagement.UserList.ChangeFilter | src/pages/UserManagement.jsx:83-89 | the named filter changes and the effect runs |
| UserManagement.UserList.ResetFilters | src/pages/UserManagement.jsx:141-146 | the empty search and `all`, so every user is listed from the first page |
| UserManagement.UserList.ChangePage | src/pages/UserManagement.jsx:148-150 | only the page changes |
| UserManagement.UserList.ChangeRowsPerPage | src/pages/UserManagement.jsx:153-156 | the new size, back on the first page |

## Left out

- Rendering: JSX markup, MUI components, styles, loading spinners and `console` output are presentation only. Toasts are kept, as a `Notice` value.
- Remote calls: no call to the services is made. Each is a request value, and its reply is a parameter. The services behind them (productService, adminService, productionManagerService, dcutOpsertService, PackageService) are not part of this model; nor is the `api` client behind src/services/deliveryService.js.
- Asynchrony: each handler is split at its `await` into a method that builds the request and a method that takes the reply. Two operators editing one record are not modelled.
- Floating point: numbers are exact decimals. `toFixed` rounds the exact value half away from zero, where JavaScript rounds the nearest double. `-0` is not modelled, nor are `Infinity` and the hexadecimal (`0x`), octal (`0o`) and binary (`0b`) literals that `Number` reads: `Number("0b101")` is 5 in JavaScript, and `NaN` here, so `Number(v) || 0` gives 0 for it.
- Decimals.ToDisplay: writes every number in plain decimal digits. JavaScript's `String(n)` switches to exponent notation from 1e21 up and below 1e-6 (`1e-7`), which the model does not write. `ParseFloatToDisplay` holds for both forms.
- Decimals.ToFixed: always writes plain digits with `d` decimals. JavaScript's `toFixed` returns `String(x)` for `|x| >= 1e21` (`(1e21).toFixed(2)` is `"1e+21"`), which the model does not write.
- Decimals.ToFixedShape: states the plain-digit shape for every number, so it promises, for `|x| >= 1e21`, a shape the source does not produce.
- NumberFormatter.FormatNumber: writes an input of `1e21` or more in plain digits through Decimals.ToFixed, where the source gives exponent form. FormatCurrency, FormatPercentage and the UpdateNumberFormatting helpers inherit this.
- NumberFormatter.FormatNumber: requires `decimals <= 100`, because `toFixed` throws a RangeError beyond that and the model has no exception for it.
- Text.ToLower: changes ASCII letters only, not the whole of Unicode. The searches that use it ignore case for ASCII letters only.
- Text.ToUpper: changes ASCII letters only, not the whole of Unicode (nor the letters whose upper case is longer, such as `ß`).
- OpsertOrderList.ChipLabel: is upper-cased by Text.ToUpper, so a status with non-ASCII letters keeps them as they are. The statuses the server sends are ASCII.
- Dates and locales: the current time, `toISOString` and the locale date texts are parameters. A date `toISOString` cannot convert is `isoDate` None. The `Invalid Date` that `generateInvoicePDF` writes for a missing `createdAt` is just another date text.
- The PDF and image libraries: jsPDF, autoTable, JsBarcode, canvas and the logo's loading are left out. A table's height is an input, and the barcode and logo are marks at their heights.
- PdfGenerator.GenerateInvoicePdf: has no failure path. None of the inputs it models makes the source throw, so its `Failed to generate PDF` rethrow needs a library failure, and those are left out.
- Cell types: `generateInvoicePDF` puts non-string values into autoTable cells, and the model shows them as `${v}`.
- The `numberPatterns` regex table (src/utils/updateNumberFormatting.js:10-28) is data for a scanning tool; no code here runs it.
- The default currency symbol, as the source spells it (mis-decoded), is an opaque constant.
- OpsertOrderList.StatusColor: `{...}[status]` also finds inherited object properties such as `constructor`. The model treats every unlisted string as default.
- FinishedProducts.StatusColor: the same `colors[status] || 'default'` lookup also finds inherited properties (`constructor`, `toString`, ...), for which the source hands the chip a function. The model treats every unlisted string as default.
- OpsertOrderList.OrderList.Press: requires the action to be the one the row offers, because the other buttons are not rendered.
- Packaging's `packages` state: `{ ...packages, [id]: drafts }` on an array or on the stored response also copies their own keys (array indices, response fields) into the draft map. The model keeps only the draft keys, which differs only for an order whose id is such a key.
- PackagingManagement.PackagingScreen.UpdateSelected: when `packages.map` throws, the source rejects its promise unhandled; the model sends nothing, shows nothing and changes nothing.
- PackagingManagement.FindOrder: compares `order_id` with the select's value, which is always a string. The model types `order_id` as a string, so a record with a numeric `order_id`, which the source never matches, is not modelled.
- PackagingManagement.PackagingScreen.AddDraft: when `packages` is `undefined` the source throws on `packages[order_id]`; the model leaves the state unchanged.
- PackagingManagement.PackagingScreen.ChangeDraft: requires `packages` to be the draft map, the order to have a draft list in it and the index to be in that list. The inputs that call it exist only for listed drafts. The source writes the field into the shared draft object in place, and the model writes into a copy. Aliasing between drafts is therefore not captured.
- Other packaging handlers: `handleStatusUpdateClick` and `handleStatusUpdate` (lines 99-128) belong to the delivery-status modal, which is not part of this model. So do `createPackages` and `handleOpenDialog`/`handleCloseDialog` (256-297), and the failure toast of `fetchOrders`.
- DeliveryManagement.DeliveryScreen.Edit: requires a row that is not delivered, because its button is disabled for those. `if (!delivery) return` cannot happen with a row.
- DeliveryManagement.DeliveryScreen.Change: for the status, requires one of the statuses the dialog's select offers.
- The delivery chip's text goes through `formatSnakeCase`, which is not part of this model. The failure toast of `fetchDeliveries` is not modelled either.
- Handlers not part of this model: view, add, edit, delete and download in WCutProductionPage, FinishedProducts and UserManagement. So are the failure path of `fetchRecords` (a console message only) and `handleEdit`/`handleDelete`/`handleFormSubmit` in UserManagement.
- UserManagement.Matching: assumes every user has a string `fullName`, `email` and `mobileNumber`. With a search set, the source throws a TypeError inside the effect for a user lacking a field its test reaches (src/pages/UserManagement.jsx:68-70), and the list is then not updated.
- FinishedProducts: `order_id` is taken to be a string. `orderDetails` present without a `customerName` would throw in the source; the model does not throw there.
- DeliveryManagement.FindExact: the Autocomplete's choice is a string or `null`; a choice of `undefined`, from a driver without a vehicle number among the options, is not modelled.
- The `saving` flag of the delivery dialog is modelled, but not its transient value while requests are in flight.

## Findings

The screens model the code as written. Each corrected definition stands beside the as-written one, with the intended property proved about it.

| source | as written | input that shows it | evidently intended | confidence | as-written member | corrected member |
|---|---|---|---|---|---|---|
| src/pages/inventory/DeliveryManagement.jsx:173 | calls `deliveryService.updateDriver`, which the service object (src/services/deliveryService.js:3-65) does not define; the call throws a TypeError before any request, and the save reports failure | a valid form whose vehicle number matches an existing driver's ignoring case | update that driver, then update the delivery | not executed | DeliveryManagement.SaveAsWritten, DeliveryManagement.KnownVehicleNeverSaves | DeliveryManagement.SavePlan, DeliveryManagement.SaveSteps |
| src/pages/inventory/PackagingManagement.jsx:245-247 | after a successful update, stores the whole refetched body (`{ packages: [...] }`) instead of its `packages` array; the list dialog then shows `No packages found` | any successful package update | store `fetched.packages \|\| []`, as `handleViewPackages` does at lines 202-204 | not executed | PackagingManagement.PackagingScreen.PackageUpdated, PackagingManagement.RefreshShowsNothing | PackagingManagement.IntendedRefreshLists |
| src/pages/inventory/PackagingManagement.jsx:238-240 | the local update maps over the fetched records and compares each record's `_id` with the edited package-detail's `_id` | editing a listed package whose `_id` no record carries, the usual case | replace the edited entry inside `packages[0].package_details` | not executed | PackagingManagement.PackagingScreen.UpdateSelected, PackagingManagement.LocalUpdateMissesDetail | PackagingManagement.IntendedUpdate, PackagingManagement.IntendedUpdateLists |
