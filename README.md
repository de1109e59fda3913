# Warehouse truck queue — a verified model

This project is a Dafny model of the back end of a warehouse truck-queue application and of its text-to-speech announcer. Trucks register at the gate as RECEIVING or DELIVERY entries. Each entry moves along `MENUNGGU → IN_WH → PROSES → SELESAI`, one step forward or back at a time, and may be cancelled (`BATAL`) while it is still MENUNGGU or IN_WH. Every change of an entry appends an audit row to its log. Around the queue sit:

- request validation;
- shipment schedules: payload checks, search filters, pagination, and a print summary per customer and truck type;
- the gate and customer master data with spreadsheet import and export;
- admin users;
- dashboard counters for one day;
- spreadsheet formatting;
- the browser queue that reads announcements aloud.

One Dafny module models each source file:

| module | source |
|---|---|
| `QueueService` | `backend/src/services/queue.service.js`. The entry store is the class `QueueStore`, a map from id to entry. |
| `ValidateMiddleware`, `RoleMiddleware`, `ErrorMiddleware`, `Response` | the middlewares and `utils/response.js` |
| `ScheduleService`, `GateService`, `CustomerService`, `AdminUserService`, `DashboardService` | the services of the same name |
| `QueueController`, `ScheduleController`, `GateController` | the formatting and spreadsheet logic of the controllers. `ExportFormat` holds the date-time and file-name formatting that two controllers share. |
| `TtsQueue` | `useTtsQueue.ts`. The composable is the class `Announcer`. |

Shared modules:

- `Common`: JavaScript values, truthiness, `Number()` results, HTTP errors, and de-duplication by first occurrence.
- `Text`: JavaScript white space, `trim`, ASCII case mapping, `split`, and decimal printing.
- `Calendar`: the Gregorian calendar and JavaScript dates reduced to their fields.

Loops and code that update state in the source are methods. Each is proved against a function of its inputs:

- the gate import scan;
- the dashboard counters and the 24 hourly buckets, which are kept in an array;
- the print grouping;
- the export row expansion;
- the `where` builders;
- the validators' error lists.

Expressions stay functions, with lemmas for what the source promises: round trips between printing and parsing dates, the transition relation of the status machine, partitions of imported rows into created and rejected ones, and totals that add up.

## Model

| member | source | states |
|---|---|---|
| Common.FirstByKeyKeys | backend/src/services/customer.service.js:48 | de-duplication keeps every key that occurs |
| Common.FirstByKeyDistinct | backend/src/services/gate.service.js:169-180 | no two kept elements share a key |
| Common.FirstByKeyFirstWins | backend/src/services/gate.service.js:169-180 | the first element with a key is kept, and no other with that key |
| Common.MapAllFirstError | backend/src/services/schedule.service.js:77-98 | a mapping that throws reports the error of the first element that fails |
| Text.Trim | backend/src/middlewares/validate.middleware.js:7 | `trim` leaves no white space at either end and is empty exactly for an all-white-space text |
| Text.StringToNumber | backend/src/services/schedule.service.js:32-34 | `Number` of a blank text is 0 and of a digit string its decimal value |
| Text.SplitJoin | backend/src/services/schedule.service.js:30 | splitting on a separator and joining with it gives back the text |
| Text.CollapseShape | backend/src/controllers/gate.controller.js:9 | collapsing white-space runs leaves a single-spaced text |
| Response.SendSuccess | backend/src/utils/response.js:1-5 | status 200 and `ok: true`; `data` is null for null or undefined and the value otherwise; `message` appears exactly when it is non-empty |
| Response.SendError | backend/src/utils/response.js:7-11 | the given status, `ok: false`, no `data`, the message, and `details` exactly when given |
| Response.EnvelopesDiffer | backend/src/utils/response.js:1-11 | no success payload equals an error payload |
| RoleMiddleware.RequireRole | backend/src/middlewares/role.middleware.js:3-13 | `next()` exactly for a user whose non-empty role is listed; 401 "Unauthorized" without a user or role; 403 "Forbidden" for an unlisted role |
| RoleMiddleware.RequireRoleMonotone | backend/src/middlewares/role.middleware.js:8-10 | a request admitted for some roles is still admitted when more roles are listed |
| ErrorMiddleware.HandleError | backend/src/middlewares/error.middleware.js:3-11 | `next(err)` exactly when headers were sent; otherwise status `err.status \|\| 500`, message `err.message \|\| "Internal Server Error"`, and the details unchanged |
| ErrorMiddleware.HttpErrorReachesClient | backend/src/middlewares/error.middleware.js:6-10 | a thrown HTTP error with a non-zero status and a message reaches the client exactly as thrown |
| ValidateMiddleware.NonEmptyStringMeaning | backend/src/middlewares/validate.middleware.js:6-8 | `isNonEmptyString` holds exactly for a string with a character that is not white space |
| ValidateMiddleware.Verdict | backend/src/middlewares/validate.middleware.js:27-31 | `next()` exactly when no rule failed; otherwise 400 "Validasi gagal" with the messages as details |
| ValidateMiddleware.ValidateQueueCreate | backend/src/middlewares/validate.middleware.js:10-32 | the messages are those of the failing rules in rule order, and the verdict follows from them |
| ValidateMiddleware.CreateMessagesIff | backend/src/middlewares/validate.middleware.js:14-25 | each create message is reported exactly when its rule fails |
| ValidateMiddleware.CreatePassesIff | backend/src/middlewares/validate.middleware.js:27-31 | a create body passes exactly when all four rules hold |
| ValidateMiddleware.ValidateQueueUpdate | backend/src/middlewares/validate.middleware.js:34-62 | the messages are those of the failing rules in rule order, a rule skipping an undefined field, and the verdict follows from them |
| ValidateMiddleware.UpdateMessagesIff | backend/src/middlewares/validate.middleware.js:38-55 | each update message is reported exactly when its field is present and fails its rule; an all-undefined body passes |
| ValidateMiddleware.ValidateStatusChange | backend/src/middlewares/validate.middleware.js:64-70 | `next()` exactly for a string naming one of the five statuses; otherwise 400 with "newStatus tidak valid" |
| QueueService.StatusNamed | backend/src/middlewares/validate.middleware.js:4 | the status a string names, when there is one, is spelt exactly as that string, and no status is spelt like any other string |
| QueueService.IsNextStatus | backend/src/services/queue.service.js:186-191 | true exactly for the three forward steps MENUNGGU→IN_WH, IN_WH→PROSES and PROSES→SELESAI of `STATUS_FLOW` |
| QueueService.IsPrevStatus | backend/src/services/queue.service.js:193-198 | true exactly for the three backward steps of `STATUS_FLOW` |
| QueueService.FlowIndex | backend/src/services/queue.service.js:5 | `STATUS_FLOW.indexOf` is 0..3 for the four path statuses and -1 for any other string |
| QueueService.NextPrevDual | backend/src/services/queue.service.js:186-198 | `isPrevStatus(a, b)` holds exactly when `isNextStatus(b, a)` does |
| QueueService.TransitionError | backend/src/services/queue.service.js:204-218 | every refusal of `changeQueueStatus` is a 400 without details |
| QueueService.TransitionAllowed | backend/src/services/queue.service.js:204-218 | a change is accepted exactly when the target names a status one edge of the machine away: one step along the path in either direction, or BATAL from MENUNGGU or IN_WH |
| QueueService.RejectedUnnamed | backend/src/services/queue.service.js:212-218 | a target that names no status is always refused |
| QueueService.AllowedNamed | backend/src/services/queue.service.js:204-218 | a named target is accepted exactly along an edge |
| QueueService.TransitionMessages | backend/src/services/queue.service.js:205-218 | which message a refusal carries: the same status first, then the final status, then a late cancellation, and "tidak valid" exactly for the other refusals from a non-final status |
| QueueService.RejectedMoves | backend/src/services/queue.service.js:186-218 | MENUNGGU→PROSES, PROSES→MENUNGGU and IN_WH→SELESAI are refused as invalid, and SELESAI→SELESAI reports the same status |
| QueueService.GetUserName | backend/src/services/queue.service.js:69-71 | the `x-user-name` header when given and non-empty, else "system"; never empty |
| QueueService.NullIfEmpty | backend/src/services/queue.service.js:80-82 | `value \|\| null`: kept exactly when present and non-empty |
| QueueService.NewEntry | backend/src/services/queue.service.js:73-95 | a new entry is MENUNGGU with no timestamps, an empty container number or note stored as null, the given register time or now, and one CREATE row into MENUNGGU; it is well formed |
| QueueService.QueueStore.constructor | backend/src/services/queue.service.js:1-3 | the store starts empty and valid |
| QueueService.QueueStore.CreateEntry | backend/src/services/queue.service.js:73-95 | the new entry goes under a fresh id and nothing else changes |
| QueueService.QueueStore.GetEntry | backend/src/services/queue.service.js:146-155 | the stored entry, or 404 exactly when the id is unknown |
| QueueService.OrKeep | backend/src/services/queue.service.js:167-172 | `value ?? current` |
| QueueService.UpdateSpec | backend/src/services/queue.service.js:157-184 | refused with 400 exactly for a final status; otherwise each given field replaces the stored one, missing ones keep theirs, status and timestamps are untouched and one UPDATE row is appended |
| QueueService.QueueStore.UpdateEntry | backend/src/services/queue.service.js:157-184 | 404 for an unknown id, otherwise the update above stored under the same id; a refusal changes nothing |
| QueueService.StampIfUnset | backend/src/services/queue.service.js:221-223 | a set timestamp is kept and an unset one becomes now |
| QueueService.ChangeStatusSpec | backend/src/services/queue.service.js:200-243 | accepted exactly when the status checks pass, otherwise their error; on success the status is the target, one STATUS_CHANGE row from the old status to the target is appended, and nothing but the status, the timestamps and the log changes |
| QueueService.StampsWrittenOnce | backend/src/services/queue.service.js:220-223 | a set timestamp survives every change, backward moves included; a timestamp only changes by being set to now on entering its own status |
| QueueService.ChangeStatusPreservesWellFormed | backend/src/services/queue.service.js:200-243 | an accepted change keeps the log a legal history that ends in the entry's status, with the timestamps its statuses require |
| QueueService.UpdatePreservesWellFormed | backend/src/services/queue.service.js:157-184 | an accepted edit keeps the entry well formed |
| QueueService.TerminalIsFinal | backend/src/services/queue.service.js:160-162 | SELESAI and BATAL refuse every status change and every edit |
| QueueService.RequestsPreserve | backend/src/services/queue.service.js:200-243 | over any series of status requests the log only grows at its end, set timestamps never change and the entry stays well formed |
| QueueService.QueueStore.ChangeStatus | backend/src/services/queue.service.js:200-243 | 404 for an unknown id, otherwise the result of the status checks and the change; a refusal leaves the store unchanged |
| QueueService.ApplyTimeUpdates | backend/src/services/queue.service.js:220-242 | the `timeUpdates` filled step by step and the write give exactly the changed entry |
| QueueService.ParseDateOnly | backend/src/services/queue.service.js:14-23 | a day only for a non-empty string of exactly three dash parts whose numbers are all truthy; any other part count gives null |
| QueueService.ParseDateOnlyOfPrinted | backend/src/services/queue.service.js:14-23 | a day printed as positive numbers joined by dashes parses back to those numbers |
| QueueService.BuildDateRange | backend/src/services/queue.service.js:25-38 | explicit bounds are taken as given, a missing side left open; otherwise the parsed `date`, or today, from 00:00:00.000 to 23:59:59.999 |
| QueueService.BuildExportDateRange | backend/src/services/queue.service.js:40-67 | a range exactly when both ends are present and parse, from the start of the first day to the end of the second |
| QueueService.BuildListWhere | backend/src/services/queue.service.js:97-116 | `status` and `category` only when given; the register-time bounds of the date range; four search clauses exactly when a search is given |
| ExportFormat.PadWidth | backend/src/controllers/schedule.controller.js:20-22 | `pad` writes a number below 100 as exactly two digits that read back as the number, and leaves a negative number or one of two digits or more as `String` prints it |
| ExportFormat.OrDash | backend/src/controllers/queue.controller.js:148-151 | `value \|\| "-"`: the text itself when present and non-empty, otherwise "-", so never empty |
| ExportFormat.FormatDateTime | backend/src/controllers/queue.controller.js:6-18 | "-" exactly for a missing or invalid date |
| ExportFormat.TimestampReadsBack | backend/src/controllers/schedule.controller.js:34-45 | for in-range fields with a four-digit year the text is 19 characters `YYYY-MM-DD HH:MM:SS` whose columns read back as year, month, day, hour, minute and second |
| ExportFormat.FormatDateTimeReadsBack | backend/src/controllers/queue.controller.js:6-18 | a valid date with in-range local fields and a four-digit year is written as a `YYYY-MM-DD HH:MM:SS` stamp of its local fields |
| ExportFormat.StampReadsBack | backend/src/controllers/queue.controller.js:17 | the template filled with fixed-width digit fields reads back as those fields |
| ExportFormat.RangeFilename | backend/src/controllers/queue.controller.js:44-49 | the name starts with the base and ends in `.xlsx`; it embeds `_from_sampai_to` exactly when both dates are given |
| ExportFormat.RangedNameDiffers | backend/src/controllers/schedule.controller.js:47-52 | a name with a range never equals the plain name |
| QueueController.MapCategory | backend/src/controllers/queue.controller.js:20-24 | "Receiving" exactly for RECEIVING, "Delivery" exactly for DELIVERY, "-" for anything else |
| QueueController.FormatDurationHuman | backend/src/controllers/queue.controller.js:26-42 | "-" exactly when a time is missing or invalid or the finish precedes the register time |
| QueueController.DurationWords | backend/src/controllers/queue.controller.js:34-41 | the words always contain a space, so they never read as "-" |
| QueueController.DurationWordsReadBack | backend/src/controllers/queue.controller.js:34-41 | the four templates read back as the number of minutes they were written for, so no two durations give the same words |
| QueueController.FormatDurationReadsBack | backend/src/controllers/queue.controller.js:26-42 | for two times in order the words name the whole minutes between them, rounded down |
| QueueController.BuildExportFilename | backend/src/controllers/queue.controller.js:44-49 | `antrian_truk_<from>_sampai_<to>.xlsx` when both dates are given, `antrian_truk.xlsx` otherwise |
| QueueController.ExportRows | backend/src/controllers/queue.controller.js:145-161 | one row per entry in order, `no` counting from 1; customer, driver, truck, container and status are the entry's text when present and non-empty, else "-"; the category is `mapCategory`'s label; the four time columns are `formatDateTime` of the entry's times; the duration is `formatDurationHuman` of register and finish time; `timeRemaining` is always "-" |
| QueueController.ExportCellsFilled | backend/src/controllers/queue.controller.js:145-161 | no cell of an export row is empty: a missing value is written as "-" |
| ScheduleController.FormatDateOnly | backend/src/controllers/schedule.controller.js:24-32 | "-" exactly for a missing or invalid date |
| ScheduleController.FormatDateOnlyReadsBack | backend/src/controllers/schedule.controller.js:24-32 | for in-range UTC fields with a four-digit year the text is 10 characters `DD/MM/YYYY` whose columns read back as day, month and year |
| ScheduleController.BuildExportFilename | backend/src/controllers/schedule.controller.js:47-52 | `schedule_pengiriman_<from>_sampai_<to>.xlsx` when both dates are given, `schedule_pengiriman.xlsx` otherwise |
| ScheduleController.TruckTypeLabel | backend/src/controllers/schedule.controller.js:54-59 | "Other - x" for OTHER with free text, "Other" without; a known code gets its own label; an unknown code is shown unchanged |
| ScheduleController.TruckLabelsDistinct | backend/src/controllers/schedule.controller.js:10-18 | no two truck codes share a label |
| ScheduleController.StoreTypeLabel | backend/src/controllers/schedule.controller.js:5-8 | "Store In" and "Store Out" for the two store types, the raw value for any other |
| ScheduleController.ItemRows | backend/src/controllers/schedule.controller.js:136-145 | one row per item, in item order |
| ScheduleController.ItemRowsAppend | backend/src/controllers/schedule.controller.js:136-145 | one more item adds its row at the end |
| ScheduleController.ScheduleRows | backend/src/controllers/schedule.controller.js:123-145 | a schedule without items gives one placeholder row with truck type "-" and qty 0; otherwise one row per item with its label and qty; the schedule's own columns repeat on every row |
| ScheduleController.ExportSchedules | backend/src/controllers/schedule.controller.js:123-146 | the nested loops append exactly the rows of every schedule, schedule after schedule |
| ScheduleController.AppendItemRows | backend/src/controllers/schedule.controller.js:136-145 | the inner loop appends the item rows after the rows already written |
| ScheduleController.ExportRowCount | backend/src/controllers/schedule.controller.js:123-146 | the sheet has Σ max(1, number of items) data rows, so at least one per schedule |
| ScheduleController.ExportQtyTotal | backend/src/controllers/schedule.controller.js:123-146 | the Qty column adds up to the quantity of all items; placeholder rows add nothing |
| ScheduleService.TruckTypesDistinct | backend/src/services/schedule.service.js:6 | the seven truck codes are pairwise different |
| ScheduleService.ParseDateOnly | backend/src/services/schedule.service.js:27-45 | no date for a non-string or blank value; a date found has three `-`-separated integer parts that name it and survives the UTC round trip |
| ScheduleService.ParseDateOnlyOfPrinted | backend/src/services/schedule.service.js:27-45 | `YYYY-MM-DD` printed from a real calendar date parses back to that date |
| ScheduleService.ParseIntegerParts | backend/src/services/schedule.service.js:28-44 | a trimmed text splitting into three integer parts that survive the UTC round trip parses to those parts |
| ScheduleService.NormalizeSort | backend/src/services/schedule.service.js:47-53 | sort by `scheduleDate` exactly when asked for it, else `createdAt`; ascending exactly when the direction is "asc" in any case, else descending |
| ScheduleService.BuildOrderBy | backend/src/services/schedule.service.js:55-60 | two keys: the chosen field in the chosen direction, then the other field descending |
| ScheduleService.MapTruckTypeCandidates | backend/src/services/schedule.service.js:62-70 | no candidates for a blank search |
| ScheduleService.CandidatesIff | backend/src/services/schedule.service.js:62-70 | a truck code is a candidate exactly when its code or its label, lower-cased, contains the trimmed lower-cased search |
| ScheduleService.CandidatesAllowed | backend/src/services/schedule.service.js:66 | every candidate is an allowed truck code |
| ScheduleService.NormalizeItem | backend/src/services/schedule.service.js:77-97 | a null element throws the `TypeError` of reading `truckType` (a 500); otherwise accepted exactly when the upper-cased type is allowed, `Number(qty)` is an integer of at least 1 and OTHER has non-blank other text; each failing check gives its own message, in order (type, qty, other text); a kept item has that type, that qty, and other text only for OTHER, trimmed |
| ScheduleService.MapItems | backend/src/services/schedule.service.js:77-98 | all items normalised in order when each is valid; otherwise the error of the first invalid item |
| ScheduleService.NormalizeItems | backend/src/services/schedule.service.js:72-99 | a missing or empty list is "Items wajib diisi minimal 1"; accepted exactly when the list is non-empty and every element is accepted; a result holds at least one valid item |
| ScheduleService.NormalizeSchedulePayload | backend/src/services/schedule.service.js:172-190 | accepted exactly when the date parses, the upper-cased store type is allowed, the customer id is non-blank and the items are accepted; the checks run in that order with their messages, and an items error is passed on unchanged; a payload kept has the parsed date, the upper-cased trimmed store type, the trimmed customer id and the normalised items |
| ScheduleService.BuildWhere | backend/src/services/schedule.service.js:101-125 | the date filter exactly when the date parses; the store filter exactly for an allowed store type; the OR filter exactly for a non-blank search, with customer name and other text, plus the type filter exactly when some truck code matches |
| ScheduleService.BuildExportWhere | backend/src/services/schedule.service.js:127-141 | a date range exactly when both dates parse, from `dateFrom` to `dateTo` |
| ScheduleService.MapScheduleListItem | backend/src/services/schedule.service.js:143-160 | id, date, store type, customer, creator and both stamps copied; `totalQty` the sum of the quantities; `totalTypes` the size of the `Set` of type keys, which for stored codes is the number of distinct (code, lower-cased other text) pairs, at most the number of items and at least 1 for a schedule with items |
| ScheduleService.StoredTypeKeyCount | backend/src/services/schedule.service.js:145-147 | for stored codes the `Set` of type keys is as large as the set of distinct (code, lower-cased other text) pairs |
| Common.KeySetSameSize | backend/src/services/schedule.service.js:145-147 | two key functions that tell the same elements apart give `Set`s of the same size |
| ScheduleService.SumQtyAtLeastCount | backend/src/services/schedule.service.js:144 | with valid items the total quantity is at least the number of items |
| ScheduleService.KeySetSize | backend/src/services/schedule.service.js:145-147 | a `Set` of keys has at most as many members as the list, and at least one for a non-empty list |
| ScheduleService.TypeKeyInjective | backend/src/services/schedule.service.js:146 | two items share a type key exactly when they share the code and the lower-cased other text |
| ScheduleService.PositiveFloorOr | backend/src/services/schedule.service.js:222-223 | a finite positive number is floored, anything else takes the fallback |
| ScheduleService.CeilDiv | backend/src/services/schedule.service.js:227 | `Math.ceil(total / limit)`: the least page count whose pages cover the total |
| ScheduleService.PaginateAsWritten | backend/src/services/schedule.service.js:220-229 | limit and page as written are never negative, and the page count is finite whenever the limit is at least 1 |
| ScheduleService.PaginateFractionCounterexample | backend/src/services/schedule.service.js:222-229 | `page=0.5` gives `skip` -15; `limit=0.5` gives limit 0 and an infinite page count |
| ScheduleService.AtLeastOneOr | backend/src/services/schedule.service.js:222-223 | a number of at least 1 is floored to at least 1, anything else takes the fallback |
| ScheduleService.AtLeastOneAgrees | backend/src/services/schedule.service.js:222-223 | the corrected test agrees with the written one on every input except a fraction strictly between 0 and 1 |
| ScheduleService.Paginate | backend/src/services/schedule.service.js:220-229 | limit (default 15) at least 1; page count `max(1, ceil(total / limit))`; the page (default 1) clamped to the last page; `skip` is `(page - 1) * limit` and lies before the total when there are rows |
| ScheduleService.DisplayName | backend/src/services/schedule.service.js:307 | the display name is never empty ("-" for a missing or blank name) |
| ScheduleService.Column | backend/src/services/schedule.service.js:320 | an item counts under its own code's column when it has one, else under OTHER |
| ScheduleService.SumIntsAdd | backend/src/services/schedule.service.js:321 | adding a quantity to one counter adds it to the counters' total |
| ScheduleService.GroupsQtyReplace | backend/src/services/schedule.service.js:316-322 | replacing one listed group changes the grand total by the difference of the two groups' totals |
| ScheduleService.AddItems | backend/src/services/schedule.service.js:319-322 | after the item loop each column's counter has grown by the quantity of that column's items, and the counters' total by the quantity of all items |
| ScheduleService.GroupForPrint | backend/src/services/schedule.service.js:304-323 | exactly one group per customer key some row has, each key listed once and in the order the customers first appear; a group is named after its customer's first row; each counter equals the quantity of that customer's items in that direction and column, and the counters add up to all items |
| ScheduleService.GroupingFacts | backend/src/services/schedule.service.js:304-323 | the grouping state after all rows gives every property above |
| ScheduleService.AddRow | backend/src/services/schedule.service.js:306-323 | one more schedule keeps the grouping state: counters, names and first-appearance order |
| ScheduleService.CountRow | backend/src/services/schedule.service.js:306-323 | one turn of the loop: the counting state is kept, only this customer's group changes, an existing group keeps its name and place, and a new one is named after this row and listed last |
| ScheduleService.FirstSeenStep | backend/src/services/schedule.service.js:307-315 | one more row keeps every group named after its customer's first row and the keys ordered by first appearance |
| Common.FirstSeenSnoc | backend/src/services/schedule.service.js:307-315 | appending an element keeps entries named after their first element and keys ordered by it, when a new key is named after the element and listed last |
| Common.FirstIndexBySnoc | backend/src/services/schedule.service.js:309 | appending an element moves the first index of a key only when no earlier element has it |
| ScheduleService.NewGroupKeepsInvariant | backend/src/services/schedule.service.js:309-315 | opening an empty group for a new customer keeps the grouping invariant |
| ScheduleService.CountRowKeepsInvariant | backend/src/services/schedule.service.js:316-322 | adding a schedule's items to its customer's group in its direction keeps the grouping invariant |
| GateService.NormalizeSort | backend/src/services/gate.service.js:15-21 | the sort field is always sortable: the requested one when allowed, else `createdAt`; ascending exactly when the direction is "asc" in any case |
| GateService.BuildOrderBy | backend/src/services/gate.service.js:23-29 | the chosen field and direction first, then `createdAt` descending unless that is already the field; no field twice |
| GateService.NormalizeInput | backend/src/services/gate.service.js:31-37 | gate number and area trimmed, warehouse trimmed and upper-cased |
| GateService.ValidateInput | backend/src/services/gate.service.js:39-45 | accepted exactly with a gate number, an area and a known warehouse; otherwise the first failing check's 400 message |
| GateService.Issue | backend/src/services/gate.service.js:152-167 | no issue exactly when the row has a gate number, an area and a known warehouse; otherwise the first failing check's message: no gate number, then no area, then no warehouse, then an unknown warehouse |
| GateService.ScanPartitions | backend/src/services/gate.service.js:139-181 | every counted row becomes exactly one error or one gate to create |
| GateService.FirstByKeyAppend | backend/src/services/gate.service.js:169-180 | a valid row is kept exactly when its key was not seen before |
| GateService.ScanRows | backend/src/services/gate.service.js:134-181 | the row loop counts the non-blank rows, records each invalid or repeated row's error in order, and keeps the first valid row of each gate number and warehouse |
| GateService.ScanRow | backend/src/services/gate.service.js:140-180 | one more row keeps the scan's invariant |
| GateService.ScanStep | backend/src/services/gate.service.js:146-180 | one more row adds itself to the counted rows unless blank, to the valid rows unless blank or invalid, and its own error, if any, to the errors |
| GateService.StoredPartitions | backend/src/services/gate.service.js:200-213 | each gate to create is either kept, with a key not yet stored, or reported as a duplicate |
| GateService.DropStored | backend/src/services/gate.service.js:200-213 | the second loop keeps the gates whose key is not stored and appends an error for each other one, in order |
| GateService.ImportGates | backend/src/services/gate.service.js:129-234 | a non-array is "Data Excel tidak valid"; otherwise the outcome of the scan, the stored-key check and the store's created count |
| GateService.FinishImport | backend/src/services/gate.service.js:183-233 | nothing to create reports zero successes and every counted row failed; otherwise the created count, `max(0, total - created)` failures and the stored-key errors after the scan errors |
| GateService.ImportOutcomeShape | backend/src/services/gate.service.js:183-233 | total rows are the non-blank rows; failures are `max(0, total - successes)`; no valid row exactly when only the scan errors are reported with no success |
| GateService.ImportAccountsForEveryRow | backend/src/services/gate.service.js:139-233 | scan errors, stored-key errors and rows sent to the store add up to the counted rows, and the created count never exceeds them |
| GateService.FirstByKeyEmpty | backend/src/services/gate.service.js:183 | de-duplication leaves nothing to create exactly when there was no valid row |
| GateService.KeyInjective | backend/src/services/gate.service.js:169 | two gates with known warehouses share a key exactly when they share gate number and warehouse |
| GateController.NormalizeHeaderShape | backend/src/controllers/gate.controller.js:5-10 | a normalised header is lower-case, single-spaced, without spaces at either end, and empty exactly when the cell was blank |
| GateController.NormalizeHeaderIdempotent | backend/src/controllers/gate.controller.js:5-10 | normalising a normalised header changes nothing |
| GateController.HeaderText | backend/src/controllers/gate.controller.js:6 | a text cell is read as its own text |
| GateController.HeaderNames | backend/src/controllers/gate.controller.js:18 | one normalised name per header cell, in column order |
| GateController.EnsureGateHeader | backend/src/controllers/gate.controller.js:12-30 | no rows is "Header Excel tidak ditemukan"; otherwise accepted exactly when all three headers are present, with the first column of each, else "Header Excel tidak sesuai" |
| GateController.FindHeaders | backend/src/controllers/gate.controller.js:19-29 | the `indexOf` lookups: found exactly when all three names are present, each at its first occurrence |
| GateController.CheckUpload | backend/src/controllers/gate.controller.js:98-107 | "File Excel wajib diupload" exactly without a file buffer; "File harus berformat .xlsx" exactly for a named file whose lower-cased name does not end in `.xlsx`; nothing else |
| GateController.UpperCaseExtensionAccepted | backend/src/controllers/gate.controller.js:103 | a name ending in `.XLSX` is accepted |
| GateController.DataRows | backend/src/controllers/gate.controller.js:116-121 | one data row per sheet row after the header, numbered from 2, reading the cells under the three header columns |
| GateController.ImportGates | backend/src/controllers/gate.controller.js:96-128 | the upload check, then the header check, then the import of the data rows, each error passed on as it is |
| GateController.ExportRow | backend/src/controllers/gate.controller.js:134-139 | gate number, area, warehouse and the creation time, or "" without one |
| GateController.ExportGateRows | backend/src/controllers/gate.controller.js:132-140 | the four-column header row, then one row per gate in order |
| GateController.GateNoHeader | backend/src/controllers/gate.controller.js:19 | the header "Gate No" normalises to "gate no" |
| GateController.LeadingHeaderAccepted | backend/src/controllers/gate.controller.js:12-30 | a sheet starting with the three headers in order is accepted with columns 0, 1, 2 |
| GateController.TemplateHeaderAccepted | backend/src/controllers/gate.controller.js:77-81 | the downloadable template's header is accepted by the import |
| GateController.ExportReimports | backend/src/controllers/gate.controller.js:116-140 | an exported sheet is accepted by the import, each gate read back as its data row with its gate number, area and warehouse |
| GateController.ExportFilename | backend/src/controllers/gate.controller.js:153-157 | `master-gate_<date>.xlsx` |
| DashboardService.ParseDateOnly | backend/src/services/dashboard.service.js:21-39 | a date only for a string of the form `dddd-dd-dd` whose parts survive the local-date round trip, with a year from 100 up |
| DashboardService.FormatOfParsed | backend/src/services/dashboard.service.js:14-39 | printing a parsed date with a four-digit year gives back the text that was parsed |
| DashboardService.ParsedOfFormat | backend/src/services/dashboard.service.js:14-39 | parsing a printed calendar date with a four-digit year gives back the date |
| DashboardService.ResolveDateRange | backend/src/services/dashboard.service.js:41-57 | no date means today; a date that does not parse is "Format date tidak valid"; otherwise the range runs from 00:00:00.000 to 23:59:59.999 of that one day |
| DashboardService.ResolvedDateEchoes | backend/src/services/dashboard.service.js:49-56 | the `date` reported is the text of the query |
| DashboardService.SlaMinutes | backend/src/services/dashboard.service.js:79-83 | an SLA exactly for RECEIVING and DELIVERY, and it is positive |
| DashboardService.DurationMinutes | backend/src/services/dashboard.service.js:85-89 | none exactly when the end precedes the start; otherwise the whole minutes between them, rounded down |
| DashboardService.CountInUnion | backend/src/services/dashboard.service.js:107-114 | counts over disjoint key sets add up to the count over their union |
| DashboardService.FinishedAppend | backend/src/services/dashboard.service.js:116-122 | one more entry adds its duration to the finished list only when it has a finish time not before its register time |
| DashboardService.OverSlaAppend | backend/src/services/dashboard.service.js:124-131 | one more entry adds one to the over-SLA count exactly when it is over its SLA |
| DashboardService.RoundDiv | backend/src/services/dashboard.service.js:134 | `Math.round(a / b)`: the nearest whole number, halves rounding up |
| DashboardService.PercentAtMost100 | backend/src/services/dashboard.service.js:135 | a rounded percentage of a part of a whole is at most 100 |
| DashboardService.SummaryBounds | backend/src/services/dashboard.service.js:91-149 | the status counts and the category counts each add up to at most the total; the over-SLA percentage lies in 0..100 and is 0 with no entries; the average is 0 without finished entries and otherwise the rounded mean of their minutes |
| DashboardService.CountKinds | backend/src/services/dashboard.service.js:109-114 | one more entry updates the six category and status counters to the counts over all entries seen |
| DashboardService.CountFinished | backend/src/services/dashboard.service.js:116-122 | one more entry updates the finished count and minute sum to those over all entries seen |
| DashboardService.CountOverSla | backend/src/services/dashboard.service.js:124-131 | one more entry updates the over-SLA counter to the count over all entries seen |
| DashboardService.CountEntry | backend/src/services/dashboard.service.js:107-132 | one more entry keeps every counter equal to its count over the entries seen |
| DashboardService.TallyEntries | backend/src/services/dashboard.service.js:95-132 | after the loop every counter holds its count over all entries |
| DashboardService.GetSummary | backend/src/services/dashboard.service.js:91-149 | a date error is passed on; otherwise the summary of the entries for the resolved date |
| DashboardService.HourLabelReadsBack | backend/src/services/dashboard.service.js:154 | each hour's label is `HH:00` whose digits read back as the hour |
| DashboardService.BucketsOf | backend/src/services/dashboard.service.js:153-167 | 24 buckets, the one for each hour counting that hour's entries |
| DashboardService.BucketOfAppend | backend/src/services/dashboard.service.js:160-167 | one more entry changes only its own hour's bucket: one more in total and in its category |
| DashboardService.Bump | backend/src/services/dashboard.service.js:161-166 | counting one entry changes the bucket array as one more entry in its hour |
| DashboardService.FillBuckets | backend/src/services/dashboard.service.js:153-167 | after the loop the buckets are those of all entries |
| DashboardService.GetHourly | backend/src/services/dashboard.service.js:151-170 | a date error is passed on; otherwise the resolved date and 24 buckets, each counting the entries of its hour |
| DashboardService.HourlyTotalsAddUp | backend/src/services/dashboard.service.js:153-167 | with every hour in 0..23 the 24 bucket totals add up to the number of entries |
| DashboardService.CountStatus | backend/src/services/dashboard.service.js:182-186 | one more entry keeps every known status counter equal to its count and adds no new key |
| DashboardService.CountStatuses | backend/src/services/dashboard.service.js:174-186 | the counters hold exactly the five statuses, each with the number of entries in that status |
| DashboardService.GetStatus | backend/src/services/dashboard.service.js:172-194 | a date error is passed on; otherwise the five statuses in `STATUS_ORDER`, each with its count |
| DashboardService.StatusCountsAddUp | backend/src/services/dashboard.service.js:174-191 | the five status counts add up to at most the number of entries, and exactly to it when every entry has a known status |
| CustomerService.CreateCustomer | backend/src/services/customer.service.js:18-27 | accepted exactly for a string name with a non-blank character, storing the trimmed name; otherwise "Nama Customer wajib diisi" |
| CustomerService.CreateCustomerIdempotent | backend/src/services/customer.service.js:19-25 | creating a customer from a stored name stores the same name again |
| CustomerService.DeleteCustomer | backend/src/services/customer.service.js:29-36 | a missing id is "ID customer tidak valid"; an unknown or still-referenced customer is "Customer tidak bisa dihapus"; otherwise exactly that customer is removed and the others are kept |
| CustomerService.RowName | backend/src/services/customer.service.js:44-45 | a row's name has no spaces at either end |
| CustomerService.Names | backend/src/services/customer.service.js:43-45 | one name per row, in row order |
| CustomerService.NonEmpty | backend/src/services/customer.service.js:46 | exactly the non-empty names are kept |
| CustomerService.UniqueNamesSpec | backend/src/services/customer.service.js:48 | `new Set` holds every name exactly once and no other |
| CustomerService.NotStored | backend/src/services/customer.service.js:59 | exactly the names not stored yet are kept |
| CustomerService.OnlyStored | backend/src/services/customer.service.js:58-59 | exactly the names already stored are kept |
| CustomerService.StoredPartition | backend/src/services/customer.service.js:59-69 | every unique name is either new or already stored |
| CustomerService.ImportCustomers | backend/src/services/customer.service.js:38-70 | a non-array is "Data Excel tidak valid"; no non-empty name is "Tidak ada data Nama Customer yang valid"; otherwise the names not stored are created and the rest counted as skipped |
| CustomerService.ImportCountsAddUp | backend/src/services/customer.service.js:61-69 | created plus skipped is the number of different names in the sheet |
| CustomerService.ReimportCreatesNothing | backend/src/services/customer.service.js:53-63 | importing the same sheet again after its names were created creates nothing and skips every name |
| CustomerService.ToCreateIff | backend/src/services/customer.service.js:43-59 | a name is created exactly when it is non-empty, not stored, and some row holds it |
| AdminUserService.MessagesDistinct | backend/src/services/adminUser.service.js:82-89 | the six create messages and the five update messages are each pairwise different |
| AdminUserService.NormalizeRole | backend/src/services/adminUser.service.js:33-37 | for a string, trimmed and lower-cased: ADMIN exactly for "admin", WAREHOUSE exactly for "warehouse", an inherited member of the lookup table exactly for "constructor" and "__proto__", and no role for anything else |
| AdminUserService.ConstructorPassesAsRole | backend/src/services/adminUser.service.js:33-37 | "Constructor" passes the role check as the inherited `constructor` |
| AdminUserService.ProtoPassesAsRole | backend/src/services/adminUser.service.js:33-37 | "__proto__" passes the role check as the inherited prototype |
| AdminUserService.StoredRoleNormalizes | backend/src/services/adminUser.service.js:6-37 | a stored role name normalises back to that role, as the table's own entry |
| AdminUserService.HandlePrismaError | backend/src/services/adminUser.service.js:39-47 | 409 "Username sudah digunakan" exactly for a unique violation whose target includes `username`; any other error is rethrown unchanged |
| AdminUserService.RoleRefusedRethrown | backend/src/services/adminUser.service.js:39-47 | the store's refusal of a role outside its enumeration is rethrown unchanged |
| AdminUserService.RethrownIs500 | backend/src/middlewares/error.middleware.js:3-11 | a rethrown store error has no status, so the client gets a 500 |
| AdminUserService.StoredRecord | backend/src/services/adminUser.service.js:99-136 | the stored name, position, phone and username are the request's texts trimmed, with the normalised role and the given hash |
| AdminUserService.PushSix | backend/src/services/adminUser.service.js:81-89 | the six checks push exactly the messages of the failing ones, in order |
| AdminUserService.PushFive | backend/src/services/adminUser.service.js:117-124 | the five checks push exactly the messages of the failing ones, in order |
| AdminUserService.CreateAdminUser | backend/src/services/adminUser.service.js:80-112 | an invalid body is one 400 "Validasi gagal" listing every failure and creates nothing; an inherited role passes the checks and the store's refusal is rethrown (a 500); a taken username is 409; otherwise the trimmed record with the table's role and the hash of the trimmed password, whose reply is the record without its hash |
| AdminUserService.CreateMessagesIff | backend/src/services/adminUser.service.js:82-89 | each create message is listed exactly when its check fails |
| AdminUserService.CreatePassesIff | backend/src/services/adminUser.service.js:91-93 | the create list is empty exactly when every check passes |
| AdminUserService.UpdateAdminUser | backend/src/services/adminUser.service.js:114-154 | a missing id is 400; an invalid body is one 400 listing every failure; an inherited role is the store's refusal rethrown (a 500), before the record is looked up; a missing record is 404; a taken username is 409; otherwise the trimmed record, the hash replaced only for a non-empty password, whose reply is the record without its hash |
| AdminUserService.UpdateMessagesIff | backend/src/services/adminUser.service.js:118-124 | each update message is listed exactly when its check fails; the password is not checked |
| AdminUserService.UpdatePassesIff | backend/src/services/adminUser.service.js:126-128 | the update list is empty exactly when every check passes |
| AdminUserService.GetAdminUserById | backend/src/services/adminUser.service.js:68-78 | a missing id is 400, an unknown one 404, otherwise the stored admin under that id without its password hash |
| AdminUserService.DeleteAdminUser | backend/src/services/adminUser.service.js:156-168 | a missing id is 400, an unknown one 404, a refused delete 400 "Admin tidak bisa dihapus"; otherwise exactly that admin is removed, the reply shows it without its password hash, and the others are kept |
| AdminUserService.ViewHidesHash | backend/src/services/adminUser.service.js:11-20 | two records show the same reply exactly when they agree on every field but the password hash |
| AdminUserService.DeletedIsGone | backend/src/services/adminUser.service.js:68-168 | after a delete the admin is not found, and deleting again is 404 |
| TtsQueue.ByLang | material-dashboard-shadcn-vue-1.0.0/src/composables/useTtsQueue.ts:18 | exactly the voices whose language starts with the requested one, ignoring case |
| TtsQueue.FirstFemale | material-dashboard-shadcn-vue-1.0.0/src/composables/useTtsQueue.ts:20-22 | the position of the first voice whose name holds a female hint, and none exactly when no voice does |
| TtsQueue.PickBestVoice | material-dashboard-shadcn-vue-1.0.0/src/composables/useTtsQueue.ts:16-24 | no voice exactly for an empty list; otherwise a voice from the list, in the requested language when any voice speaks it, and the first female voice of that pool when it holds one, else the pool's first voice |
| TtsQueue.PickFirstWithoutFemale | material-dashboard-shadcn-vue-1.0.0/src/composables/useTtsQueue.ts:19-23 | without a female voice the pick is the first voice of the language pool, or the first voice when none speaks the language |
| TtsQueue.GapOf | material-dashboard-shadcn-vue-1.0.0/src/composables/useTtsQueue.ts:43 | an item's own gap when it has one, 0 included, else the default gap |
| TtsQueue.UtteranceLang | material-dashboard-shadcn-vue-1.0.0/src/composables/useTtsQueue.ts:53 | the chosen voice's language when it has one, else the requested language |
| TtsQueue.Announcer.constructor | material-dashboard-shadcn-vue-1.0.0/src/composables/useTtsQueue.ts:26-37 | an empty queue, idle and unblocked, with the best voice cached when speech is supported |
| TtsQueue.Announcer.RefreshVoices | material-dashboard-shadcn-vue-1.0.0/src/composables/useTtsQueue.ts:33-37 | with speech support the cached voice becomes the best voice of the current list; nothing else changes |
| TtsQueue.Announcer.VoicesChanged | material-dashboard-shadcn-vue-1.0.0/src/composables/useTtsQueue.ts:96 | a new voice list is cached and its best voice picked; the queue and flags are kept |
| TtsQueue.Announcer.Speak | material-dashboard-shadcn-vue-1.0.0/src/composables/useTtsQueue.ts:47-73 | nothing happens when unsupported, blocked or disabled; otherwise the voice is refreshed, the item's utterance is spoken and the engine is busy |
| TtsQueue.Announcer.PlayNext | material-dashboard-shadcn-vue-1.0.0/src/composables/useTtsQueue.ts:39-45 | nothing happens while speaking, blocked, disabled or with an empty queue; otherwise only the head item is removed and spoken |
| TtsQueue.Announcer.Enqueue | material-dashboard-shadcn-vue-1.0.0/src/composables/useTtsQueue.ts:75-79 | nothing happens when unsupported or disabled; otherwise the item joins the tail, and an idle unblocked engine speaks the head at once |
| TtsQueue.Announcer.OnEnd | material-dashboard-shadcn-vue-1.0.0/src/composables/useTtsQueue.ts:54-61 | the engine is freed, and the switches and the voices are kept; a positive gap starts one timer and keeps the queue and what was spoken; with no gap the head item is removed and spoken when unblocked, enabled and the queue is non-empty, and otherwise the queue and what was spoken are unchanged |
| TtsQueue.Announcer.GapElapsed | material-dashboard-shadcn-vue-1.0.0/src/composables/useTtsQueue.ts:57 | a finished gap timer plays the next item when allowed |
| TtsQueue.Announcer.OnError | material-dashboard-shadcn-vue-1.0.0/src/composables/useTtsQueue.ts:62-72 | a speech error blocks the queue and frees the engine; the queue is kept |
| TtsQueue.Announcer.Resume | material-dashboard-shadcn-vue-1.0.0/src/composables/useTtsQueue.ts:81-85 | with speech support the block is lifted and the head item is spoken when the engine is idle and enabled |
| TtsQueue.Announcer.Stop | material-dashboard-shadcn-vue-1.0.0/src/composables/useTtsQueue.ts:87-92 | the queue is emptied and the engine is free; the block is kept |
| TtsQueue.Announcer.SetEnabled | material-dashboard-shadcn-vue-1.0.0/src/composables/useTtsQueue.ts:99-105 | switching off empties the queue and frees the engine; switching on finds nothing queued and changes nothing else; the invariant that nothing waits on an idle engine is kept |

## Left out

- Persistence: the Prisma queries are not modelled. A store is a map from id to record, and a query's result is a parameter. This covers `findMany` filtering and ordering, `contains` with `mode: "insensitive"`, `count`, and `createMany`'s reported count (`dbCount`). The list queries (`listQueueEntries`, `listSchedules`, `listSchedulesForExport`, `listGates`, `listCustomers`, `listAdminUsers`, `listGatesForExport`) are modelled only as the filters, sort keys and pages they build, where the service builds one. `listGates`' search filter and `listAdminUsers`' search filter are not modelled.
- Store errors: unique-key and missing-record errors are decided from the map. In `CreateAdminUser`/`UpdateAdminUser` a taken username is a 409, and a role outside the store's enumeration is refused by the store without an error code. `DeleteCustomer` and `DeleteAdminUser` take the set of records still referenced as a parameter. The gate and schedule create/update/delete calls with their P2002/P2025 mapping, `getScheduleById`, `createSchedule`, `updateSchedule`, `deleteSchedule` and `ensureCustomerExists` are not part of this model: they only forward a normalised payload to the store.
- Concurrency: the read-then-write of `changeQueueStatus` runs as one step; interleavings and transactions are not modelled.
- JavaScript `Date`: a date is its millisecond value plus its UTC and local fields, with the time-zone conversion left out. In the schedule and dashboard parsers, `Date.UTC`/`new Date(y, m, d)` rollover is modelled as a calendar-validity check that also rejects years 0–99, which JavaScript maps to the 1900s. `new Date(string)` on `dateFrom`/`dateTo` is kept as the text it parses. "Now" and "today" are parameters.
- QueueService.ParseDateOnly: keeps the three numbers handed to `new Date(y, m - 1, d)` as they are. It does not model the constructor's rollover (`2024-02-30` is the day `(2024, 2, 30)`, where JavaScript gives 1 March) or its mapping of years 0–99 to the 1900s (`5-1-1` is year 5).
- `toISOString` in the gate export is the text given with the record (`createdAt`).
- Text.ToNumber: every object reads as NaN. JavaScript converts an array through its joined text, so `Number([])` is 0 and `Number([5])` is 5; an item whose `qty` is the array `[5]` is accepted by the source and refused by the model. On strings, exponents and hexadecimal, octal and binary numerals read as NaN. The dashboard's average processing time, `Math.round(sum / count)` on whole minutes, is modelled as integer rounding half up; the double quotient of two whole numbers of realistic size lies exactly on a half or at least 1 / (2 × count) away from one, so it rounds the same way (the percentage does not, see `DashboardService.GetSummary` below).
- Case mapping is ASCII only. `toLowerCase`/`toUpperCase` of other letters, and `localeCompare` in the print summary's sort by customer name, are not modelled.
- ScheduleService.GroupForPrint: returns the groups in the order their customers first appear, which is proved; the final `localeCompare` sort of the groups and the `columns` list of the print response are not returned.
- ScheduleService.CandidatesIff: states which truck codes are candidates, not that they come in the order of the allowed list (the filter keeps that order by construction).
- GateController.ExportFilename: states only the prefix and the extension, not the padded date in between.
- GateController.HeaderText: reads a string cell as its text, `true` as "true" and every other cell as "", where `String(value || "")` would print a number or an object. Such printed cells (digits, signs, `NaN`, `Infinity`, `[object Object]`) never normalise to "gate no", "area" or "warehouse", so which headers are found, and where, is unchanged.
- Spreadsheets and HTTP: reading and writing workbooks (xlsx, ExcelJS), column widths and styles, multer uploads, response headers and streaming are left out. The model keeps the row lists they consume or produce and the upload's name and buffer presence.
- Authentication and crypto: bcrypt is a hash function passed as a parameter. JWT, login and the seed script are not part of this model. `requireRole` sees the user the authentication middleware attached.
- The queue log's user name is the value the controller passes with each request, the admin record found for the request's authenticated user or null, abstracted as a text. `QueueService.GetUserName` models an exported helper that turns the `x-user-name` header into such a text; no route calls it.
- Browser speech and timers: `window.speechSynthesis.speak` records the utterance in `spoken`. `onend` and `onerror` are the methods `OnEnd` and `OnError`. An exception thrown inside `speak` has the same effect as `OnError`. A `setTimeout` gap is a pending-timer count that `GapElapsed` consumes. `speechSynthesis.cancel()` in `stop` raises no events in the model.
- Thin controllers and wiring: route files, `app.js`, the pass-through controllers, the front-end API clients and the router are not part of this model.
- DashboardService.GetSummary: `overSlaPercent` is modelled as exact rounding half up of 100 × over / total (`DashboardService.SummaryOf`). The source rounds the double `(over / total) * 100`, whose rounding error can fall just below a half: 23 of 40 gives 57.49999999999999, so the source answers 57 where the model answers 58; 29 of 200 and 46 of 80 differ the same way.
- AdminUserService: the `createdAt` and `updatedAt` fields that `adminSelect` also returns are not modelled, since the store's clock is not.

## Findings

| source | as written | input that shows it | evidently intended | confidence | as-written member | corrected member |
|---|---|---|---|---|---|---|
| backend/src/services/schedule.service.js:222-229 | `limit` and `page` pass the `> 0` test before `Math.floor`, so a fraction below 1 floors to 0 | `?limit=0.5` gives limit 0 (no rows, `Infinity` pages); `?page=0.5` gives page 0 and `skip` -15 | a limit and a page of at least 1, so that `skip` is never negative and lies before the total | not executed | ScheduleService.PaginateAsWritten, ScheduleService.PaginateFractionCounterexample | ScheduleService.Paginate, ScheduleService.AtLeastOneOr |
