# Products-system views in Dafny

Products-system is a React front end for procurement, supplier management
and quality control in a machine shop. Almost all of it is presentation. The
logic sits inline in twelve views:

- integer classification rules (stock against quotas, score to grade,
  progress to stage, QC result to rejected quantity);
- seed generators that derive every field of a mock record from its index;
- `filter`/`reduce` counters and substring search boxes;
- React state lists that the forms append to, prepend to, delete from by id,
  or rewrite one element of with `map`.

This project models those twelve views, one module per view:

- `StockQuotaView`
- `PlanTrackingView`
- `ProcurementPlanView`
- `DeptExpensesView`
- `PurchaserArchiveView`
- `SupplierProductsView`
- `SupplierArchiveView`
- `QualityAnalysisView`
- `ProdProgressView`
- `QCQueryView`
- `SupplyNoticeView`
- `WorkshopAnalysisView`

A shared `Common` module models the JavaScript built-ins the views rely on:

- `Number.prototype.toString`;
- `padStart`, including the `pad3` of every record id;
- `includes`;
- an ASCII `toLowerCase`;
- `Array.prototype.filter`;
- the summing `reduce`.

Pure parts are functions and lemmas. Each React state list is a class with a
`seq` field. Every handler is a method that states the whole new list as a
function of the old one; the lemmas about those functions carry the
properties.

Modelling conventions:

- **Random draws.** Every `Math.random()` value is a parameter. The bounds
  the source guarantees become preconditions only where a property depends
  on them.
- **Clock.** `Date.now()` and `new Date()` become string parameters (`stamp`,
  `today`).
- **Language.** The language toggle `t()` is fixed to the English strings.

## Model

| member | source | states |
|---|---|---|
| Common.NatToString | views/ProcurementPlanView.tsx:20 | `n.toString()` is a non-empty string of decimal digits, one digit exactly below 10, two for 10..99, three for 100..999, at least four from 1000 |
| Common.NatToStringRoundTrip | views/ProcurementPlanView.tsx:20 | reading the digits back gives the number, so the numeric part of an id determines its number |
| Common.NatToStringInjective | views/WorkshopAnalysisView.tsx:43 | distinct numbers give distinct decimal strings |
| Common.PadStartShape | views/StockQuotaView.tsx:17 | `padStart(width, c)` has length max(length, width) and is the string with some copies of `c` in front |
| Common.LeadingZerosValue | views/StockQuotaView.tsx:17 | zeros put in front of a digit string keep it a digit string with the same value |
| Common.Pad3 | views/StockQuotaView.tsx:34 | `n.toString().padStart(3,'0')` is all digits, exactly three of them below 1000, and the bare decimal from 1000 on |
| Common.Pad3RoundTrip | views/StockQuotaView.tsx:34 | the padded suffix reads back as `n` |
| Common.Pad3Injective | views/StockQuotaView.tsx:34 | distinct numbers give distinct padded suffixes, including past 999 |
| Common.PrefixedPad3Injective | views/SupplierArchive.tsx:14 | ids `prefix + pad3(n)` with a common prefix are equal only for equal `n` |
| Common.PrefixedNatInjective | views/WorkshopAnalysisView.tsx:43 | ids `prefix + n` with a common prefix are equal only for equal `n` |
| Common.DateStampAsWrittenShiftsYear | views/ProdProgressView.tsx:41-42 | the date as the views build it: day 1 after "2025-12-" is "02025-12-1" and after "2026-02-" is "02026-02-1", against the intended "2025-12-01" and "2026-02-01" |
| Common.DateStampCorrect | views/ProdProgressView.tsx:41-42 | the corrected date is the prefix followed by exactly two digits that read back as the day; for two-digit days it agrees with the text as written |
| Common.ContainsIff | views/DeptExpensesView.tsx:45-47 | `s.includes(t)` holds exactly when `t` occurs at some position of `s` |
| Common.ContainsEmpty | views/DeptExpensesView.tsx:43-49 | the empty term is included in every string |
| Common.Lower | views/SupplierProducts.tsx:41-45 | `toLowerCase` keeps the length and lowers each character, ASCII letters only |
| Common.LowerIdempotent | views/SupplierProducts.tsx:41 | lowering twice is lowering once |
| Common.ContainsLower | views/SupplierProducts.tsx:43-45 | a case-sensitive hit is also a hit after both sides are lowered |
| Common.Filter | views/DeptExpensesView.tsx:44-48 | `filter` is no longer than its input, keeps only elements that satisfy the predicate, and keeps every element that does |
| Common.FilterIsSubsequence | views/DeptExpensesView.tsx:44-48 | the filtered list is an order-preserving subsequence of the input |
| Common.FilterKeepsAll | views/DeptExpensesView.tsx:44-48 | a predicate true on every element returns the list unchanged |
| Common.FilterAppend | views/StockQuotaView.tsx:36 | filter distributes over concatenation, so a counter over `[...list, x]` is the old count plus x's contribution |
| Common.FilterPrependLength | views/DeptExpensesView.tsx:67 | a counter over `[x, ...list]` is the old count plus one exactly when x qualifies |
| Common.FilterAgreeing | views/DeptExpensesView.tsx:55 | two predicates that agree on every element filter alike |
| Common.SumAppend | views/DeptExpensesView.tsx:53 | the summing `reduce` over a concatenation is the sum of the parts |
| Common.SumBounds | views/PurchaserArchive.tsx:62 | a sum of n terms in [lo, hi] lies in [n·lo, n·hi] |
| StockQuotaView.LabelCases | views/StockQuotaView.tsx:104-110 | every quota gets exactly one badge: Short iff it has a stock below low; Excess iff it has a stock not below low and above high; Good iff it has no stock or low ≤ stock ≤ high, since a missing stock fails both comparisons |
| StockQuotaView.BoundariesAreGood | views/StockQuotaView.tsx:104-106 | stock exactly at the low or at the high quota is Good, because both tests are strict |
| StockQuotaView.ColourMatchesLabel | views/StockQuotaView.tsx:98 | the stock-cell colour (rose, amber, emerald) always goes with the badge of lines 104-110 |
| StockQuotaView.CountersAgainstLabels | views/StockQuotaView.tsx:48-55 | the low counter counts exactly the rows badged Short; the high counter counts at least the rows badged Excess, and exactly those when every low quota ≤ its high quota |
| StockQuotaView.CountersBounded | views/StockQuotaView.tsx:48-62 | with low ≤ high everywhere, low count + high count ≤ the SKU total |
| StockQuotaView.InvertedQuotaCountedTwice | views/StockQuotaView.tsx:48-55 | a quota with low 200 > high 100 and stock 150 is counted by both counters but badged Short, so the counters exceed the total |
| StockQuotaView.SeedQuotasWellFormed | views/StockQuotaView.tsx:16-24 | every seeded row has low < reserve < high quota, stock in [0, 1500), and ids Q001..Q015 pairwise distinct |
| StockQuotaView.AddedQuotaCounters | views/StockQuotaView.tsx:31-39 | the quota `handleAdd` appends has no stock, because the form of lines 122-125 has no stock input, so it is badged Good whatever its quotas and neither counter (lines 48 and 55) changes |
| StockQuotaView.QuotaStore.constructor | views/StockQuotaView.tsx:27 | the store starts with the seed table |
| StockQuotaView.QuotaStore.Add | views/StockQuotaView.tsx:31-39 | one quota appended at the end with the form's name, drawing number and quotas, id `"Q" + pad3(length + 1)`, no reserve quota and no stock; the earlier ones unchanged; no range check |
| PlanTrackingView.OverLimitBoundary | views/PlanTrackingView.tsx:35 | over limit iff stock + supply > high quota; exactly equal is not over limit, one more is |
| PlanTrackingView.ArrivalIrrelevant | views/PlanTrackingView.tsx:35 | the arrived quantity never changes the flag |
| PlanTrackingView.OverLimitMonotone | views/PlanTrackingView.tsx:35 | more stock or supply never clears the flag, and a higher quota never sets it |
| PlanTrackingView.AlertIffOverLimit | views/PlanTrackingView.tsx:58-65 | the "Over Capacity!" badge is shown exactly on rows over limit, "Normal" on all others |
| PlanTrackingView.FixedRowsOverLimit | views/PlanTrackingView.tsx:9-12 | both fixed rows (85 + 1000 > 1000 and 380 + 100 > 400) show the badge |
| ProcurementPlanView.SeedPlansShape | views/ProcurementPlanView.tsx:10-27 | plan i has id PLAN-pad3(i+1), quantity 100+50i, source Auto iff 4 divides i, status Approved iff 3 divides i and Draft otherwise, unit Set iff 5 divides i |
| ProcurementPlanView.PlanIdInjective | views/ProcurementPlanView.tsx:19 | distinct numbers give distinct PLAN ids |
| ProcurementPlanView.SeedPlanIdsDistinct | views/ProcurementPlanView.tsx:19 | the 21 seeded ids are pairwise distinct |
| ProcurementPlanView.DeleteRemovesExactly | views/ProcurementPlanView.tsx:116 | delete leaves no entry with that id, keeps every other entry in its relative order, and changes nothing when the id is absent |
| ProcurementPlanView.AutoGenerateNoDedup | views/ProcurementPlanView.tsx:34-49 | every firing adds one more Auto entry whatever Auto entries exist already |
| ProcurementPlanView.IdReusedAfterDelete | views/ProcurementPlanView.tsx:51-58 | after deleting PLAN-001 from two plans, the next manual id is PLAN-002, which the surviving plan still has (delete at line 116) |
| ProcurementPlanView.AutoGenerateAsWrittenDropsUpdates | views/ProcurementPlanView.tsx:36-47 | the timer writes the list captured at the click: an entry added by hand in the meantime is missing from what it writes and its id goes to the new Auto entry, and an entry deleted in the meantime is back |
| ProcurementPlanView.AutoGenerateKeepsCurrent | views/ProcurementPlanView.tsx:36-47 | with the entry built from the list at firing time: a manual entry added in the meantime is kept behind the Auto entry, whose id no entry of the current list has; an entry deleted in the meantime stays deleted; with no change since the click it writes what the view writes |
| ProcurementPlanView.PlanStore.constructor | views/ProcurementPlanView.tsx:29 | the store starts with the seeded plans |
| ProcurementPlanView.PlanStore.ManualAdd | views/ProcurementPlanView.tsx:51-61 | one entry prepended with the form's fields, source Manual, status Draft and id PLAN-pad3(length+1); the rest unchanged and in order |
| ProcurementPlanView.PlanStore.AutoGenerate | views/ProcurementPlanView.tsx:38-47 | the intended update: one Auto Draft entry of 100 Pcs, numbered from the current list, prepended to it; the rest unchanged |
| ProcurementPlanView.PlanStore.Delete | views/ProcurementPlanView.tsx:116 | the list becomes the entries with another id |
| DeptExpensesView.SeedExpensesShape | views/DeptExpensesView.tsx:20-35 | every seeded expense has the seed status of its index, an amount in [500, 12499] and a department |
| DeptExpensesView.SeedStatusCases | views/DeptExpensesView.tsx:33 | Rejected iff 10 divides i, Pending iff 4 but not 10 divides i, Approved otherwise; expense 20 is Rejected |
| DeptExpensesView.SeedAmountRange | views/DeptExpensesView.tsx:21 | `500 + floor(random·12000)` lies in [500, 12499] |
| DeptExpensesView.FilteredSpec | views/DeptExpensesView.tsx:43-49 | the search throws exactly when some row has no department; otherwise it is an order-preserving subsequence of exactly the rows whose department, lower-cased description (against the lower-cased term) or id contains the term, and an empty term keeps all rows |
| DeptExpensesView.StatsBounds | views/DeptExpensesView.tsx:52-58 | pending + rejected ≤ the number of expenses, high-value ≤ it too, and the total is non-negative when every amount is |
| DeptExpensesView.MarkerMatchesCounter | views/DeptExpensesView.tsx:170-174 | the rows carrying the "High Value" marker are exactly those the `highValue` counter counts |
| DeptExpensesView.AddedExpenseStats | views/DeptExpensesView.tsx:60-67 | after `handleAdd` pending rises by 1, the total by the new amount, high-value by 1 exactly when the amount > 5000, and rejected is unchanged |
| DeptExpensesView.ExpenseStore.constructor | views/DeptExpensesView.tsx:38 | the store starts with the seeded expenses |
| DeptExpensesView.UntouchedDepartmentBreaksSearch | views/DeptExpensesView.tsx:215 | confirming the form with the department drop-down untouched stores an expense without a department, after which the search of lines 44-45 throws for every term, the empty one included |
| DeptExpensesView.DefaultedDepartmentKeepsSearch | views/DeptExpensesView.tsx:215-221 | with an untouched drop-down storing the option it shows, the new expense has the chosen or the shown department, the search never throws, and the empty term lists the new expense first |
| DeptExpensesView.ExpenseStore.Add | views/DeptExpensesView.tsx:60-70 | with the drop-downs defaulted: one Pending expense prepended with id "EXP-2602-M" + stamp and today's date, the rest unchanged; if every row had a department, every row still has one |
| PurchaserArchiveView.SeedPurchasersShape | views/PurchaserArchive.tsx:10-25 | 11 purchasers with ids P001..P011 pairwise distinct, each with exactly one evaluation scoring 85 + (i % 15), rating in [4, 5) |
| PurchaserArchiveView.EvalAdded | views/PurchaserArchive.tsx:54-66 | the `map` keeps the length and rewrites exactly the purchasers with the selected id |
| PurchaserArchiveView.EvalAddedChangesOnlySelected | views/PurchaserArchive.tsx:54-66 | the selected purchaser gets one evaluation at the end with id E+pad3(previous count+1) and the form's score, earlier evaluations and other fields kept; every other purchaser is untouched |
| PurchaserArchiveView.RatingFromMean | views/PurchaserArchive.tsx:61-63 | the new rating is (old score total + new score) / (count + 1) / 20, a missing score counted as 0 |
| PurchaserArchiveView.RatingInRange | views/PurchaserArchive.tsx:62-63 | with every score on the 0..100 scale the rating lies in [0, 5] |
| PurchaserArchiveView.VisibleEvalsSpec | views/PurchaserArchive.tsx:149-166 | expanded shows every evaluation, collapsed the first min(2, n) in order, and the More/Less toggle appears exactly when collapsing hides some |
| PurchaserArchiveView.DeleteRemovesExactly | views/PurchaserArchive.tsx:48-50 | delete keeps exactly the purchasers with another id, in order |
| PurchaserArchiveView.PurchaserStore.constructor | views/PurchaserArchive.tsx:28 | the store starts with the seeded purchasers |
| PurchaserArchiveView.PurchaserStore.Add | views/PurchaserArchive.tsx:36-46 | one purchaser appended with id P+pad3(length+1), rating 5.0 and no evaluations |
| PurchaserArchiveView.PurchaserStore.Delete | views/PurchaserArchive.tsx:48-50 | the list becomes the purchasers with another id |
| PurchaserArchiveView.PurchaserStore.AddEval | views/PurchaserArchive.tsx:52-69 | nothing changes while no purchaser is selected (null or empty id); otherwise the list becomes `EvalAdded` of the old one |
| SupplierProductsView.SeedProductsShape | views/SupplierProducts.tsx:11-20 | product i belongs to SUP+pad3((i % 32)+1) and has supply ratio 60 for even and 40 for odd i; ids pairwise distinct |
| SupplierProductsView.SupplierNameOrDefault | views/SupplierProducts.tsx:32 | the name is "Manual Entry Vendor" exactly when the form's name is missing, empty or that text itself; any other name is kept |
| SupplierProductsView.FilteredSpec | views/SupplierProducts.tsx:40-47 | the result is an order-preserving subsequence of exactly the rows whose lower-cased name, drawing number or model contains the lower-cased term; an empty term keeps all; a term and its lower-cased form select the same rows |
| SupplierProductsView.ExactHitIsFound | views/SupplierProducts.tsx:40-47 | a case-sensitive occurrence in any of the three fields is found |
| SupplierProductsView.EmptyStateIffNoMatch | views/SupplierProducts.tsx:95-132 | the "No matching supply records found" row shows exactly when the header count of line 55 is 0, which is exactly when no row matches |
| SupplierProductsView.DeleteRemovesExactly | views/SupplierProducts.tsx:121 | delete keeps exactly the products with another id, in order |
| SupplierProductsView.ProductStore.constructor | views/SupplierProducts.tsx:23 | the store starts with the seeded products |
| SupplierProductsView.ProductStore.Add | views/SupplierProducts.tsx:28-37 | one product appended at the end with id SP+pad3(length+1), the defaulted supplier name, and the drawing number, model and ratio typed into the form of lines 138-160; it has no supplier id and no specification, because the form has no input for them, so both table cells stay blank |
| SupplierProductsView.ProductStore.Delete | views/SupplierProducts.tsx:121 | the list becomes the products with another id |
| SupplierArchiveView.SeedSuppliersShape | views/SupplierArchive.tsx:10-25 | ids SUP001..SUP032, type `types[i % 5]`, QA system ISO9001 for even and AS9100 for odd i, name `names[i % 8]` + (i+1) + "公司" |
| SupplierArchiveView.SeedSupplierIdsDistinct | views/SupplierArchive.tsx:14 | the 32 seeded ids are pairwise distinct |
| SupplierArchiveView.SupplierStore.constructor | views/SupplierArchive.tsx:27 | the store starts with the seeded suppliers |
| SupplierArchiveView.SupplierStore.Add | views/SupplierArchive.tsx:31-39 | one supplier more, at the end, earlier ones unchanged; it has id SUP+pad3(length+1) and the name, manager and type typed into the form of lines 127-140, and no contact, phone, zip code, fax, address or QA system, because the form has no input for them, so the phone and QA cells stay blank |
| SupplierArchiveView.AddAfterSeedHasFreshId | views/SupplierArchive.tsx:34 | the first supplier added to the seed gets an id no seeded supplier has |
| QualityAnalysisView.GradeRanges | views/QualityAnalysisView.tsx:42-46 | A iff score ≥ 95, B iff 85 ≤ score < 95, C iff 75 ≤ score < 85, D iff score < 75 |
| QualityAnalysisView.GradeMonotone | views/QualityAnalysisView.tsx:42-46 | a higher score never gets a worse grade |
| QualityAnalysisView.BadgeInjective | views/QualityAnalysisView.tsx:257-261 | each grade has its own badge style and no two grades share one |
| QualityAnalysisView.NoGradeDInMockData | views/QualityAnalysisView.tsx:38-46 | with scores `floor(75 + random·25)` in [75, 99] no seeded row is graded D |
| QualityAnalysisView.DefectsUpToClosedForm | views/QualityAnalysisView.tsx:39 | the first n indexes carry ⌈n/10⌉ major defects, one at each multiple of 10 |
| QualityAnalysisView.TotalDefectsPrefix | views/QualityAnalysisView.tsx:67 | the summing `reduce` over the first n rows equals the defects of the first n indexes |
| QualityAnalysisView.TotalDefectsIsThree | views/QualityAnalysisView.tsx:67 | whatever the scores, `totalDefects` is 3 (rows 0, 10 and 20) |
| QualityAnalysisView.FilteredSpec | views/QualityAnalysisView.tsx:80-82 | the result is an order-preserving subsequence of exactly the rows whose item name or supplier contains the term; an empty term keeps all |
| ProdProgressView.ProgressAndStage | views/ProdProgressView.tsx:23-24 | progress 100 iff 5 divides i, 35 iff not and 3 divides i, 75 otherwise; stage Completed iff progress 100, Inspection iff not 100 and > 70, Manufacturing iff in (30, 70]; Planning never occurs |
| ProdProgressView.StatusCases | views/ProdProgressView.tsx:26-35 | Delayed iff 7 divides i and progress < 100, with 5 + i % 10 days; else At-risk iff 4 divides i and progress < 100, with 1 + i % 3 days; else On-track with 0 days |
| ProdProgressView.DelayIffNotOnTrack | views/ProdProgressView.tsx:26-35 | the late marker (delay > 0, line 198) shows exactly on items not on track; a finished item is on track with 0 days, so item 0 is Completed although 7 divides 0 |
| ProdProgressView.CountersBounded | views/ProdProgressView.tsx:53-57 | on rows where finished items are on track, completed + delayed + atRisk ≤ total |
| ProdProgressView.ProgressDataConsistent | views/ProdProgressView.tsx:22-48 | the generated items satisfy that condition |
| ProdProgressView.FilteredSpec | views/ProdProgressView.tsx:62-64 | the result is an order-preserving subsequence of exactly the items whose name, drawing number or id contains the term; an empty term keeps all |
| ProdProgressView.FirstItemStartDate | views/ProdProgressView.tsx:41 | item 0 carries the start date "02025-12-1", as the view builds it |
| ProdProgressView.StageDisplayFallback | views/ProdProgressView.tsx:66-75 | a stage that is neither one of the five names nor an Object.prototype member gets its raw name on slate; a prototype member such as "constructor" is found by the lookup and gives no badge; with English labels every badge reads as its stage name |
| ProdProgressView.StageColoursDistinct | views/ProdProgressView.tsx:66-75 | each of the five stages gets a badge, the five colours are different, and Planning shares the slate of the fallback badge of an unknown stage |
| QCQueryView.ResultCases | views/QCQueryView.tsx:36-38 | Fail iff 10 divides i, Conditional iff not and 7 divides i, Pass otherwise |
| QCQueryView.FailQtyOrder | views/QCQueryView.tsx:40 | a conditional lot rejects no more than a failed one, which rejects no more than the lot, and strictly more exactly from 7 units on |
| QCQueryView.RecordQuantities | views/QCQueryView.tsx:40-56 | passed + failed = inspected, 0 ≤ failed ≤ passed, failed is 0 exactly on Pass, and the follow-up depends only on the result |
| QCQueryView.RecordLot | views/QCQueryView.tsx:35-41 | lot i has 100 + 20i units and its passed quantity is the lot less the rejected quantity of its result |
| QCQueryView.ScaleCompare | views/QCQueryView.tsx:42 | comparing the pass rate with a whole percentage t is comparing 100·passed with t·inspected |
| QCQueryView.RateByResult | views/QCQueryView.tsx:40-42 | for a lot of 100 + 20i units the rate is 100 iff Pass, exactly 85 on Fail and above 95 on Conditional |
| QCQueryView.PassRateByResult | views/QCQueryView.tsx:179-183 | the rate text is emerald (rate 100) exactly on Pass records; failed lots show 85 on an amber bar, conditional lots an emerald bar |
| QCQueryView.CountersPartition | views/QCQueryView.tsx:61-65 | passed + failed + conditional = total |
| QCQueryView.FilteredSpec | views/QCQueryView.tsx:72-76 | the result is an order-preserving subsequence of exactly the records whose item name, supplier or batch number contains the term; an empty term keeps all |
| SupplyNoticeView.StatusCases | views/SupplyNoticeView.tsx:29 | Completed iff supplied = total, else Delayed iff 7 divides i, else In-Progress |
| SupplyNoticeView.InitialNoticesShape | views/SupplyNoticeView.tsx:16-30 | with `floor(random·total)` below the total, the 21 notices of the header each have supplied + remaining = total with remaining > 0, none is Completed, Delayed exactly at multiples of 7, and unit price 50 + 10i |
| SupplyNoticeView.PercentRange | views/SupplyNoticeView.tsx:65 | the rounded percentage is at most 100, and is 100 exactly when the remainder is at most half a percent of the total |
| SupplyNoticeView.FullBarWhileOpen | views/SupplyNoticeView.tsx:80 | 2499 of 2500 units gives a 100% emerald bar while the notice is still In-Progress |
| WorkshopAnalysisView.StatusAndPriorityCases | views/WorkshopAnalysisView.tsx:39-48 | Completed iff 5 divides i, Paused iff not and 7 does, Queued iff neither and 3 does; High priority iff 10 divides i, Medium iff not and 3 does |
| WorkshopAnalysisView.ProgressByStatus | views/WorkshopAnalysisView.tsx:40 | with draws in [20, 79], progress is 100 exactly on Completed and 0 exactly on Queued, and Running and Paused tasks lie in [20, 79] |
| WorkshopAnalysisView.TaskIdInjective | views/WorkshopAnalysisView.tsx:43 | distinct indexes give distinct WO ids |
| WorkshopAnalysisView.TaskIdsDistinct | views/WorkshopAnalysisView.tsx:43 | the 21 task ids are pairwise distinct |
| WorkshopAnalysisView.CountsPartition | views/WorkshopAnalysisView.tsx:72-77 | the four status counts add up to the number of tasks |
| WorkshopAnalysisView.DistributionMatchesStats | views/WorkshopAnalysisView.tsx:57-77 | the pie slices sum to `stats.total`, and `stats.running` and `stats.completed` are the Running and Completed slices |
| WorkshopAnalysisView.FilteredSpec | views/WorkshopAnalysisView.tsx:81-83 | the result is an order-preserving subsequence of exactly the tasks whose item name, workshop or id contains the term; an empty term keeps all |

## Left out

- Rendering: JSX, Tailwind classes, charts, icons, modals, the form inputs, App routing, NotificationCenter. These are presentation.
- Views with no rules: Dashboard, CostAnalysisView, GeneralTableView, OrderContractView, InspectionRequestView, DefectNoticeView, QualityRectifyView and QualityParamsView hold only constants or mock generators.
- Plumbing: services/api.ts and index.tsx are I/O (network delay, logging, DOM mounting).
- Chinese labels: the `t()` toggle is fixed to English. Chinese department, category and follow-up labels are not modelled. The exception is the option values of the expense form's drop-downs, which are Chinese in either language.
- Form state: the `setModalOpen(false)` and `setFormData({})` resets after each add are UI state, not modelled.
- Timer: the re-analyze timer (`setTimeout`, `isCalculating`) is reduced to two list states, the one at the click and the one when it fires.
- Randomness and time: `Date.now()`, `new Date()` and `Math.random()` are parameters. Month and day draws of the expense and purchaser seeds are not bounded.
- Floating-point values with no rule over them are left out: passRate and ppm in the quality analysis, the average score and pass rate, averageProgress, avgEfficiency, unitPrice in the supplier products.
- DeptExpensesView.NewExpense: the amount is an integer. The view stores `parseFloat` of the input, which can be fractional, and is NaN for an emptied input, which turns `stats.total` into NaN; a form confirmed without an amount stores none, and `exp.amount.toLocaleString()` (line 171) then throws.
- Partial forms: every text and number input of a form is taken as filled in, except where a line below says otherwise. The drop-downs of the expense form, the supplier name of the product form, and the fields that the quota, product and supplier forms have no input for are modelled: those stay unset.
- StockQuotaView.QuotaStore.Add: the Low and High inputs are taken as entered integers. An untouched input leaves the quota undefined, and an emptied one makes it NaN. Neither changes a badge or a counter of the new row, which has no stock anyway.
- DeptExpensesView.ExpenseStore.Add: an untouched description makes `e.description.toLowerCase()` throw on any term the department does not contain. This is not modelled; the untouched department drop-down is, under "## Findings".
- PurchaserArchiveView.PurchaserStore.Add: a purchaser added without a name makes `p.name.charAt(0)` (line 101) throw when the card renders. This is not modelled; the name is taken as entered.
- SupplierProductsView.ProductStore.Add: a product added without a drawing number or model makes `toLowerCase()` (lines 44-45) throw in the search, once a non-empty term misses its supplier name. A product added without a price makes `unitPrice.toFixed(2)` (line 108) throw when the table renders. These fields are taken as entered.
- SupplierProductsView.ProductStore.Add: the supply ratio is an integer. The view stores `parseFloat` of the input (line 158), which can be fractional, and is NaN for an emptied input; the ratio is only displayed, so no rule of the model depends on it.
- SupplierProductsView.FilteredSpec: in the model every product has a drawing number and a model, as every seeded product does. So the search never throws here, and the throw just described is not captured.
- Character set: `toLowerCase` lowers ASCII letters only.
- Naming: the supplier field `type` is called `kind`, because `type` is a Dafny keyword.
- Features without code: neither the views nor anything else in the repository computes a replenishment quantity, ingests stock snapshots with pending supply, deduplicates Auto plans or emits alerts, so none of these are modelled.
- PurchaserArchiveView.WithEval: the rating is the exact mean divided by 20. The `toFixed(1)`/`parseFloat` rounding to one decimal is not modelled.
- QCQueryView.FailQty: `Math.floor(q * 0.15)` and `Math.floor(q * 0.03)` are taken as the integer `(q * 15) / 100` and `(q * 3) / 100`. This assumes the floating-point product never lands just below a whole number.
- QCQueryView.PassRate: an exact real quotient, not the double the view computes.
- SupplyNoticeView.Percent: `Math.round(supplied / total * 100)` is taken as exact half-up rounding. The double-precision quotient can fall just below a half and round down where this model rounds up.
- SupplyNoticeView.Notice: the completion date is unpadded, as written, so it is not checked as a date.

## Findings

| source | as written | input that shows it | evidently intended | confidence | as-written member | corrected member |
|---|---|---|---|---|---|---|
| views/ProdProgressView.tsx:41-42 | `` `2025-12-${d}`.padStart(10, '0') `` pads the whole date text, not the day | item 0: day 1 gives "02025-12-1" | "2025-12-01", the day padded to two digits | high, not executed | Common.DateStampAsWrittenShiftsYear | Common.DateStampCorrect |
| views/QCQueryView.tsx:54 | the same `padStart(10, '0')` on the whole date | record 0: day 1 gives "02026-02-1" | "2026-02-01" | high, not executed | Common.DateStampAsWrittenShiftsYear | Common.DateStampCorrect |
| views/WorkshopAnalysisView.tsx:50 | the same `padStart(10, '0')` on the whole date | task 0: day 1 gives "02026-02-1" | "2026-02-01" | high, not executed | Common.DateStampAsWrittenShiftsYear | Common.DateStampCorrect |
| views/ProcurementPlanView.tsx:36-47 | the re-analyze timer builds `autoPlan` and writes `[autoPlan, ...plans]` with `plans` captured at the click | a manual add, or a delete, inside the one second before the timer fires: the added entry is lost and its id reused by the Auto entry, and the deleted one comes back | the whole Auto entry, its id included, built from the list the timer finds: `setPlans(prev => [autoPlanFor(prev), ...prev])` | medium, not executed | ProcurementPlanView.AutoGenerateAsWrittenDropsUpdates | ProcurementPlanView.AutoGenerateKeepsCurrent |
| views/DeptExpensesView.tsx:215 | the department `<select>` writes `formData.department` only in `onChange`, so it shows "Procurement" but stores nothing until changed | confirm the form without touching the drop-down: the new expense has no department and the search at line 45 throws a TypeError on the next render, even for the empty term | an untouched drop-down stores the option it shows, for example by starting `formData` with the first option | high, not executed | DeptExpensesView.UntouchedDepartmentBreaksSearch | DeptExpensesView.DefaultedDepartmentKeepsSearch |

The mock records of the three views build their dates as written (`Common.DateStampAsWritten`), and `ProdProgressView.FirstItemStartDate` shows the result for item 0. `PlanStore.AutoGenerate` uses the corrected update, and `ExpenseStore.Add` uses the corrected drop-downs.
