# Superchefs stock and money arithmetic, in Dafny

Superchefs is a bakery back office. Each branch records its stock of raw materials and finished products, its production runs, its sales, its material requests and its petty-cash ("imprest") purchases. Head office sees every branch at once.

The screens do their arithmetic in the browser, over rows fetched from the database's summary views and tables. This project models that arithmetic and proves what it computes:

- the current stock balance of a material or a product, as derived from a summary row;
- the opening and closing stock values of an accounting range;
- the revenue, cost, profit and cost/revenue ratio of the accounts, the dashboard and the branch chart;
- the test that a recipe or a sale has enough stock;
- rescaling a recipe to a new yield, and costing a recipe when it is saved;
- the material-usage action;
- the stock-insert dialogs, which add to today's row of the per-day stock table;
- the material-request and imprest lists, the finalize dialogs and the quantity edit;
- the weekly and procurement summaries, and their paging;
- the attendance calendar;
- the push-key decoder.

The modelled values and parameters:

- Quantities and money are `real`.
- Instants are integer milliseconds. A day is a day number, with days of 86 400 000 ms.
- A database null or absent column is `None`. A falsy id is the empty string.
- Database reads are inputs, and writes are state changes (a `class`) or returned rows.
- Clocks, time zones, calendar months and years, and `atob` are parameters.

Each screen is one module, in a file named after it. `common.dfy` holds the shared sums, filters and last-row-wins indexes. `calendar.dfy` holds days and weeks. `ledger.dfy` holds the shared balance formulas and their reference definition by recorded movements. `views.dfy` holds the summary-view naming.

## Model

| member | source | states |
|---|---|---|
| Common.OrZero | src/pages/Accounts.tsx:85 | a null column reads 0, a present one its value |
| Common.Filter | src/pages/Accounts.tsx:485-493 | an element is kept exactly when it is in the input and satisfies the predicate, and no more elements come out than went in |
| Common.FindFirst | src/pages/Accounts.tsx:696-702 | `find` by id: the index of the first element passing the test, and none exactly when no element passes |
| Common.Find | src/pages/Recipes.tsx:119 | `find`: the first element passing the test, none exactly when no element passes; the price lookups, the usage action's material (src/pages/Inventory.tsx:237), the sale form's product and recipe (src/components/sales/SaleForm.tsx:125-126), the product page's recipe (src/pages/Products.tsx:542-544) and the finalize dialog's request (src/pages/MaterialRequest.tsx:370-372) all use it |
| Common.IndexWithLastWins | src/pages/Inventory.tsx:160-166 | an index built by overwriting holds, for each key, the value of the last row with that key |
| Common.BuildIndexWith | src/pages/Inventory.tsx:160-166 | the `forEach` that fills a lookup object computes that index; every row's key is present and each key belongs to some row |
| Common.GroupSum | src/components/admin/BranchAnalytics.tsx:293-315 | each key once, in first-appearance order, with the total of its rows; the totals add up to the total of all rows |
| Common.SumFilterAsGuard | src/pages/imprest.tsx:226-232 | summing over the filtered rows equals summing a guarded amount over all rows |
| Common.SumPermutation | src/components/accounts/ProductPerformance.tsx:49 | reordering the elements leaves their sum unchanged |
| Calendar.CurrentWeek | src/pages/Dashboard.tsx:23-39 | the week starts at the first millisecond of a Monday, ends at the last millisecond of the seventh day from there, and contains now |
| Calendar.InDayRangeByDays | src/pages/Accounts.tsx:737-738 | an instant lies between the start of one day and the end of another exactly when its day lies between those days |
| Calendar.SameDayIsDayWindow | src/pages/Accounts.tsx:736 | the same-day test accepts exactly the instants of that day |
| Ledger.RecordMaterial | src/pages/Inventory.tsx:207-215 | recording a movement adds the quantity to its category's column and moves the balance by the quantity with the category's sign |
| Ledger.MaterialBalanceIsSignedTotal | src/pages/Inventory.tsx:207-215 | a material summary row aggregated from movements has the starting balance plus the signed total of the movements |
| Ledger.NoMaterialSummaryIsEmpty | src/pages/Inventory.tsx:207 | a material without a summary row has balance 0, and recording movements on it gives their signed total |
| Ledger.RecordProduct | src/pages/Products.tsx:262-288 | recording a product movement moves the nine-column balance by its signed quantity |
| Ledger.ProductBalanceIsSignedTotal | src/pages/Products.tsx:262-288 | a product summary row aggregated from movements has the signed total of the movements as its balance |
| Ledger.NoProductSummaryIsEmpty | src/pages/Products.tsx:262-288 | a product without a summary row has balance 0, and recording movements on it gives their signed total |
| Ledger.MaterialQtyMap | src/pages/Production.tsx:103-116 | each material id of the fetched rows maps to the balance of its last summary row, and no other id is present; absent data counts as no rows |
| Ledger.ProductQtyMap | src/pages/Production.tsx:118-133 | each product id of the fetched rows maps to the balance of its last summary row, and no other id is present; absent data counts as no rows |
| Views.PeriodOrToday | src/pages/Inventory.tsx:44-55 | a known period is kept, and any other reads "today" |
| Views.AdminViewOnlyWhenChosen | src/pages/Inventory.tsx:38-70 | a view name starts with `admin_` exactly when the admin view was chosen, and an unknown period names the "today" view |
| Accounts.ApplyDateFilterKeepsDays | src/pages/Accounts.tsx:87-101 | without `from` every row is kept; with `from` and `to` the rows dated from `from`'s day to `to`'s day; with `from` alone the rows of `from`'s day |
| Accounts.LatestIndex | src/pages/Accounts.tsx:241-247 | the row the descending sort puts first is not earlier than any row, and an undated row ranks below every dated one |
| Accounts.EarliestIndex | src/pages/Accounts.tsx:233-239 | the row the ascending sort puts first is not later than any row |
| Accounts.StockAtWithoutTarget | src/pages/Accounts.tsx:261-266 | with no target, an empty group is worth 0, and otherwise the count of a most recently dated row is taken |
| Accounts.ClosingStockAt | src/pages/Accounts.tsx:268-275 | the closing count is that of a latest row dated at or before the target, and 0 when there is none |
| Accounts.OpeningStockAt | src/pages/Accounts.tsx:276-294 | the opening count is that of a latest row strictly before the target; failing that, `opening_stock ?? quantity` of an earliest row at or after it; failing both, 0 |
| Accounts.OpeningTarget | src/pages/Accounts.tsx:298-303 | an opening target exists exactly when `from` does, and it is the start of the day before `from`'s |
| Accounts.ClosingTarget | src/pages/Accounts.tsx:305-309 | a closing target exists exactly when `to` does, and it is the last millisecond of `to`'s day |
| Accounts.OpeningOfFetchedGroup | src/pages/Accounts.tsx:298-302 | on rows fetched through the same range, no row precedes the opening target, so the opening value is that of an earliest row |
| Accounts.ProductPrice | src/pages/Accounts.tsx:694-698 | a falsy or unknown id is priced 0, and a known one at the selling price of its first product |
| Accounts.MaterialPrice | src/pages/Accounts.tsx:700-704 | a falsy or unknown id is priced 0, and a known one at the unit price of its first material |
| Accounts.DistinctPairs | src/pages/Accounts.tsx:742-747 | the (item, branch) pairs are distinct and are exactly the pairs of the rows |
| Accounts.AllBranchesSplit | src/pages/Accounts.tsx:749-750 | the value over all branches is the selected branch's value plus that of every other branch |
| Accounts.SumPairs | src/pages/Accounts.tsx:752-759 | the opening and closing loops add up the priced value of every pair's group |
| Accounts.IncludedIsFetchWindow | src/pages/Accounts.tsx:733-738 | the in-browser inclusion test selects exactly the rows the query's date filter selects |
| Accounts.FlowValueOfFetchedRows | src/pages/Accounts.tsx:780-784 | on fetched rows, a movement sum is every row's quantity times its item's price |
| Accounts.StockMetricsValue | src/pages/Accounts.tsx:732-901 | the product and material opening, closing, movement and total values agree with their specification functions, and each total is material plus product |
| Accounts.RatioMeaning | src/pages/Accounts.tsx:945-946 | the ratio is 0 without revenue; with revenue it exceeds 100 exactly at a loss, and stays at or below `k` exactly when cost is at most `k` percent of revenue |
| Accounts.ComputeMetrics | src/pages/Accounts.tsx:924-955 | revenue, cost, items, profit and ratio are the sums over the sales' lines and the five cost tables; the same member stands for the identical metrics block of the stock-test screen, src/pages/Acctest.tsx:792-830 |
| Accounts.ScopeItemsToProduct | src/pages/Accounts.tsx:485-493 | with a product selected every sale is kept, holding only that product's lines in order |
| Accounts.ScopedRevenue | src/pages/Accounts.tsx:485-493 | revenue over the scoped sales is the revenue of the selected product's lines |
| Acctest.ProductUnitCost | src/pages/Acctest.tsx:498-503 | an unknown product is priced 0, and a known one at its first row's unit cost |
| Acctest.MaterialUnitPrice | src/pages/Acctest.tsx:507-512 | an unknown material is priced 0, and a known one at its first row's unit price |
| Acctest.PriceBases | src/pages/Acctest.tsx:498-503 | the same product row is worth its `price` on the current screen and its `unit_cost` on this one |
| Acctest.GetLatestMeaning | src/pages/Acctest.tsx:516-527 | the raw column of a latest row dated on or before the day, and the number 0 when there is none |
| Acctest.TableLevelFactors | src/pages/Acctest.tsx:553-563 | the product opening and closing values are one table-wide level times the sum of the rows' prices |
| Acctest.InclusionAgrees | src/pages/Acctest.tsx:534-550 | using `to` alone as the end date selects the same rows as the current screen's `to ?? from` |
| Acctest.FlowValuesAgree | src/pages/Acctest.tsx:577-589 | hence every movement sum equals the current screen's under the same prices |
| Acctest.DayColumnSumIsThatDay | src/pages/Acctest.tsx:649-657 | a material opening or closing sum counts the rows of that day alone |
| Acctest.DayColumnSum | src/pages/Acctest.tsx:649-672 | a material opening or closing sum is the worth of that day's rows, and of all rows when there is no day |
| Acctest.ProductSide | src/pages/Acctest.tsx:553-648 | the product opening and closing values are one table-wide level times the sum of the rows' unit costs, and every product movement value equals the current screen's Σ quantity·unit cost over the rows it includes, with `to ?? from` as the end |
| Acctest.MaterialSide | src/pages/Acctest.tsx:649-749 | the material opening is the worth of `from`'s day's rows and the closing that of `to ?? from`'s day's rows (all rows without a day), and every material movement value equals the current screen's |
| Acctest.StockMetricsValue | src/pages/Acctest.tsx:750-772 | each total field is the material value plus the product value, and the opening values follow the table-wide (products) and one-day (materials) rules |
| Inventory.ViewNameChoice | src/pages/Inventory.tsx:38-70 | the admin view only for a head-office user on the cumulative scope, and an unknown period reads today's view |
| Inventory.SummaryByMaterialId | src/pages/Inventory.tsx:160-166 | every row's material is indexed, and each entry holds the last row of that material |
| Inventory.CurrentQuantity | src/pages/Inventory.tsx:207-215 | a material without a summary row has 0, and otherwise the ledger balance of its row |
| Inventory.DirectIndirectPartition | src/pages/Inventory.tsx:169-195 | the direct and indirect lists are disjoint and together hold exactly the materials that match the name filter, whatever the ASCII case of the filter text |
| Inventory.TotalValueSplits | src/pages/Inventory.tsx:356-370 | the grand total is the direct total plus the indirect total, and it counts each listed material once |
| Inventory.LowStockRules | src/pages/Inventory.tsx:500-503 | an indirect material shown red is also red by the direct rule, and the two rules differ exactly at a quantity equal to the minimum |
| Inventory.UsageDecision | src/pages/Inventory.tsx:206-248 | a NaN or non-positive quantity, a quantity above the balance, or a missing unit price is each rejected in that order; otherwise one row with quantity times unit price is recorded |
| Inventory.UsageKeepsStock | src/pages/Inventory.tsx:226-233 | recorded usage never drives the balance below 0, and counting it lowers the balance by exactly the quantity |
| Inventory.UsageLedger.AddUsage | src/pages/Inventory.tsx:206-266 | a rejected usage records nothing; an accepted one whose insert fails records nothing and reports the failure; otherwise the usage table gains exactly the decided row |
| Products.GetNumber | src/pages/Products.tsx:258-259 | a numeric property is read as itself, and anything else as 0 |
| Products.CurrentQuantityIsBalance | src/pages/Products.tsx:262-288 | the screen's nine-term formula is the shared product balance |
| Products.ProductId | src/pages/Products.tsx:71-72 | `product_id` when truthy, else `id` when truthy, else "" |
| Products.ProductName | src/pages/Products.tsx:73-75 | `product_name` when truthy, else `name` when truthy, else "" |
| Products.ViewNameChoice | src/pages/Products.tsx:102-130 | the admin view only for a head-office user on the "all" scope, and an unknown period reads today's view |
| Products.Acrr | src/pages/Products.tsx:550-568 | attributed cost over sales as a percentage, a sales figure of 0 dividing by 1 |
| Products.Ucrr | src/pages/Products.tsx:570-574 | the recipe's unit cost over its selling price as a percentage, 0 without a recipe, and the unit cost times 100 (a division by 1) when the price is 0 or absent |
| Products.AcrrRed | src/pages/Products.tsx:729-742 | with positive sales, ACRR is red exactly when attributed cost exceeds 75% of sales |
| Products.UcrrRed | src/pages/Products.tsx:714-728 | with a positive price, UCRR is red exactly when unit cost exceeds 75% of the price |
| Products.StockPrice | src/pages/Products.tsx:464-467 | the first recipe's selling price when it is a number, 0 included, else the row's number, else 0 |
| Products.StockValueOfSearch | src/pages/Products.tsx:458-472 | the stock value counts each row that matches the search once and ignores the rest; an empty search counts every row |
| BranchAnalytics.IsoWeekday | src/components/admin/BranchAnalytics.tsx:266 | the weekday runs from 1 to 7 and agrees with `getDay()` modulo 7, so Sunday is 7 |
| BranchAnalytics.WeekWindowIsCurrentWeek | src/components/admin/BranchAnalytics.tsx:263-273 | the weekly window is the current Monday-to-Sunday week |
| BranchAnalytics.FilterByTimeframe | src/components/admin/BranchAnalytics.tsx:256-283 | each timeframe keeps exactly the sales inside its window, in order |
| BranchAnalytics.WeeklyKeepsThisWeek | src/components/admin/BranchAnalytics.tsx:263-273 | the weekly filter keeps exactly the sales made this week |
| BranchAnalytics.GroupByTimeframe | src/components/admin/BranchAnalytics.tsx:286-318 | one entry per period label of the kept sales, in first-sale order, each with the total of its sales; the entries add up to all kept sales |
| BranchAnalytics.GroupLabels | src/components/admin/BranchAnalytics.tsx:293-317 | the labels are distinct, and every kept sale's label is among them |
| BranchAnalytics.EntriesSum | src/components/admin/BranchAnalytics.tsx:317 | the entries' totals add up to the totals of their keys |
| BranchAnalytics.SummaryOf | src/components/admin/BranchAnalytics.tsx:321-332 | the sales total is the sum of the entries, and the counts are the lengths of the fetched lists; each is 0 when its list is absent |
| BranchAnalytics.CurrentQuantitiesAgree | src/components/admin/BranchAnalytics.tsx:366-391 | the chart's material and product quantities are the shared ledger balances |
| Production.CheckSufficiency | src/pages/Production.tsx:278-311 | the loop reports one shortage per short ingredient, in order |
| Production.ShortagesMeaning | src/pages/Production.tsx:278-311 | there are no shortages exactly when no checked ingredient needs more than its stock, and each shortage carries the need and the stock of an ingredient that is short |
| Production.HandleProduce | src/pages/Production.tsx:313-332 | nothing happens while loading; otherwise the recipe is produced exactly when no ingredient is short, and the shortages are reported |
| Production.FetchedYield | src/pages/Production.tsx:154-157 | a fetched yield is never 0, and a non-zero stored yield is kept |
| Production.YieldChangeEffect | src/pages/Production.tsx:347-366 | a yield below 1 changes nothing; otherwise the targeted recipes get the yield, each ingredient keeps its quantity per unit of yield, the rest are unchanged, and yields stay non-zero |
| Production.RescaleRoundTrip | src/pages/Production.tsx:353-360 | rescaling to a yield and back restores every ingredient quantity |
| SaleForm.RemoveAt | src/components/sales/SaleForm.tsx:118-122 | only line `index` is removed, and the others keep their order |
| SaleForm.RecipeUnitCost | src/components/sales/SaleForm.tsx:126-127 | the unit cost (`|| 0`) of the first recipe of the product, and 0 when the product has no recipe |
| SaleForm.ProductChange | src/components/sales/SaleForm.tsx:124-141 | a known product sets the line's product, price and cost and keeps its quantity; an unknown product changes nothing |
| SaleForm.RemoveUndoesAdd | src/components/sales/SaleForm.tsx:112-122 | removing the line just added restores the list |
| SaleForm.NewItemNeedsProduct | src/components/sales/SaleForm.tsx:41-46 | a fresh line fails the schema until a product is chosen |
| SaleForm.ProductChangeValidates | src/components/sales/SaleForm.tsx:41-46 | choosing a product with a non-empty id and non-negative price and cost makes a line valid |
| SaleForm.ItemList.AddItem | src/components/sales/SaleForm.tsx:112-116 | the new empty line goes last |
| SaleForm.ItemList.RemoveItem | src/components/sales/SaleForm.tsx:118-122 | the state becomes the list with line `index` removed |
| SaleForm.ItemList.ChangeProduct | src/components/sales/SaleForm.tsx:124-141 | the state becomes the list with the product change applied |
| SaleForm.ShortagesEmpty | src/components/sales/SaleForm.tsx:155-167 | there are no shortages exactly when no line asks for more than its stock, an unknown product counting 0 |
| SaleForm.HandleSubmit | src/components/sales/SaleForm.tsx:147-177 | while loading it reports a root error; otherwise the sale is submitted exactly when there are no shortages, which are reported otherwise |
| Sales.RecipeCost | src/pages/Sales.tsx:147-150 | the unit cost of the first recipe of the product, and 0 when there is none or it is null |
| Sales.Lines | src/pages/Sales.tsx:145-162 | one sale-item row per form line, in order, with subtotal and total cost |
| Sales.LinesMatchTotal | src/pages/Sales.tsx:122-160 | the rows' subtotals add up to the sale's total amount, and their costs to each quantity times its recipe's unit cost |
| Sales.TotalNonNegative | src/pages/Sales.tsx:125-128 | lines with non-negative quantities and prices give a non-negative total |
| Sales.BranchToUse | src/pages/Sales.tsx:84 | the selected branch for a "HEAD OFFICE" branch id, else the user's own branch id |
| Sales.PeriodRange | src/pages/Sales.tsx:189-206 | the day, the Monday-based week, the month or the year of now; any other period is the day |
| Sales.PeriodContainsNow | src/pages/Sales.tsx:189-206 | the day and week ranges contain now |
| Sales.FilteredSales | src/pages/Sales.tsx:210-212 | exactly the sales created inside the range, in order |
| Sales.TodaysSales | src/pages/Sales.tsx:189-212 | for "day", and for any unknown period, the list is exactly the sales of the current day |
| Sorting.SortDescending | src/components/accounts/BranchPerformance.tsx:99 | the array ends in non-increasing key order and is a permutation of its old contents |
| Sorting.SortedDescending | src/components/accounts/ProductPerformance.tsx:49 | the result is in non-increasing key order and is a permutation of the input |
| BranchPerformance.InitEntries | src/components/accounts/BranchPerformance.tsx:54-62 | one zeroed entry per distinct branch id, named after its last branch row, in first-seen order |
| BranchPerformance.AddSale | src/components/accounts/BranchPerformance.tsx:64-71 | a listed branch's entry gains the sale's line subtotals and costs, and a sale of an unlisted branch is skipped |
| BranchPerformance.AddSales | src/components/accounts/BranchPerformance.tsx:64-71 | each listed branch's revenue and cost are the totals of its own sales' lines |
| BranchPerformance.Finish | src/components/accounts/BranchPerformance.tsx:74-85 | each entry adds its branch's five cost buckets, and gets profit as revenue minus cost and ratio as cost over revenue |
| BranchPerformance.BranchMetrics | src/components/accounts/BranchPerformance.tsx:34-96 | one entry per distinct branch id, in first-seen order, each holding exactly its branch's figures |
| BranchPerformance.SortByProfit | src/components/accounts/BranchPerformance.tsx:99 | the entries end sorted by profit, largest first, as a permutation of the old ones |
| BranchPerformance.UnlistedBranchIgnored | src/components/accounts/BranchPerformance.tsx:64-79 | a sale or a cost row of a branch that is not listed changes no entry |
| BranchPerformance.EntryMeaning | src/components/accounts/BranchPerformance.tsx:80-84 | profit is revenue minus cost; the ratio is 0 without revenue and above 100 exactly at a loss |
| BranchPerformance.QuietBranchIsZero | src/components/accounts/BranchPerformance.tsx:54-85 | a branch with no sales and no cost rows stays at zero |
| BranchPerformance.BarRule | src/components/accounts/BranchPerformance.tsx:103-116 | the bar's length is the size of the profit and it is red exactly when it points down or, at zero profit, the ratio is above 75; with revenue it is green exactly when cost is at most 75 % of revenue, and without revenue always green |
| Dashboard.WeekEndsSunday | src/pages/Dashboard.tsx:23-39 | the week ends on the Sunday six days after its Monday, at that day's last millisecond |
| Dashboard.WeekRatio | src/pages/Dashboard.tsx:232-257 | the ratio is the sale lines' cost plus the five cost tables over the lines' revenue, as a percentage, and 0 without revenue |
| Dashboard.LowStockCount | src/pages/Dashboard.tsx:289-317 | the count is the number of materials with a defined minimum, a non-zero balance, and a balance at most that minimum |
| Dashboard.LowStockEdgeCases | src/pages/Dashboard.tsx:308-314 | a null minimum counts exactly a negative balance; a material without a summary row, or with an undefined minimum, is never counted |
| Dashboard.RecentEntryOf | src/pages/Dashboard.tsx:115-120 | missing names, yield and timestamp take their defaults, and present ones are kept |
| Dashboard.RecentProduction | src/pages/Dashboard.tsx:115-120 | one entry per fetched row, in order |
| Dashboard.RecentNamesNonEmpty | src/pages/Dashboard.tsx:116-117 | every displayed row names a branch and a product |
| ProductPerformance.CountedItems | src/components/accounts/ProductPerformance.tsx:36-39 | an item is counted exactly when it belongs to one of the sales and carries a product id |
| ProductPerformance.EntriesSum | src/components/accounts/ProductPerformance.tsx:46 | the entries' quantities add up to the totals of their ids |
| ProductPerformance.CollectItems | src/components/accounts/ProductPerformance.tsx:36-48 | the nested loops collect exactly the counted items |
| ProductPerformance.ProductSales | src/components/accounts/ProductPerformance.tsx:34-50 | the entries are a largest-first permutation of one entry per product, and their quantities add up to all counted items' |
| ProductPerformance.FirstNameMeaning | src/components/accounts/ProductPerformance.tsx:40-45 | an entry is named after its product's first counted item, and "Unknown" when that item has no name |
| ProductPerformance.EntryIds | src/components/accounts/ProductPerformance.tsx:38-45 | the entry ids are distinct and non-empty, and every counted item's product is among them |
| Pagination.Slice | src/components/imprest/ImprestSummary.tsx:101 | `slice` clamps both ends to the length, and yields the whole segment between them |
| Pagination.FullLastPageReportsNext | src/components/procurement/PoSummary.tsx:68 | the written next-page test reports a next page when the page ends exactly on the last row |
| Pagination.AsWrittenDiffersOnlyAtFullPage | src/components/procurement/PoSummary.tsx:68 | the written and the corrected tests differ exactly when the page ends on the last row |
| Pagination.PagesTile | src/components/imprest/ImprestSummary.tsx:68-69 | each page holds at most 1000 rows; page `p + 1` starts right after page `p`; a next page exists exactly when a row lies past it |
| ImprestSummary.TotalsSum | src/components/imprest/ImprestSummary.tsx:98 | the entries' totals add up to the totals of their keys |
| ImprestSummary.SummaryPage | src/components/imprest/ImprestSummary.tsx:67-104 | the page is that page of the per-branch summary, a next page is reported exactly when the next page of entries is non-empty (the corrected flag of the Findings), the summary's totals hold every row's cost once, and on a single first page the header total is the cost of all rows |
| ImprestSummary.RowCountFlagsEmptyPage | src/components/imprest/ImprestSummary.tsx:72-102 | the flag as written, on the matched-row count: 1001 rows of one branch report a next page, while the summary has one entry and page 2 is empty |
| ImprestSummary.SummaryKeys | src/components/imprest/ImprestSummary.tsx:86-96 | the keys are distinct, rows without a branch fall under "unknown", and every row's key has an entry |
| PoSummary.UnitPrice | src/components/procurement/PoSummary.tsx:116-118 | the price of the joined material, the first of an array, and 0 when absent or falsy |
| PoSummary.MaterialName | src/components/procurement/PoSummary.tsx:151-153 | the name of the joined material, and "N/A" when absent or empty |
| PoSummary.HeaderIsSumOfCells | src/components/procurement/PoSummary.tsx:113-121 | the header total is the sum of the rows' Cost cells |
| PoSummary.HeaderNonNegative | src/components/procurement/PoSummary.tsx:113-121 | with non-negative quantities and prices, the header total is non-negative |
| PoSummary.SummaryPage | src/components/procurement/PoSummary.tsx:43-69 | the page's rows are that page of the list, and the next-page flag is set exactly when the next page holds a row |
| Recipes.RecipeCost | src/pages/Recipes.tsx:232-236 | the sum of price times quantity, or none when an ingredient lacks its material |
| Recipes.UpdateOf | src/pages/Recipes.tsx:240-247 | the update stores the cost as material cost, keeps the product's price and the yield, and sets a unit cost that times the yield gives the cost; a zero yield gives no unit cost |
| Recipes.Inserts | src/pages/Recipes.tsx:263-273 | one insert per ingredient, in order |
| Recipes.SaveResult | src/pages/Recipes.tsx:230-279 | the save fails its costing exactly when an ingredient lacks its material; otherwise it stops at the write that errs, or completes; a failed costing or update writes nothing |
| Recipes.SavePartial | src/pages/Recipes.tsx:238-274 | a failed delete leaves the row updated with the new cost over the old ingredient rows; a failed insert leaves the row updated with no ingredient rows |
| Recipes.SaveMeaning | src/pages/Recipes.tsx:230-279 | a complete save stores one row per ingredient with its quantity and ids (null when falsy), and the stored cost is the sum of their price times quantity |
| Recipes.InsertsCost | src/pages/Recipes.tsx:263-273 | the inserted rows' price times quantity add up to the recipe cost |
| Recipes.SetQuantity | src/pages/Recipes.tsx:474-486 | only row `idx` takes the new quantity |
| Recipes.DeleteAt | src/pages/Recipes.tsx:493-499 | only row `idx` is removed, and the others keep their order |
| Recipes.Append | src/pages/Recipes.tsx:510-518 | the new ingredient goes last |
| Recipes.DeleteUndoesAppend | src/pages/Recipes.tsx:493-518 | deleting the row just added restores the list |
| Recipes.AppendCost | src/pages/Recipes.tsx:510-518 | adding an ingredient adds its price times quantity to the cost |
| Recipes.SetQuantityCost | src/pages/Recipes.tsx:474-486 | editing a quantity moves the cost by the price times the change |
| Recipes.MaterialChoices | src/pages/Recipes.tsx:108-109 | one material option per material, in order |
| Recipes.ProductChoices | src/pages/Recipes.tsx:110-116 | one product option per product, its price read as the unit price |
| Recipes.AddFromFormMeaning | src/pages/Recipes.tsx:159-173 | a click adds an ingredient exactly when an option has the id and the quantity is non-zero; the id goes into the material or the product id by kind |
| Recipes.MaterialDisplay | src/pages/Recipes.tsx:314-327 | the material's name when it has an id and a join, else the product's likewise, else "Unknown" |
| Recipes.AddedLabel | src/pages/Recipes.tsx:159-173 | a freshly added material shows the option's name and unit, and a freshly added product shows "Unknown" |
| StockStore.AddField | src/components/inventory/UpdateQuantityDialog.tsx:106-108 | an empty field goes last |
| StockStore.RemoveField | src/components/inventory/UpdateQuantityDialog.tsx:111-113 | only field `index` is removed, and the others keep their order |
| StockStore.RemoveUndoesAdd | src/components/products/InsertProductQuantityDialog.tsx:54-60 | removing the field just added restores the fields |
| StockStore.SetQuantity | src/components/inventory/UpdateQuantityDialog.tsx:116-122 | only field `index` takes the quantity |
| StockStore.Processed | src/components/inventory/UpdateQuantityDialog.tsx:169-229 | the fields before the first failure, or all of them |
| StockStore.LoopOutcome | src/components/inventory/UpdateQuantityDialog.tsx:181-228 | the loop ends at the first failed field, and succeeds without one |
| StockStore.AfterFieldsMeaning | src/components/inventory/UpdateQuantityDialog.tsx:169-229 | each row of the branch and day grows by the total entered for its item, repeats adding up; other rows keep their value; rows exist afterwards exactly when they existed or a field names them |
| StockStore.OtherRowsUnchanged | src/components/inventory/UpdateQuantityDialog.tsx:173-179 | a row of another branch or another day is never touched |
| StockStore.DayStore.WriteFields | src/components/inventory/UpdateQuantityDialog.tsx:169-229 | the table becomes the processed fields written in order onto the old table, and the outcome is the loop's |
| UpdateQuantityDialog.InitialBranch | src/components/inventory/UpdateQuantityDialog.tsx:42-47 | no branch for a head-office user or without a user, and otherwise the user's own branch id |
| UpdateQuantityDialog.SelectMaterial | src/components/inventory/UpdateQuantityDialog.tsx:80-137 | the field takes the material; with a branch and a material its quantity becomes the stored row's quantity, 0 when that row's quantity is null or 0, and null when the fetch errs, as `.single()` does when there is no row; other fields are untouched |
| UpdateQuantityDialog.HandleSubmit | src/components/inventory/UpdateQuantityDialog.tsx:140-229 | without a branch or with a bad field nothing is written; otherwise the processed fields are added to today's rows |
| UpdateQuantityDialog.RejectedWritesNothing | src/components/inventory/UpdateQuantityDialog.tsx:141-164 | no branch, a missing material, an empty quantity or a quantity at most 0 writes nothing |
| UpdateQuantityDialog.AcceptedSubmit | src/components/inventory/UpdateQuantityDialog.tsx:169-229 | an accepted submit adds to each of today's rows the quantities entered before the first failure; other rows are untouched |
| InsertProductQuantityDialog.SelectProduct | src/components/products/InsertProductQuantityDialog.tsx:62-70 | only that field's product changes |
| InsertProductQuantityDialog.HandleSubmit | src/components/products/InsertProductQuantityDialog.tsx:72-158 | without a branch or with a bad field nothing is written; otherwise the processed fields are added to today's rows |
| InsertProductQuantityDialog.RejectedWritesNothing | src/components/products/InsertProductQuantityDialog.tsx:73-94 | no branch, a missing product, an empty quantity or a negative quantity writes nothing, and a quantity of 0 is valid |
| InsertProductQuantityDialog.AcceptedSubmit | src/components/products/InsertProductQuantityDialog.tsx:99-158 | an accepted submit adds each product's quantities before the first failure to today's row; other rows are untouched |
| InsertProductQuantityDialog.AcceptsMoreThanMaterialDialog | src/components/products/InsertProductQuantityDialog.tsx:82-86 | every field the material dialog accepts is accepted here, and they differ exactly on a quantity of 0 |
| MaterialRequests.RequestsHasNextPage | src/components/procurement/MaterialRequests.tsx:140 | the screen's test is the corrected one: a next page exists exactly when more than `page` times 1000 rows exist |
| MaterialRequests.AverageWeeklyUsage | src/components/procurement/MaterialRequests.tsx:63-82 | null when the query fails; otherwise the 30 days' usage over 4, null rows counting 0 |
| MaterialRequests.AverageTimesFour | src/components/procurement/MaterialRequests.tsx:197-202 | on fetched rows, the shown average times four is the 30 days' usage |
| MaterialRequests.CurrentQuantities | src/components/procurement/MaterialRequests.tsx:146-186 | exactly the requests' ids are present, and each maps to the balance of the last summary row of its (material, branch) key, as its last request row names it |
| MaterialRequests.MissingSummaryIsZero | src/components/procurement/MaterialRequests.tsx:173-181 | a request whose key has no summary row shows 0 |
| MaterialRequests.PairKeyInjective | src/components/procurement/MaterialRequests.tsx:168-173 | when material ids carry no `_`, a key names exactly one (material, branch) pair |
| MaterialRequests.PairKeysCanCollide | src/components/procurement/MaterialRequests.tsx:168 | without that, two different pairs can share a key |
| MaterialRequests.ItemsToUpdate | src/components/procurement/MaterialRequests.tsx:217-222 | the items whose text reads as a number (0 included), in order, as (id, that number) |
| MaterialRequests.ItemsToUpdateMeaning | src/components/procurement/MaterialRequests.tsx:217-230 | every update carries the number entered for one of the items, and there are none ("No Changes") exactly when every item's text is empty or NaN |
| MaterialRequests.NumbersAllWritten | src/components/procurement/MaterialRequests.tsx:217-222 | when every item's text reads as a number, every item gives an update, in order, with that number |
| MaterialRequests.ZeroIsWritten | src/components/procurement/MaterialRequests.tsx:217-236 | an item edited to "0" passes the filter and sets its request to 0 |
| MaterialRequests.RequestTable.HandleEditRequest | src/components/procurement/MaterialRequests.tsx:212-242 | nothing is written without a usable item; otherwise the updates before the failing one are applied in order |
| MaterialRequests.AppliedMeaning | src/components/procurement/MaterialRequests.tsx:233-237 | the table keeps its ids, a request without an update keeps its quantity, and an updated one holds the last quantity entered for it |
| MaterialRequests.UnusableNeverWritten | src/components/procurement/MaterialRequests.tsx:217-222 | an item whose text is empty or reads as NaN is never written |
| MaterialRequests.SelectableStatuses | src/components/procurement/MaterialRequests.tsx:456 | a request can be ticked exactly when it is pending or rejected |
| MaterialRequestPage.FilteredRequests | src/pages/MaterialRequest.tsx:260-266 | nothing without a branch; otherwise exactly the fetched requests of the branch created inside the period |
| MaterialRequestPage.FilteredKeepsOrder | src/pages/MaterialRequest.tsx:260-266 | the list keeps the fetched order |
| MaterialRequestPage.Checked | src/pages/MaterialRequest.tsx:451-456 | a supplied or pending request shows ticked, and any other shows ticked exactly when selected |
| MaterialRequestPage.SelectionAcrossScreens | src/pages/MaterialRequest.tsx:460-462 | pending requests can be ticked only on the procurement list, rejected on both, approved only here and supplied on neither |
| MaterialRequestPage.FinalizeItemsMeaning | src/pages/MaterialRequest.tsx:367-384 | every item comes from a selected, unsupplied request of the page, with one item per selected id that has one |
| MaterialRequestPage.SuppliedNeverFinalized | src/pages/MaterialRequest.tsx:370-373 | ticking an id whose requests are all supplied adds no item |
| MaterialRequestPage.SuppliedRows | src/pages/MaterialRequest.tsx:127-136 | one supplied row per item, in order |
| MaterialRequestPage.SuppliedRowsMeaning | src/pages/MaterialRequest.tsx:127-136 | every recorded row is "supplied", in the user's branch, with the material, order and quantity of a selected, unsupplied request |
| ImprestPage.FilteredImprests | src/pages/imprest.tsx:203-209 | nothing without a branch; otherwise exactly the fetched imprests of the branch created inside the period |
| ImprestPage.HeaderIsSum | src/pages/imprest.tsx:226-232 | the header is the sum of the shown rows' costs |
| ImprestPage.HeaderTotalMeaning | src/pages/imprest.tsx:226-232 | the header is the cost of the shown rows, which is the branch's cost inside the period over all fetched imprests, and 0 without a branch |
| ImprestPage.FinalizeItems | src/pages/imprest.tsx:274-294 | one item per selected, unsupplied imprest of the page, in order |
| ImprestPage.FinalizeItemsMeaning | src/pages/imprest.tsx:274-294 | each item is a selected, unsupplied imprest of the page, and every such imprest gives an item |
| ImprestPage.SuppliedRows | src/pages/imprest.tsx:105-117 | one supplied row per item, in order |
| ImprestPage.SuppliedCostsMatch | src/pages/imprest.tsx:105-117 | each recorded row is "supplied" and costs what its imprest shows, so the rows' costs add up to the finalized imprests' shown costs |
| Attendance.MinuteOfDay | src/components/attendance/AttendanceCalendar.tsx:44 | the whole minutes since midnight, from 0 to 1439: the check-in lies inside that minute of its day |
| Attendance.Classify | src/components/attendance/AttendanceCalendar.tsx:44-45 | late exactly after minute 370 (6:10), present exactly at or before it |
| Attendance.LateBoundary | src/components/attendance/AttendanceCalendar.tsx:44-45 | a check-in during 6:10 is on time, and one at 6:11 is late |
| Attendance.BuildStatusMap | src/components/attendance/AttendanceCalendar.tsx:40-47 | every date with a row has the status of its last row, and only such dates are present |
| Attendance.MonthRecords | src/components/attendance/AttendanceCalendar.tsx:49-54 | one record per day of the month, in day order |
| Attendance.MonthRecordsMeaning | src/components/attendance/AttendanceCalendar.tsx:40-54 | a day is absent exactly when no row has the date, and otherwise carries the last row's status; no day is "dayoff" |
| Attendance.DayStatus | src/components/attendance/AttendanceCalendar.tsx:49-54 | one day's status is absent exactly when no row has the date, and never "dayoff" |
| Attendance.OutsideRowsIgnored | src/components/attendance/AttendanceCalendar.tsx:40-54 | rows dated outside the month leave the calendar unchanged |
| Push.PadCount | src/hooks/usePush.tsx:48 | at most three `=` bring the length to a multiple of four, and none exactly when it already is one |
| Push.ReplaceAll | src/hooks/usePush.tsx:49 | every `from` becomes `to`, and every other character stays |
| Push.PreparedShape | src/hooks/usePush.tsx:48-49 | the prepared string is the input plus at most three `=`, a multiple of four long, without `-` or `_`, the input's `-` and `_` now `+` and `/` |
| Push.PreparedUndoesUrlSafe | src/hooks/usePush.tsx:48-49 | a standard base64 string, stripped of its padding and made URL-safe, is prepared back into exactly itself |
| Push.Bytes | src/hooks/usePush.tsx:51-54 | one byte per code unit, its value modulo 256 |
| Push.UrlB64ToUint8Array | src/hooks/usePush.tsx:47-56 | none exactly when `atob` throws; otherwise a fresh array holding the decoded string's bytes |

## Left out

- Supabase queries, react-query caching, refetch intervals, real-time subscriptions, toasts, dialogs and the rest of the UI are not modelled. Query results are inputs, and the rows a screen writes are state or returned values.
- The SQL summary views are not modelled. A summary row is taken as given; `Ledger` relates it to recorded movements only as a reference definition.
- Floating point is not modelled: quantities are exact reals. So are `toLocaleString`/`toFixed` formatting, NaN propagation beyond the explicit `|| 0` and `?? 0` guards, and `Number` parsing of strings, which the edit and finalize forms round-trip through `String`. A NaN entry is a separate value only where a screen tests for it.
- Local time zones and the calendar month and year are not modelled. `startOfMonth` and `startOfYear` are parameters of the sales and analytics screens, a day is 86 400 000 ms, and labels such as "Jan 5" come from a parameter.
- Sort stability is not modelled: the in-place sorts are proved sorted and a permutation, and equal keys may end in either order.
- `atob` is a parameter, and base64 decoding itself is not modelled.
- `requestPushPermission` and the service-worker subscription in src/hooks/usePush.tsx are not modelled; they are browser calls.
- UpdateQuantityDialog.SelectMaterial: `.single()` fails when the branch has no row or several rows for the material. The model takes the fetch result as a given answer, error or row.
- StockStore.DayStore.WriteFields: the per-day table holds one row per (branch, item, day). Several rows on one day collapse into one, where the source reads the first of them.
- StockStore.DayStore.WriteFields: the source looks today's row up before `T23:59:59Z`, so a row written in the day's last second is not found. The model looks up the whole day.
- MaterialRequests.CurrentQuantities: when the page has no requests, the source returns early and keeps the previous map; the model computes the map of the page given.
- `handleSelectAll`, `toggleCheck` and `resetCheck` belong to the `useCheck` hook, which is not part of this model.
- src/types (the edit-request form type) is not part of this model. An edit item has an id and the text `String(quantity)` the dialog is given (MaterialRequests.tsx:385): empty, NaN, or a number, "0" and blank text being numbers. Which texts `Number` reads as NaN is not modelled; the text arrives already classified.
- Common.Lower: folds ASCII letters only, whereas `toLowerCase` folds all of Unicode. The case-insensitive name filters that use it (Inventory.DirectIndirectPartition and the product, production, recipe and sale-form searches) agree with the source on ASCII names only.
- Products.StockPrice: reads a non-number `selling_price` on the row as 0, whereas JavaScript's `||` would keep a numeric string.
- Accounts.DistinctPairs: the source joins ids into a string key, so a null id becomes "null". The model keys on the ids themselves.
- Sales.BranchToUse: the source compares the user's branch id (not its name) with "HEAD OFFICE", and the model keeps that comparison as written.
- MaterialRequestPage.FinalizeItems: a found request without a joined material makes `req?.material.unit` throw in the source. The model gives that item no unit.
- BranchAnalytics.GroupByTimeframe: `Object.entries` lists integer-like keys first in JavaScript. The model lists keys in first-sale order, and the labels the screen produces are not integer-like.
- The order screens (procurement and imprest orders, imprest requests), the attendance dashboard, the auth context, the layout and the records screen are not modelled.

## Findings

| source | as written | input that shows it | evidently intended | confidence | as-written member | corrected member |
|---|---|---|---|---|---|---|
| src/components/procurement/PoSummary.tsx:68 | `hasNextPage: count ? to < count : false` on a `.range(from, to)` page | exactly 1000 rows: on page 1 `to` is 999, and `999 < 1000` reports a next page, which is empty | a next page exists when a row lies past index `to`, i.e. `to + 1 < count`, as src/components/procurement/MaterialRequests.tsx:140 writes it | not executed | Pagination.FullLastPageReportsNext | Pagination.PagesTile |
| src/components/imprest/ImprestSummary.tsx:102 | `hasNextPage: count ? to < count : false`, where `count` counts the matched rows but the page slices the per-branch entries | 1001 rows of one branch: `999 < 1001` reports a next page, but there is one entry and page 2 is empty | a next page exists when an entry lies past index `to`, i.e. `to + 1 < items.length` | not executed | ImprestSummary.RowCountFlagsEmptyPage | ImprestSummary.SummaryPage |
