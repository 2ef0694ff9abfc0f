# Portfolio ETL: a verified model of the sales-to-stock pipeline

`portfolio-etl.py` collects a week of marketplace sales, reconciles them
against a stock ledger, and writes per-brand sales reports. This project
models the part of that script that is a pure record pipeline, and proves
its properties in Dafny:

- **Per-source extraction.** Each marketplace payload, already fetched and
  parsed, becomes flat `(sku, qty, site)` records:
  - Walmart is one loop over the orders, whose per-order step flattens that
    order's lines. Houzz, Faire and Wayfair are nested loops over orders and
    their items. All four are modelled as methods with loop invariants.
  - WooCommerce, DSCO and Mirakl are vectorised filters followed by an
    explode. They are modelled as functions.
  - `dsco_main` and `mirakl_main` loop over the API names or sites and
    accumulate status and rows. They are modelled as methods, each proved
    against a recursive function of the fetch results.
  - `wayfair_main` and `walmart_main` make one fetch each, without a loop.
    Their methods state the outcome case by case: no token, no reply, or a
    reply and what its processing yields.
  - A missing flat-file export becomes the `'other'` placeholder record.
- **Cleaning.** This drops the sentinel skus (`"sku"`, `"Item SKU"`,
  `"other"`, matched as case-sensitive substrings), lower-cases every field
  and strips the sku.
- **Retail totals.** The qty is summed per sku, skus ascending, after a
  second `"sku"` filter.
- **Canonical mapping.** The totals are right-joined onto the sku map,
  multiplied, and summed per canonical sku.
- **Stock ledger.** The canonical sales are left-joined onto the stock and
  subtracted from it. The new stock is a function of the old stock.
- **End-to-end composition.** `Pipeline.StockAfter` runs the cleaning,
  totals, mapping and stock update on a concatenated table. It is applied
  to the concatenation as the script writes it (`NewStockAsWritten`, which
  counts the Walmart API table twice) and to the corrected one, with each
  source once (`NewStock`). The brand reports use the corrected one.
- **Brand reports.** The cleaned sales are joined with the sales map (cost
  and brand), split into the `Brand1` rows and the `brand2`/`brand3` rows,
  and each part is grouped by `(sku, cost)` with `total = cost * qty`.

The files follow the pipeline:

| file | module | contents |
|---|---|---|
| `records.dfy` | `Records` | the record schema and the explode of orders into records |
| `text.dfy` | `Text` | `str.contains`, `str.lower`, `str.strip`, string order |
| `grouping.dfy` | `Grouping` | `groupby(...).sum()` over keyed rows |
| `extract.dfy` | `Extract` | the extractors and the `*_main` accumulators |
| `clean.dfy` | `Clean` | the cleaning |
| `reconcile.dfy` | `Reconcile` | the retail totals, the canonical mapping and the stock ledger |
| `brands.dfy` | `Brands` | the enrichment, the brand split and the brand files |
| `pipeline.dfy` | `Pipeline` | the concatenation of the sources and the end-to-end composition |

The joins are modelled as follows:

- **Enrichment and stock update (left joins).** These are general joins: a
  row for every match, and an unmatched row kept with its fill value. The
  model needs no unique-key precondition for them.
  - `Reconcile.JoinRowSorted` shows that against the canonical sales the
    stock join reduces to "subtract the looked-up total, or 0". The
    canonical sales come out of a group-by, so their skus are unique.
  - `Brands.EnrichRowDistinct` shows that against a sales map with unique
    stripped skus the enrichment reduces to "the one matching map row, or
    no cost and brand".
- **Canonical mapping (right join).** The retail totals come out of a
  group-by, so each map row matches at most one total. The join is
  therefore modelled as one row per map row, carrying its multiplier times
  the total of its part (0 when the part was not sold).

Two behaviours of the code are worth knowing:

- **Empty skus.** The code does not keep cleaned skus non-empty. A Wayfair
  product without a `partNumber` gets sku `''`, and that record survives
  the cleaning (`Clean.EmptySkuSurvives`).
- **Aborting sources.** Three sources raise instead of yielding no records:
  - Walmart raises when any order has an empty order-line list: that
    order's frame has no `item.sku` column. `walmart_main` catches every
    exception, so the whole Walmart API table is lost: no rows, a count of
    0 and no status (`Extract.WalmartMain`).
  - WooCommerce raises when no line item survives the window: no order
    falls in it, or the orders that do have no line items.
  - Mirakl raises when a non-empty order list has no line in an order that
    is not cancelled: every order is cancelled, or the others have no lines.

  In these two cases the frame lacks the selected columns and the
  `KeyError` is not caught, so the run stops. Both are modelled as `Failure`. DSCO catches the same
  `KeyError` and returns an empty table, and so does its model.

## Model

| member | source | states |
|---|---|---|
| Records.ExplodeMember | portfolio-etl.py:63-76 | A record is produced exactly when some line item of some order has its sku and quantity, and every record carries the adapter's site tag |
| Records.ExplodeLength | portfolio-etl.py:63-76 | The explode yields one record per line item |
| Records.ExplodeAppend | portfolio-etl.py:63-76 | Exploding a concatenation of order lists concatenates the record lists |
| Records.TotalQtyAppend | portfolio-etl.py:581-595 | The qty sum of concatenated tables is the sum of their qty sums |
| Extract.ProcessWalmartData | portfolio-etl.py:54-78 | The processing fails with `KeyError` exactly when some order has no order lines; otherwise every order line of every order gives one `(sku, qty, 'walmart')` record, in order, and nothing else |
| Extract.WalmartMain | portfolio-etl.py:80-96 | A raised token or fetch call, or a reply with an order without order lines, gives no rows, count 0 and no status; no reply gives no rows with the fetch status; otherwise the processed rows, counted, with the fetch status |
| Extract.WalmartEmptyOrderLosesTable | portfolio-etl.py:63-96 | Orders `[a×1]` and `[]` give no rows, count 0 and no status: the second order's `KeyError` discards the first order's line too |
| Extract.ParseHouzzOrders | portfolio-etl.py:124-135 | Every `OrderItem` of every `Order` gives one `(SKU, Quantity, 'Houzz')` record, in order, and nothing else |
| Extract.OrdersToDataFrame | portfolio-etl.py:166-178 | A falsy payload gives no rows; otherwise every item of every order gives one `(sku, quantity, 'Faire')` record, and nothing else |
| Extract.WithinWindow | portfolio-etl.py:217-218 | Keeps exactly the orders whose creation time lies strictly inside the window; an order with an unparsable time is dropped |
| Extract.WithinWindowCounts | portfolio-etl.py:217-218 | Every in-window order is kept as many times as it occurs; every other order is dropped |
| Extract.WithinWindowLineCount | portfolio-etl.py:217-220 | The kept orders hold exactly as many line items as the in-window orders of the input |
| Extract.WooCommerceSpec | portfolio-etl.py:214-227 | Fails (missing columns) exactly when no order inside the window has a line item; otherwise the records are exactly the line items of the in-window orders, tagged `Brand1`, one record per line item |
| Extract.WooCommerceNoLinesFails | portfolio-etl.py:218-226 | One order inside the window with no line items makes the WooCommerce call fail with missing columns |
| Extract.DscoSpec | portfolio-etl.py:250-281 | A record comes from a line item of an in-window order, tagged with the site of a known API name; a reply without `orders`, an unknown API name, or an empty window gives no records |
| Extract.DscoCount | portfolio-etl.py:250-281 | A DSCO table has one record per line item of the in-window orders when the reply has orders and the API name is known, and no records otherwise |
| Extract.DscoMain | portfolio-etl.py:284-308 | The accumulated sales are the concatenated per-API results of the replies that arrived; the order count is their number of rows; the status summary is the per-API status map |
| Extract.DscoStatusSpec | portfolio-etl.py:296-298 | The status summary has an entry for exactly the fetched API names, and each holds the status of that name's last fetch |
| Extract.DscoSalesSites | portfolio-etl.py:268-274 | Every DSCO record carries one of the five DSCO site names |
| Extract.ActiveOrders | portfolio-etl.py:325 | Keeps exactly the orders whose state is not `CANCELED` |
| Extract.ActiveOrdersCounts | portfolio-etl.py:325 | Every order that is not cancelled is kept as many times as it occurs; every cancelled order is dropped |
| Extract.ActiveOrdersLineCount | portfolio-etl.py:325-326 | The kept orders hold exactly as many order lines as the non-cancelled orders of the input |
| Extract.MiraklSpec | portfolio-etl.py:321-332 | An empty order list gives an empty table; cancelled orders contribute nothing; every line of every other order gives one `(offer_sku, quantity, site)` record, and there are as many records as such lines; the call fails exactly when a non-empty list has no line in a non-cancelled order |
| Extract.MiraklMain | portfolio-etl.py:334-356 | The loop over the three marketplaces computes the result of the site-by-site specification (with a failed fetch skipped, as intended), including the abort on a failing marketplace, and the status map on success |
| Extract.MiraklSoldSpec | portfolio-etl.py:340-355 | Every collected Mirakl record comes from a line of a non-cancelled order of a marketplace that has credentials and replied, tagged with that marketplace's name |
| Extract.MiraklSoldComplete | portfolio-etl.py:340-355 | On success, every line of a non-cancelled order of a marketplace that has credentials and replied is among the collected records, tagged with that marketplace's name |
| Extract.MiraklSoldFails | portfolio-etl.py:340-355 | With failed fetches skipped, the run fails exactly when a marketplace that has credentials replied with a non-empty order list that has no line in a non-cancelled order |
| Extract.MiraklFailedFetchAborts | portfolio-etl.py:348-354 | As written, a failed fetch of a marketplace with credentials makes the run fail; when no such fetch fails, the run agrees with the intended one |
| Extract.MiraklNameErrorExample | portfolio-etl.py:348-354 | A failed fetch of THE BAY ends the run with `NameError` as written, and gives no records as intended |
| Extract.ProcessWayfairData | portfolio-etl.py:411-435 | Missing keys give no rows and "Expected keys not found in the response"; an empty order list gives no rows and "No orders found"; otherwise every product of every order gives one record with `''`/`0` defaults, site `Wayfair`, status "Success" |
| Extract.WayfairMain | portfolio-etl.py:440-459 | No or empty token gives no rows with the auth status; no reply gives no rows with the fetch status; a reply gives the rows and processing status of `process_wayfair_data` (no rows and "Expected keys not found", no rows and "No orders found", or every product and "Success") with the fetch status; the order count is the row count |
| Extract.ProcessFileData | portfolio-etl.py:465-525 | For the Macy's reader and both definitions of the file reader: a missing file gives exactly the `('other', 0, site_name)` record and a count of 0; a readable file gives its rows, with its own site column (Macy's `Merchant`, HSN's `RequestorName`) or the site name, and their number |
| Text.ContainsAt | portfolio-etl.py:602-604 | The substring test holds exactly when some window of the sku equals the pattern |
| Text.StripSpec | portfolio-etl.py:607 | The stripped sku is the part of the sku between a white-space prefix and a white-space suffix, and starts and ends with a non-space |
| Clean.CleanMember | portfolio-etl.py:602-607 | A cleaned record is exactly the normalisation of an input record whose raw sku contains none of the three sentinels; rows are never added |
| Clean.CleanNormalized | portfolio-etl.py:605-607 | Every cleaned sku and site has no upper-case letter, and every sku is stripped |
| Clean.CleanAppend | portfolio-etl.py:602-607 | Cleaning a concatenation of tables concatenates the cleaned tables |
| Clean.PlaceholderRemoved | portfolio-etl.py:604 | The placeholder record of a missing export never reaches the cleaned table |
| Clean.CleanExample | portfolio-etl.py:605-607 | `' AB1 '` at `Walmart` becomes `'ab1'` at `walmart` |
| Clean.SentinelCaseSensitive | portfolio-etl.py:602-611 | The sentinel test runs before lower-casing: `'ITEM SKU'` survives the cleaning as `'item sku'`, which contains `"sku"` and so falls to the second filter |
| Clean.EmptySkuSurvives | portfolio-etl.py:602-607 | An empty sku is kept by the cleaning |
| Reconcile.StrLtIsOrder | portfolio-etl.py:614 | The string order used to sort skus is a strict total order |
| Grouping.GroupSumSpec | portfolio-etl.py:614-615 | The group-by-sum has one row per distinct key, keys strictly ascending; each key's value is the sum of its rows' values; the total is conserved |
| Grouping.GroupSumConcatCommutes | portfolio-etl.py:614-615 | The group-by-sum does not depend on the order of the input parts |
| Grouping.SortedLookupIsSum | portfolio-etl.py:623 | In a grouped table the row of a key carries the sum of all matches of that key |
| Grouping.GroupSumWeighted | portfolio-etl.py:720-721 | Summing `weight(key) * value` over grouped rows equals the same sum over the input rows |
| Reconcile.RetailTotalsSpec | portfolio-etl.py:610-615 | The retail totals have one row per surviving sku, ascending; a sku's total is the sum of its sales quantities; no sku contains "sku"; the qty total is conserved when no record is filtered |
| Reconcile.RetailTotalsCommute | portfolio-etl.py:610-615 | The retail totals do not depend on the order of the source tables |
| Reconcile.CanonicalSalesSpec | portfolio-etl.py:623-628 | One row per distinct `sku_name` of the map, ascending; its qty is the sum over its map rows of multiplier times the part's retail total, or 0 if the part was not sold |
| Reconcile.UnmappedSaleIgnored | portfolio-etl.py:623 | A sale of a sku that no map row names as a part leaves the canonical sales unchanged |
| Reconcile.MultiplierBeforeGrouping | portfolio-etl.py:625-627 | Parts with multipliers 1, 2 and 3 sold 3, 2 and 0 times give 7 sets |
| Reconcile.JoinRowSorted | portfolio-etl.py:636-640 | Against a table with one row per sku, a stock row joins to one row whose qty is reduced by its sku's total, or by 0 when there is none |
| Reconcile.StockUpdateSpec | portfolio-etl.py:636-646 | The new stock has exactly the old rows in the old order, each qty reduced by the canonical sold qty of its sku (0 when none), other columns unchanged, and no row for a sold sku that is not in stock |
| Reconcile.NoSalesKeepsStock | portfolio-etl.py:636-646 | With no sales the stock is unchanged |
| Reconcile.StockRowsFromStock | portfolio-etl.py:636-646 | With any sales table, every new row is an old row with only its qty changed, and there are at least as many rows as before |
| Reconcile.StockRowsKept | portfolio-etl.py:636-646 | With any sales table, every old row is still present with only its qty possibly changed |
| Brands.EnrichSpec | portfolio-etl.py:659-683 | Every enriched row is a sales row's stripped sku, qty and site, with the cost and brand of a matching map row or with neither; its total is qty times cost; there are at least as many rows as sales rows |
| Brands.EnrichComplete | portfolio-etl.py:664-683 | No sales row is lost: each sales row has an enriched row made from it |
| Brands.EnrichRowDistinct | portfolio-etl.py:664-683 | With distinct stripped map skus, a sales row joins to exactly the one row built from its matching map row, or to the one row without cost and brand when no map row matches |
| Brands.EnrichKeepsRows | portfolio-etl.py:668 | With distinct stripped map skus, the join keeps exactly one row per sales row |
| Brands.SelectBrands | portfolio-etl.py:688-689 | The selection holds, with multiplicity, exactly the rows whose brand is in the given set |
| Brands.BrandSplitSpec | portfolio-etl.py:688-689 | The Brand1 part is exactly the rows of brand `Brand1`; the other part is exactly the rows of brand `brand2` or `brand3`; the parts share no row |
| Brands.KeyLtIsOrder | portfolio-etl.py:720 | The `(sku, cost)` order is a strict total order |
| Brands.BrandFileSpec | portfolio-etl.py:720-734 | For the Brand1 file and the brand2/brand3 file: one line per `(sku, cost)` pair of the rows that have a cost, in `(sku, cost)` order; each line's qty is the sum of the matching rows' qty and its total is cost times qty; the line totals add up to the rows' `cost * qty` |
| Pipeline.CombinedSalesConserves | portfolio-etl.py:581-595 | The combined table holds every source table once; its qty total and row count are the sums over the sources |
| Pipeline.WalmartApiCountedTwice | portfolio-etl.py:544-595 | As the script runs, the combined qty counts the Walmart API table twice and the Walmart export not at all |
| Pipeline.WalmartTwiceExample | portfolio-etl.py:581-595 | One export sale and one API sale: as written, the API sale appears twice and the export sale is gone |
| Pipeline.StockAfterSpec | portfolio-etl.py:602-646 | Whatever concatenated table it starts from (as written or corrected), the new stock keeps the stock's rows in order, each qty reduced by its canonical quantity as the map defines it from the retail totals of the cleaned sales |
| Pipeline.EndToEndScenario | portfolio-etl.py:581-646 | Sales of `AB` (3, Houzz) and ` ab` (2, DSCO) are cleaned to the map's `ab`; mapped as 2 `canon_a` each, they turn 50 `canon_a` in stock into 40, both as written and as corrected, since neither source is a Walmart table |
| Pipeline.WalmartDoubleCountScenario | portfolio-etl.py:546-646 | The same sales with the `AB` sale in the Walmart API table: as written the stock ends at 34, because that sale is counted twice; the corrected concatenation gives 40 |
| Pipeline.BrandFilesDisjoint | portfolio-etl.py:664-734 | With distinct stripped map skus, each sku has one brand, so no sku appears in both the Brand1 file and the brand2/brand3 file |

## Left out

- HTTP, token and subprocess calls are not modelled: `get_walmart_token`, every `fetch_*`, `call_curl`, `get_wayfair_token`. Their results are parameters: the parsed payload or `None`, and a status code.
- The `houzz_main`, `faire_main` and `brand1_main` wrappers are not modelled. `houzz_main` (:137-149), like the modelled `walmart_main`, catches every exception and then returns an empty frame, 0 and status `None`; the Houzz parser raises only on the malformed shapes left out below. `faire_main` (:181-190) and `brand1_main` (:229-238) catch nothing: they call the fetch and then the modelled extractor, or return an empty frame, and a `KeyError` from `process_woocommerce_data` in `brand1_main` stops the run, as the model's `Failure` does.
- Credential loading, CSV/Excel reads and every `to_csv` are left out. Tables are input sequences, and a missing or unreadable file is `None`.
- `datetime.now()`, the 7-day offsets, date formatting, month names and the date columns of the enriched sales are left out. The window bounds are integer parameters.
- XML and JSON parsing is left out. Payloads are already-parsed datatypes.
- Malformed payload shapes are left out (for Walmart and Houzz the wrapper would turn them into an empty frame, 0 and status `None`): missing `list/elements/order`, `SKU`, `items`, `orders` or `order_lines` keys, a non-integer `Quantity`, the Wayfair catch-all exception branch (:436-437), and a DSCO reply whose orders lack `dscoCreateDate`.
- pandas' `explode` of an order with an empty line-item list is left out when some other kept order has lines. pandas yields a NaN row for it there; the model yields no record. When no kept order has a line, WooCommerce and Mirakl raise `KeyError` in the code, and the model returns `Failure` for them.
- Time-zone removal (:261) is left out. Times are plain integers.
- Floating point is left out (`astype(float)` at :613, qty and cost as floats). Quantities, multipliers and costs are integers.
- NaN is left out. An unparsable cost or a missing brand is `None`. NaN or non-string skus, non-numeric quantities (`to_numeric` coercion at :680), `fillna(0)` on metadata columns (:638) and NaN `sku_name` rows are not modelled.
- Text.LowerChar: only ASCII letters are lower-cased, not the full Unicode case mapping of `str.lower`.
- Text.IsSpace: only ASCII white space is stripped, not every Unicode white-space character.
- Brands.EnrichRow: only the `cost` and `brand` columns of the sales map are carried.
- Extract.MiraklMain: a failed fetch is modelled as contributing nothing, the evidently intended behaviour. The code as written raises `NameError` there (see Findings).
- Extract.MiraklMain: `DataFrame.append` is modelled as concatenation.
- Pipeline.BrandSales: built from the corrected concatenation. As written, the Walmart API rows also appear twice in the brand reports (see Findings).
- Extract.WayfairMain: the status texts are modelled as the constructors of `WayfairStatus`; the fetch and auth error statuses are the codes, not the formatted strings.
- `salesall` (:690-695) is left out. It is built and indexed but never written.
- The wholesale brand split (:748-775) is left out. It indexes `wholesale_sales` with a mask computed on `sales` (:769), whose index is not aligned with it.
- The duplicate `process_file_data` definition is modelled once. The `siteFromFile` flag covers the first definition's HSN use and Macy's `Merchant` column.
- Printing, logging and the status printing of the `__main__` block are left out.

## Findings

| source | as written | input that shows it | evidently intended | confidence | as-written member | corrected member |
|---|---|---|---|---|---|---|
| portfolio-etl.py:546 | `walmart_data` is rebound to the Walmart API result in the main block, so both `walmart_data` entries of the concatenation at :581-595 are the API table | Walmart export with one sale `w1`, Walmart API with one sale `w2`: the combined table holds `w2` twice and no `w1` | the export table at position 4 and the API table at position 7, each once | high; not executed | Pipeline.WalmartApiCountedTwice | Pipeline.CombinedSalesConserves |
| portfolio-etl.py:354 | the failed-fetch branch of `mirakl_main` calls `logging.error`, but `logging` is never imported, and the call at :568 is not guarded, so the whole run stops with `NameError` | credentials for THE BAY and a failed fetch (no reply, status 500) | log the error and go on with the next marketplace, so the failed fetch contributes nothing | high; not executed | Extract.MiraklFailedFetchAborts | Extract.MiraklSoldFails |
