// The per-marketplace adapters: each turns an already-parsed order payload
// into flat (sku, qty, site) records. Adapters that loop and append in the
// source are methods with loops, proved against the `Explode` specification;
// adapters written as whole-table pandas expressions are functions.

module Extract {
  import opened Records

  /**
   * The uncaught exceptions of the adapters: pandas raising `KeyError` when
   * it selects the columns `sku`, `qty` of an empty frame, and Python raising
   * `NameError` for a name that was never imported.
   */
  datatype ExtractError = MissingColumns | UndefinedName

  // ---------------------------------------------------------------- Walmart

  /** An element of `list.elements.order`; its `orderLines.orderLine` with `item.sku` and `orderLineQuantity.amount`. */
  datatype WalmartOrder = WalmartOrder(orderLines: seq<LineItem>)

  const WALMART_SITE := "walmart"

  function WalmartLines(orders: seq<WalmartOrder>): seq<seq<LineItem>> {
    seq(|orders|, i requires 0 <= i < |orders| => orders[i].orderLines)
  }

  /**
   * Some order has an empty `orderLines.orderLine` list: `json_normalize` of
   * it is a frame without an `item.sku` column, and reading that column raises.
   */
  predicate HasEmptyOrder(orders: seq<WalmartOrder>) {
    exists i :: 0 <= i < |orders| && orders[i].orderLines == []
  }

  /**
   * `process_walmart_data`: for each order, its order lines become records
   * tagged `walmart`, appended to the result in order. The first order
   * without order lines raises `KeyError`, and no table is returned.
   */
  method ProcessWalmartData(orders: seq<WalmartOrder>) returns (processed: Result<seq<SaleRecord>, ExtractError>)
    ensures processed.Failure? <==> HasEmptyOrder(orders)
    ensures processed.Failure? ==> processed.error == MissingColumns
    ensures processed.Success? ==> processed.value == Explode(WalmartLines(orders), WALMART_SITE)
    ensures processed.Success? ==> |processed.value| == LineCount(WalmartLines(orders))
    ensures processed.Success? ==>
              forall r :: r in processed.value <==>
                exists i, j :: 0 <= i < |orders| && 0 <= j < |orders[i].orderLines| &&
                               r == ToRecord(orders[i].orderLines[j], WALMART_SITE)
  {
    var rows: seq<SaleRecord> := [];
    var i := 0;
    while i < |orders|
      invariant 0 <= i <= |orders|
      invariant forall k :: 0 <= k < i ==> orders[k].orderLines != []
      invariant rows == Explode(WalmartLines(orders[..i]), WALMART_SITE)
    {
      if orders[i].orderLines == [] {
        return Failure(MissingColumns);
      }
      var orderLines := LineRecords(orders[i].orderLines, WALMART_SITE);
      assert WalmartLines(orders[..i + 1]) == WalmartLines(orders[..i]) + [orders[i].orderLines];
      ExplodeSnoc(WalmartLines(orders[..i]), orders[i].orderLines, WALMART_SITE);
      rows := rows + orderLines;
      i := i + 1;
    }
    assert orders[..i] == orders;
    ExplodeLength(WalmartLines(orders), WALMART_SITE);
    forall r ensures r in rows <==>
        exists i, j :: 0 <= i < |orders| && 0 <= j < |orders[i].orderLines| &&
                       r == ToRecord(orders[i].orderLines[j], WALMART_SITE)
    {
      var lines := WalmartLines(orders);
      ExplodeMember(lines, WALMART_SITE, r);
      if r in rows {
        var i, j :| 0 <= i < |lines| && 0 <= j < |lines[i]| && r == ToRecord(lines[i][j], WALMART_SITE);
        assert lines[i] == orders[i].orderLines;
      }
      if exists i, j :: 0 <= i < |orders| && 0 <= j < |orders[i].orderLines| &&
                        r == ToRecord(orders[i].orderLines[j], WALMART_SITE) {
        var i, j :| 0 <= i < |orders| && 0 <= j < |orders[i].orderLines| &&
                    r == ToRecord(orders[i].orderLines[j], WALMART_SITE);
        assert lines[i] == orders[i].orderLines;
      }
    }
    processed := Success(rows);
  }

  /**
   * What `get_walmart_token` and `fetch_walmart_data` give `walmart_main`:
   * either one of them raised, or the parsed reply (`None` when the fetch
   * failed or the reply is empty) with the fetch's status code.
   */
  datatype WalmartFetch = FetchRaised | WalmartReply(reply: Option<seq<WalmartOrder>>, status: int)

  /**
   * `walmart_main`: no reply gives no rows with the fetch status; a reply
   * gives the processed rows, counted, with the fetch status. Any exception,
   * from the token, the fetch or the processing, is caught and gives no rows,
   * a count of 0 and no status.
   */
  method WalmartMain(fetch: WalmartFetch) returns (formattedData: seq<SaleRecord>, totalOrders: nat, statusCode: Option<int>)
    ensures totalOrders == |formattedData|
    ensures statusCode.None? <==> fetch.FetchRaised? || (fetch.reply.Some? && HasEmptyOrder(fetch.reply.value))
    ensures statusCode.Some? ==> statusCode.value == fetch.status
    ensures formattedData ==
              if fetch.WalmartReply? && fetch.reply.Some? && !HasEmptyOrder(fetch.reply.value)
              then Explode(WalmartLines(fetch.reply.value), WALMART_SITE)
              else []
  {
    if fetch.FetchRaised? {
      return [], 0, None;
    }
    if fetch.reply.Some? {
      var processed := ProcessWalmartData(fetch.reply.value);
      if processed.Failure? {
        return [], 0, None;
      }
      formattedData := processed.value;
    } else {
      formattedData := [];
    }
    totalOrders := |formattedData|;
    statusCode := Some(fetch.status);
  }

  /** An order without order lines costs the whole Walmart API table: the wrapper returns no rows and no status. */
  method WalmartEmptyOrderLosesTable() returns (formattedData: seq<SaleRecord>, totalOrders: nat, statusCode: Option<int>)
    ensures formattedData == [] && totalOrders == 0 && statusCode == None
  {
    var orders := [WalmartOrder([LineItem("a", 1)]), WalmartOrder([])];
    assert orders[1].orderLines == [];
    formattedData, totalOrders, statusCode := WalmartMain(WalmartReply(Some(orders), 200));
  }

  // ------------------------------------------------------------------ Houzz

  /** An `Order` element of the `getOrders` XML reply; its `OrderItem` children carry `SKU` and `Quantity`. */
  datatype HouzzOrder = HouzzOrder(items: seq<LineItem>)

  const HOUZZ_SITE := "Houzz"

  function HouzzLines(orders: seq<HouzzOrder>): seq<seq<LineItem>> {
    seq(|orders|, i requires 0 <= i < |orders| => orders[i].items)
  }

  /**
   * `parse_xml_to_dataframe` over the parsed tree: for every order, for every
   * item, append `(SKU, Quantity, 'Houzz')`.
   */
  method ParseHouzzOrders(orders: seq<HouzzOrder>) returns (rows: seq<SaleRecord>)
    ensures rows == Explode(HouzzLines(orders), HOUZZ_SITE)
    ensures |rows| == LineCount(HouzzLines(orders))
    ensures forall r :: r in rows <==>
              exists i, j :: 0 <= i < |orders| && 0 <= j < |orders[i].items| && r == ToRecord(orders[i].items[j], HOUZZ_SITE)
  {
    rows := [];
    var i := 0;
    while i < |orders|
      invariant 0 <= i <= |orders|
      invariant rows == Explode(HouzzLines(orders[..i]), HOUZZ_SITE)
    {
      var items := orders[i].items;
      var j := 0;
      while j < |items|
        invariant 0 <= j <= |items|
        invariant rows == Explode(HouzzLines(orders[..i]), HOUZZ_SITE) + LineRecords(items[..j], HOUZZ_SITE)
      {
        LineRecordsSnoc(items, j, HOUZZ_SITE);
        rows := rows + [SaleRecord(items[j].sku, items[j].quantity, HOUZZ_SITE)];
        j := j + 1;
      }
      assert items[..j] == items;
      assert HouzzLines(orders[..i + 1]) == HouzzLines(orders[..i]) + [items];
      ExplodeSnoc(HouzzLines(orders[..i]), items, HOUZZ_SITE);
      i := i + 1;
    }
    assert orders[..i] == orders;
    ExplodeLength(HouzzLines(orders), HOUZZ_SITE);
    forall r ensures r in rows <==>
        exists i, j :: 0 <= i < |orders| && 0 <= j < |orders[i].items| && r == ToRecord(orders[i].items[j], HOUZZ_SITE)
    {
      var lines := HouzzLines(orders);
      ExplodeMember(lines, HOUZZ_SITE, r);
      if r in rows {
        var i, j :| 0 <= i < |lines| && 0 <= j < |lines[i]| && r == ToRecord(lines[i][j], HOUZZ_SITE);
        assert lines[i] == orders[i].items;
      }
      if exists i, j :: 0 <= i < |orders| && 0 <= j < |orders[i].items| && r == ToRecord(orders[i].items[j], HOUZZ_SITE) {
        var i, j :| 0 <= i < |orders| && 0 <= j < |orders[i].items| && r == ToRecord(orders[i].items[j], HOUZZ_SITE);
        assert lines[i] == orders[i].items;
      }
    }
  }

  // ------------------------------------------------------------------ Faire

  /** An element of `orders`; its `items` carry `sku` and `quantity`. */
  datatype FaireOrder = FaireOrder(items: seq<LineItem>)

  const FAIRE_SITE := "Faire"

  function FaireLines(orders: seq<FaireOrder>): seq<seq<LineItem>> {
    seq(|orders|, i requires 0 <= i < |orders| => orders[i].items)
  }

  /**
   * `orders_to_dataframe`: a falsy payload (`None` or an empty object) gives
   * no rows; otherwise every item of every order becomes `(sku, quantity, 'Faire')`.
   */
  method OrdersToDataFrame(ordersData: Option<seq<FaireOrder>>) returns (rows: seq<SaleRecord>)
    ensures ordersData.None? ==> rows == []
    ensures ordersData.Some? ==> rows == Explode(FaireLines(ordersData.value), FAIRE_SITE)
    ensures forall r :: r in rows <==>
              ordersData.Some? &&
              exists i, j :: 0 <= i < |ordersData.value| && 0 <= j < |ordersData.value[i].items| &&
                             r == ToRecord(ordersData.value[i].items[j], FAIRE_SITE)
  {
    rows := [];
    if ordersData.Some? {
      var orders := ordersData.value;
      var i := 0;
      while i < |orders|
        invariant 0 <= i <= |orders|
        invariant rows == Explode(FaireLines(orders[..i]), FAIRE_SITE)
      {
        var items := orders[i].items;
        var j := 0;
        while j < |items|
          invariant 0 <= j <= |items|
          invariant rows == Explode(FaireLines(orders[..i]), FAIRE_SITE) + LineRecords(items[..j], FAIRE_SITE)
        {
          LineRecordsSnoc(items, j, FAIRE_SITE);
          rows := rows + [SaleRecord(items[j].sku, items[j].quantity, FAIRE_SITE)];
          j := j + 1;
        }
        assert items[..j] == items;
        assert FaireLines(orders[..i + 1]) == FaireLines(orders[..i]) + [items];
        ExplodeSnoc(FaireLines(orders[..i]), items, FAIRE_SITE);
        i := i + 1;
      }
      assert orders[..i] == orders;
      forall r ensures r in rows <==>
          exists i, j :: 0 <= i < |orders| && 0 <= j < |orders[i].items| && r == ToRecord(orders[i].items[j], FAIRE_SITE)
      {
        var lines := FaireLines(orders);
        ExplodeMember(lines, FAIRE_SITE, r);
        if r in rows {
          var i, j :| 0 <= i < |lines| && 0 <= j < |lines[i]| && r == ToRecord(lines[i][j], FAIRE_SITE);
          assert lines[i] == orders[i].items;
        }
        if exists i, j :: 0 <= i < |orders| && 0 <= j < |orders[i].items| && r == ToRecord(orders[i].items[j], FAIRE_SITE) {
          var i, j :| 0 <= i < |orders| && 0 <= j < |orders[i].items| && r == ToRecord(orders[i].items[j], FAIRE_SITE);
          assert lines[i] == orders[i].items;
        }
      }
    }
  }

  // ---------------------------------------------------- dated orders (window)

  /**
   * An order with a creation time (`date_created` for WooCommerce,
   * `dscoCreateDate` for DSCO) and its `line_items` / `lineItems`. The time is
   * `None` when pandas coerces it to NaT.
   */
  datatype DatedOrder = DatedOrder(created: Option<int>, lineItems: seq<LineItem>)

  /** Strictly inside the window; NaT compares false and so is outside. */
  predicate InWindow(o: DatedOrder, after: int, before: int) {
    o.created.Some? && after < o.created.value < before
  }

  /** The boolean-mask filter on the creation time, keeping order. */
  function WithinWindow(orders: seq<DatedOrder>, after: int, before: int): (kept: seq<DatedOrder>)
    ensures |kept| <= |orders|
    ensures forall o :: o in kept <==> o in orders && InWindow(o, after, before)
  {
    if orders == [] then []
    else
      var o := orders[|orders| - 1];
      WithinWindow(orders[..|orders| - 1], after, before) + (if InWindow(o, after, before) then [o] else [])
  }

  /** Every order inside the window is kept as often as it occurs; every other is dropped. */
  lemma {:induction false} WithinWindowCounts(orders: seq<DatedOrder>, after: int, before: int)
    ensures forall o :: multiset(WithinWindow(orders, after, before))[o] ==
              if InWindow(o, after, before) then multiset(orders)[o] else 0
  {
    if orders != [] {
      var n := |orders| - 1;
      WithinWindowCounts(orders[..n], after, before);
      assert orders == orders[..n] + [orders[n]];
    }
  }

  function DatedLines(orders: seq<DatedOrder>): seq<seq<LineItem>> {
    seq(|orders|, i requires 0 <= i < |orders| => orders[i].lineItems)
  }

  /** The number of line items over the orders inside the window, order by order. */
  function WindowLineCount(orders: seq<DatedOrder>, after: int, before: int): nat {
    if orders == [] then 0
    else
      var o := orders[|orders| - 1];
      WindowLineCount(orders[..|orders| - 1], after, before) + (if InWindow(o, after, before) then |o.lineItems| else 0)
  }

  lemma DatedLineCountSnoc(orders: seq<DatedOrder>, o: DatedOrder)
    ensures LineCount(DatedLines(orders + [o])) == LineCount(DatedLines(orders)) + |o.lineItems|
  {
    assert DatedLines(orders + [o])[..|orders|] == DatedLines(orders);
  }

  /** No line item lies in the window exactly when every order inside the window has none. */
  lemma {:induction false} WindowLineCountZero(orders: seq<DatedOrder>, after: int, before: int)
    ensures WindowLineCount(orders, after, before) == 0 <==>
              forall o :: o in orders && InWindow(o, after, before) ==> o.lineItems == []
  {
    if orders != [] {
      var n := |orders| - 1;
      WindowLineCountZero(orders[..n], after, before);
      assert orders == orders[..n] + [orders[n]];
    }
  }

  /** Filtering by the window and then counting line items counts the line items of the in-window orders. */
  lemma {:induction false} WithinWindowLineCount(orders: seq<DatedOrder>, after: int, before: int)
    ensures LineCount(DatedLines(WithinWindow(orders, after, before))) == WindowLineCount(orders, after, before)
  {
    if orders != [] {
      var n := |orders| - 1;
      var o := orders[n];
      WithinWindowLineCount(orders[..n], after, before);
      var pre := WithinWindow(orders[..n], after, before);
      if InWindow(o, after, before) {
        assert WithinWindow(orders, after, before) == pre + [o];
        DatedLineCountSnoc(pre, o);
      } else {
        assert WithinWindow(orders, after, before) == pre + [];
        assert pre + [] == pre;
      }
    }
  }

  /** Explode over a list of orders, stated in terms of the orders' line items. */
  lemma DatedExplodeMember(orders: seq<DatedOrder>, site: string, r: SaleRecord)
    ensures r in Explode(DatedLines(orders), site) <==>
              exists o, l :: o in orders && l in o.lineItems && r == ToRecord(l, site)
  {
    var lines := DatedLines(orders);
    ExplodeMember(lines, site, r);
    if r in Explode(lines, site) {
      var i, j :| 0 <= i < |lines| && 0 <= j < |lines[i]| && r == ToRecord(lines[i][j], site);
      assert orders[i] in orders && lines[i][j] in orders[i].lineItems;
    }
    if exists o, l :: o in orders && l in o.lineItems && r == ToRecord(l, site) {
      var o, l :| o in orders && l in o.lineItems && r == ToRecord(l, site);
      var i :| 0 <= i < |orders| && orders[i] == o;
      var j :| 0 <= j < |o.lineItems| && o.lineItems[j] == l;
      assert lines[i][j] == l;
    }
  }

  // ------------------------------------------------------------ WooCommerce

  const BRAND1_SITE := "Brand1"

  /**
   * `process_woocommerce_data`: keep orders created strictly between
   * `weekAgo` and `now`, explode their line items tagged `Brand1`. When no
   * line item survives (no order in the window, or only orders without line
   * items), the frame has no `sku`/`qty` columns and the selection raises.
   */
  function ProcessWooCommerceData(orders: seq<DatedOrder>, weekAgo: int, now: int): Result<seq<SaleRecord>, ExtractError> {
    var rows := Explode(DatedLines(WithinWindow(orders, weekAgo, now)), BRAND1_SITE);
    if rows == [] then Failure(MissingColumns) else Success(rows)
  }

  /**
   * The WooCommerce result fails exactly when no order inside the window has
   * a line item; otherwise its records are exactly the line items of the
   * orders inside the window, tagged `Brand1`, one record per line item.
   */
  lemma WooCommerceSpec(orders: seq<DatedOrder>, weekAgo: int, now: int)
    ensures ProcessWooCommerceData(orders, weekAgo, now).Failure? <==>
              forall o :: o in orders && InWindow(o, weekAgo, now) ==> o.lineItems == []
    ensures ProcessWooCommerceData(orders, weekAgo, now).Success? ==>
              forall r :: r in ProcessWooCommerceData(orders, weekAgo, now).value <==>
                exists o, l :: o in orders && InWindow(o, weekAgo, now) && l in o.lineItems && r == ToRecord(l, BRAND1_SITE)
    ensures ProcessWooCommerceData(orders, weekAgo, now).Success? ==>
              |ProcessWooCommerceData(orders, weekAgo, now).value| == WindowLineCount(orders, weekAgo, now)
  {
    var kept := WithinWindow(orders, weekAgo, now);
    ExplodeLength(DatedLines(kept), BRAND1_SITE);
    WithinWindowLineCount(orders, weekAgo, now);
    WindowLineCountZero(orders, weekAgo, now);
    forall r {
      DatedExplodeMember(kept, BRAND1_SITE, r);
    }
  }

  /** An order inside the window without line items leaves no `sku` column, so the selection raises. */
  lemma WooCommerceNoLinesFails()
    ensures ProcessWooCommerceData([DatedOrder(Some(5), [])], 0, 10) == Failure(MissingColumns)
  {
    WooCommerceSpec([DatedOrder(Some(5), [])], 0, 10);
  }

  // ------------------------------------------------------------------- DSCO

  /** The site name for each DSCO API token name; any other name raises `KeyError`. */
  function DscoSite(apiName: string): Option<string> {
    if apiName == "nrdtoken" then Some("Nordstrom")
    else if apiName == "softoken" then Some("Saks OF 5th")
    else if apiName == "aafestoken" then Some("Aafes")
    else if apiName == "brandxtoken" then Some("Bonton")
    else if apiName == "lordtoken" then Some("Lord & Taylor")
    else None
  }

  /** A DSCO reply: either without an `orders` key, or with a list of orders. */
  datatype DscoBody = NoOrdersKey | DscoOrders(orders: seq<DatedOrder>)

  /**
   * `process_dsco_data`: keep the orders created strictly inside the window,
   * explode their line items and tag them with the API's site. Every
   * `KeyError` (no `orders` key, unknown API name, no order left so no `sku`
   * column) is caught and gives an empty table.
   */
  function ProcessDscoData(body: DscoBody, apiName: string, startDate: int, currentDatetime: int): seq<SaleRecord> {
    match body
    case NoOrdersKey => []
    case DscoOrders(orders) =>
      if orders == [] then []
      else
        var kept := WithinWindow(orders, startDate, currentDatetime);
        if kept == [] || DscoSite(apiName).None? then []
        else Explode(DatedLines(kept), DscoSite(apiName).value)
  }

  /**
   * A DSCO record comes from exactly one line item of an order inside the
   * window, tagged with the API's site; an unknown API name gives nothing.
   */
  lemma DscoSpec(body: DscoBody, apiName: string, startDate: int, currentDatetime: int, r: SaleRecord)
    ensures r in ProcessDscoData(body, apiName, startDate, currentDatetime) <==>
              && body.DscoOrders?
              && DscoSite(apiName).Some?
              && exists o, l :: o in body.orders && InWindow(o, startDate, currentDatetime) && l in o.lineItems &&
                                r == ToRecord(l, DscoSite(apiName).value)
  {
    if body.DscoOrders? && DscoSite(apiName).Some? {
      var kept := WithinWindow(body.orders, startDate, currentDatetime);
      DatedExplodeMember(kept, DscoSite(apiName).value, r);
      if kept == [] {
        assert forall o :: o in body.orders ==> !InWindow(o, startDate, currentDatetime);
      }
    }
  }

  /** A DSCO table has one record per line item of the orders inside the window, or none at all. */
  lemma DscoCount(body: DscoBody, apiName: string, startDate: int, currentDatetime: int)
    ensures |ProcessDscoData(body, apiName, startDate, currentDatetime)| ==
              if body.DscoOrders? && DscoSite(apiName).Some? then WindowLineCount(body.orders, startDate, currentDatetime) else 0
  {
    if body.DscoOrders? && DscoSite(apiName).Some? {
      var kept := WithinWindow(body.orders, startDate, currentDatetime);
      ExplodeLength(DatedLines(kept), DscoSite(apiName).value);
      WithinWindowLineCount(body.orders, startDate, currentDatetime);
    }
  }

  /** One DSCO API: its token name, the fetched reply (`None` when the fetch failed or the reply was empty), and the HTTP status. */
  datatype DscoFetch = DscoFetch(apiName: string, reply: Option<DscoBody>, status: int)

  /** The concatenated DSCO sales of the first fetches, as `dsco_main` accumulates them. */
  function DscoSales(fetches: seq<DscoFetch>, startDate: int, currentDatetime: int): seq<SaleRecord> {
    if fetches == [] then []
    else
      var f := fetches[|fetches| - 1];
      DscoSales(fetches[..|fetches| - 1], startDate, currentDatetime) +
      (if f.reply.Some? then ProcessDscoData(f.reply.value, f.apiName, startDate, currentDatetime) else [])
  }

  /** The status recorded per API name; a later fetch of the same name overwrites. */
  function DscoStatus(fetches: seq<DscoFetch>): map<string, int> {
    if fetches == [] then map[]
    else DscoStatus(fetches[..|fetches| - 1])[fetches[|fetches| - 1].apiName := fetches[|fetches| - 1].status]
  }

  /**
   * `dsco_main`: for each API, record its status; when a reply arrived,
   * process it and append the rows, adding their number to the order count.
   */
  method DscoMain(fetches: seq<DscoFetch>, startDate: int, currentDatetime: int)
    returns (dscosales: seq<SaleRecord>, totalOrders: nat, statusSummary: map<string, int>)
    ensures dscosales == DscoSales(fetches, startDate, currentDatetime)
    ensures totalOrders == |dscosales|
    ensures statusSummary == DscoStatus(fetches)
  {
    dscosales := [];
    totalOrders := 0;
    statusSummary := map[];
    var i := 0;
    while i < |fetches|
      invariant 0 <= i <= |fetches|
      invariant dscosales == DscoSales(fetches[..i], startDate, currentDatetime)
      invariant totalOrders == |dscosales|
      invariant statusSummary == DscoStatus(fetches[..i])
    {
      var f := fetches[i];
      assert fetches[..i + 1][..i] == fetches[..i];
      assert fetches[..i + 1] == fetches[..i] + [f];
      statusSummary := statusSummary[f.apiName := f.status];
      if f.reply.Some? {
        var salesData := ProcessDscoData(f.reply.value, f.apiName, startDate, currentDatetime);
        dscosales := dscosales + salesData;
        totalOrders := totalOrders + |salesData|;
      }
      i := i + 1;
    }
    assert fetches[..i] == fetches;
  }

  /**
   * The status summary has an entry for exactly the API names fetched, and
   * each entry holds the status of the last fetch of that name.
   */
  lemma {:induction false} DscoStatusSpec(fetches: seq<DscoFetch>)
    ensures DscoStatus(fetches).Keys == set f | f in fetches :: f.apiName
    ensures forall i :: 0 <= i < |fetches| && (forall j :: i < j < |fetches| ==> fetches[j].apiName != fetches[i].apiName) ==>
              DscoStatus(fetches)[fetches[i].apiName] == fetches[i].status
  {
    if fetches != [] {
      var n := |fetches| - 1;
      var pre := fetches[..n];
      DscoStatusSpec(pre);
      assert fetches == pre + [fetches[n]];
      forall i | 0 <= i < |fetches| && (forall j :: i < j < |fetches| ==> fetches[j].apiName != fetches[i].apiName)
        ensures DscoStatus(fetches)[fetches[i].apiName] == fetches[i].status
      {
        if i < n {
          assert pre[i] == fetches[i];
          assert forall j :: i < j < |pre| ==> pre[j] == fetches[j];
        }
      }
    }
  }

  /** Every DSCO record carries one of the five DSCO site names. */
  lemma {:induction false} DscoSalesSites(fetches: seq<DscoFetch>, startDate: int, currentDatetime: int)
    ensures forall r :: r in DscoSales(fetches, startDate, currentDatetime) ==>
              r.site in {"Nordstrom", "Saks OF 5th", "Aafes", "Bonton", "Lord & Taylor"}
  {
    if fetches != [] {
      var f := fetches[|fetches| - 1];
      DscoSalesSites(fetches[..|fetches| - 1], startDate, currentDatetime);
      if f.reply.Some? {
        forall r | r in ProcessDscoData(f.reply.value, f.apiName, startDate, currentDatetime)
          ensures r.site in {"Nordstrom", "Saks OF 5th", "Aafes", "Bonton", "Lord & Taylor"}
        {
          DscoSpec(f.reply.value, f.apiName, startDate, currentDatetime, r);
        }
      }
    }
  }

  // ----------------------------------------------------------------- Mirakl

  /** A Mirakl order: its `order_state` and its `order_lines` with `offer_sku` and `quantity`. */
  datatype MiraklOrder = MiraklOrder(orderState: string, orderLines: seq<LineItem>)

  const CANCELED := "CANCELED"

  /** The mask `order_state != 'CANCELED'`, keeping order. */
  function ActiveOrders(orders: seq<MiraklOrder>): (kept: seq<MiraklOrder>)
    ensures |kept| <= |orders|
    ensures forall o :: o in kept <==> o in orders && o.orderState != CANCELED
  {
    if orders == [] then []
    else
      var o := orders[|orders| - 1];
      ActiveOrders(orders[..|orders| - 1]) + (if o.orderState != CANCELED then [o] else [])
  }

  /** Every order that is not cancelled is kept as often as it occurs; every cancelled one is dropped. */
  lemma {:induction false} ActiveOrdersCounts(orders: seq<MiraklOrder>)
    ensures forall o :: multiset(ActiveOrders(orders))[o] == if o.orderState != CANCELED then multiset(orders)[o] else 0
  {
    if orders != [] {
      var n := |orders| - 1;
      ActiveOrdersCounts(orders[..n]);
      assert orders == orders[..n] + [orders[n]];
    }
  }

  function MiraklLines(orders: seq<MiraklOrder>): seq<seq<LineItem>> {
    seq(|orders|, i requires 0 <= i < |orders| => orders[i].orderLines)
  }

  /** The number of order lines over the orders that are not cancelled, order by order. */
  function ActiveLineCount(orders: seq<MiraklOrder>): nat {
    if orders == [] then 0
    else
      var o := orders[|orders| - 1];
      ActiveLineCount(orders[..|orders| - 1]) + (if o.orderState != CANCELED then |o.orderLines| else 0)
  }

  lemma MiraklLineCountSnoc(orders: seq<MiraklOrder>, o: MiraklOrder)
    ensures LineCount(MiraklLines(orders + [o])) == LineCount(MiraklLines(orders)) + |o.orderLines|
  {
    assert MiraklLines(orders + [o])[..|orders|] == MiraklLines(orders);
  }

  /** No active line exists exactly when every order that is not cancelled has no lines. */
  lemma {:induction false} ActiveLineCountZero(orders: seq<MiraklOrder>)
    ensures ActiveLineCount(orders) == 0 <==> forall o :: o in orders && o.orderState != CANCELED ==> o.orderLines == []
  {
    if orders != [] {
      var n := |orders| - 1;
      ActiveLineCountZero(orders[..n]);
      assert orders == orders[..n] + [orders[n]];
    }
  }

  /** Dropping the cancelled orders and then counting lines counts the lines of the other orders. */
  lemma {:induction false} ActiveOrdersLineCount(orders: seq<MiraklOrder>)
    ensures LineCount(MiraklLines(ActiveOrders(orders))) == ActiveLineCount(orders)
  {
    if orders != [] {
      var n := |orders| - 1;
      var o := orders[n];
      ActiveOrdersLineCount(orders[..n]);
      var pre := ActiveOrders(orders[..n]);
      if o.orderState != CANCELED {
        assert ActiveOrders(orders) == pre + [o];
        MiraklLineCountSnoc(pre, o);
      } else {
        assert ActiveOrders(orders) == pre + [];
        assert pre + [] == pre;
      }
    }
  }

  /**
   * `process_orders`: an empty order list gives an empty table; otherwise
   * cancelled orders are dropped and the lines of the others become
   * `(offer_sku, quantity, site)`. When no line survives (every order is
   * cancelled, or the others have no lines) the frame has no `offer_sku`
   * column and the selection raises.
   */
  function ProcessOrders(orders: seq<MiraklOrder>, site: string): Result<seq<SaleRecord>, ExtractError> {
    if orders == [] then Success([])
    else
      var rows := Explode(MiraklLines(ActiveOrders(orders)), site);
      if rows == [] then Failure(MissingColumns) else Success(rows)
  }

  /**
   * Cancelled orders contribute nothing, every line of every other order
   * gives one record (membership both ways, and as many records as such
   * lines), an empty list gives an empty table, and the call fails
   * exactly when a non-empty list has no line in a non-cancelled order.
   */
  lemma MiraklSpec(orders: seq<MiraklOrder>, site: string)
    ensures orders == [] ==> ProcessOrders(orders, site) == Success([])
    ensures ProcessOrders(orders, site).Failure? <==>
              orders != [] && forall o :: o in orders && o.orderState != CANCELED ==> o.orderLines == []
    ensures ProcessOrders(orders, site).Success? ==>
              forall r :: r in ProcessOrders(orders, site).value <==>
                exists o, l :: o in orders && o.orderState != CANCELED && l in o.orderLines && r == ToRecord(l, site)
    ensures ProcessOrders(orders, site).Success? ==> |ProcessOrders(orders, site).value| == ActiveLineCount(orders)
  {
    var kept := ActiveOrders(orders);
    ExplodeLength(MiraklLines(kept), site);
    ActiveOrdersLineCount(orders);
    ActiveLineCountZero(orders);
    if orders != [] {
      forall r {
        ActiveExplodeMember(orders, site, r);
      }
    }
  }

  lemma ActiveExplodeMember(orders: seq<MiraklOrder>, site: string, r: SaleRecord)
    ensures r in Explode(MiraklLines(ActiveOrders(orders)), site) <==>
              exists o, l :: o in orders && o.orderState != CANCELED && l in o.orderLines && r == ToRecord(l, site)
  {
    var kept := ActiveOrders(orders);
    var lines := MiraklLines(kept);
    ExplodeMember(lines, site, r);
    if r in Explode(lines, site) {
      var i, j :| 0 <= i < |lines| && 0 <= j < |lines[i]| && r == ToRecord(lines[i][j], site);
      assert kept[i] in kept && lines[i][j] in kept[i].orderLines;
    }
    if exists o, l :: o in orders && o.orderState != CANCELED && l in o.orderLines && r == ToRecord(l, site) {
      var o, l :| o in orders && o.orderState != CANCELED && l in o.orderLines && r == ToRecord(l, site);
      assert o in kept;
      var i :| 0 <= i < |kept| && kept[i] == o;
      var j :| 0 <= j < |o.orderLines| && o.orderLines[j] == l;
      assert lines[i][j] == l;
    }
  }

  const MIRAKL_SITES := ["THE BAY", "VERISHOP", "SSPO"]

  /** One Mirakl marketplace's fetch: the reply (`None` when the fetch failed) and the HTTP status. */
  datatype MiraklFetch = MiraklFetch(reply: Option<seq<MiraklOrder>>, status: int)

  /**
   * What `mirakl_main` has collected after visiting `sites`: sites without
   * credentials (absent from `responses`) are skipped, a failed fetch adds
   * nothing, and a failing `process_orders` aborts the whole run.
   */
  function MiraklSold(sites: seq<string>, responses: map<string, MiraklFetch>): Result<seq<SaleRecord>, ExtractError> {
    if sites == [] then Success([])
    else
      var site := sites[|sites| - 1];
      match MiraklSold(sites[..|sites| - 1], responses)
      case Failure(e) => Failure(e)
      case Success(sold) =>
        if site !in responses || responses[site].reply.None? then Success(sold)
        else
          match ProcessOrders(responses[site].reply.value, site)
          case Failure(e) => Failure(e)
          case Success(more) => Success(sold + more)
  }

  /** The status recorded for each visited site that has credentials. */
  function MiraklStatus(sites: seq<string>, responses: map<string, MiraklFetch>): map<string, int> {
    if sites == [] then map[]
    else
      var site := sites[|sites| - 1];
      var before := MiraklStatus(sites[..|sites| - 1], responses);
      if site in responses then before[site := responses[site].status] else before
  }

  /**
   * `mirakl_main`: visit the three Mirakl marketplaces in order, collecting
   * their sales and statuses.
   */
  method MiraklMain(responses: map<string, MiraklFetch>)
    returns (miraklSold: Result<seq<SaleRecord>, ExtractError>, statusSummary: map<string, int>)
    ensures miraklSold == MiraklSold(MIRAKL_SITES, responses)
    ensures miraklSold.Success? ==> statusSummary == MiraklStatus(MIRAKL_SITES, responses)
  {
    var sold: seq<SaleRecord> := [];
    statusSummary := map[];
    var i := 0;
    while i < |MIRAKL_SITES|
      invariant 0 <= i <= |MIRAKL_SITES|
      invariant MiraklSold(MIRAKL_SITES[..i], responses) == Success(sold)
      invariant statusSummary == MiraklStatus(MIRAKL_SITES[..i], responses)
    {
      var site := MIRAKL_SITES[i];
      assert MIRAKL_SITES[..i + 1][..i] == MIRAKL_SITES[..i];
      if site in responses {
        var fetched := responses[site];
        statusSummary := statusSummary[site := fetched.status];
        if fetched.reply.Some? {
          var processed := ProcessOrders(fetched.reply.value, site);
          if processed.Failure? {
            assert MIRAKL_SITES[..i + 1] == MIRAKL_SITES[..i] + [site];
            MiraklSoldFailurePersists(MIRAKL_SITES, i + 1, responses);
            assert MIRAKL_SITES[..|MIRAKL_SITES|] == MIRAKL_SITES;
            return processed, statusSummary;
          }
          sold := sold + processed.value;
        }
      }
      i := i + 1;
    }
    assert MIRAKL_SITES[..i] == MIRAKL_SITES;
    miraklSold := Success(sold);
  }

  /** Once a prefix of the site list fails, every longer prefix fails the same way. */
  lemma {:induction false} MiraklSoldFailurePersists(sites: seq<string>, k: nat, responses: map<string, MiraklFetch>)
    requires k <= |sites| && MiraklSold(sites[..k], responses).Failure?
    ensures MiraklSold(sites, responses) == MiraklSold(sites[..k], responses)
    decreases |sites| - k
  {
    if k < |sites| {
      assert sites[..k + 1][..k] == sites[..k];
      MiraklSoldFailurePersists(sites, k + 1, responses);
    } else {
      assert sites[..k] == sites;
    }
  }

  /**
   * Every Mirakl record comes from a line of a non-cancelled order of a
   * visited marketplace that has credentials and replied, tagged with that
   * marketplace's name.
   */
  lemma {:induction false} MiraklSoldSpec(sites: seq<string>, responses: map<string, MiraklFetch>)
    ensures MiraklSold(sites, responses).Success? ==>
              forall r :: r in MiraklSold(sites, responses).value ==>
                r.site in sites && r.site in responses && responses[r.site].reply.Some? &&
                exists o, l :: o in responses[r.site].reply.value && o.orderState != CANCELED && l in o.orderLines &&
                               r == ToRecord(l, r.site)
  {
    if sites != [] {
      var site := sites[|sites| - 1];
      var pre := sites[..|sites| - 1];
      MiraklSoldSpec(pre, responses);
      if MiraklSold(sites, responses).Success? && site in responses && responses[site].reply.Some? {
        MiraklSpec(responses[site].reply.value, site);
      }
    }
  }

  /**
   * Conversely, on success every line of a non-cancelled order of a visited
   * marketplace that has credentials and replied is among the records,
   * tagged with that marketplace's name.
   */
  lemma {:induction false} MiraklSoldComplete(sites: seq<string>, responses: map<string, MiraklFetch>,
                                              site: string, o: MiraklOrder, l: LineItem)
    ensures MiraklSold(sites, responses).Success? && site in sites && site in responses &&
            responses[site].reply.Some? && o in responses[site].reply.value && o.orderState != CANCELED &&
            l in o.orderLines ==>
              ToRecord(l, site) in MiraklSold(sites, responses).value
  {
    if sites != [] && MiraklSold(sites, responses).Success? && site in sites {
      var n := |sites| - 1;
      var pre := sites[..n];
      assert MiraklSold(pre, responses).Success?;
      var sold := MiraklSold(pre, responses).value;
      if site in pre {
        MiraklSoldComplete(pre, responses, site, o, l);
      } else {
        assert site == sites[n];
      }
      if site == sites[n] && site in responses && responses[site].reply.Some? {
        MiraklSpec(responses[site].reply.value, site);
        if o in responses[site].reply.value && o.orderState != CANCELED && l in o.orderLines {
          assert ToRecord(l, site) in ProcessOrders(responses[site].reply.value, site).value;
        }
      }
    }
  }

  /**
   * A marketplace with credentials that replied with a non-empty order list
   * in which no order that is not cancelled has a line.
   */
  predicate NoActiveLinesReply(site: string, responses: map<string, MiraklFetch>) {
    && site in responses && responses[site].reply.Some?
    && responses[site].reply.value != []
    && forall o :: o in responses[site].reply.value && o.orderState != CANCELED ==> o.orderLines == []
  }

  /** The run fails exactly when some visited marketplace replied with orders but no active line. */
  lemma {:induction false} MiraklSoldFails(sites: seq<string>, responses: map<string, MiraklFetch>)
    ensures MiraklSold(sites, responses).Failure? <==> exists site :: site in sites && NoActiveLinesReply(site, responses)
  {
    if sites != [] {
      var n := |sites| - 1;
      var pre, site := sites[..n], sites[n];
      MiraklSoldFails(pre, responses);
      var lastFails := site in responses && responses[site].reply.Some? &&
                       ProcessOrders(responses[site].reply.value, site).Failure?;
      if site in responses && responses[site].reply.Some? {
        MiraklSpec(responses[site].reply.value, site);
      }
      assert lastFails <==> NoActiveLinesReply(site, responses);
      assert MiraklSold(sites, responses).Failure? <==> MiraklSold(pre, responses).Failure? || lastFails;
      if exists x :: x in sites && NoActiveLinesReply(x, responses) {
        var x :| x in sites && NoActiveLinesReply(x, responses);
        if x != site {
          assert x in pre by {
            assert sites == pre + [site];
          }
        }
      }
      if exists x :: x in pre && NoActiveLinesReply(x, responses) {
        var x :| x in pre && NoActiveLinesReply(x, responses);
        assert x in sites;
      }
    }
  }

  /**
   * `mirakl_main` as written: the branch for a failed fetch calls
   * `logging.error`, but `logging` is never imported, so that call raises
   * `NameError` and ends the run. `MiraklSold` is the evidently intended
   * behaviour, where a failed fetch is logged and contributes nothing.
   */
  function MiraklSoldAsWritten(sites: seq<string>, responses: map<string, MiraklFetch>): Result<seq<SaleRecord>, ExtractError> {
    if sites == [] then Success([])
    else
      var site := sites[|sites| - 1];
      match MiraklSoldAsWritten(sites[..|sites| - 1], responses)
      case Failure(e) => Failure(e)
      case Success(sold) =>
        if site !in responses then Success(sold)
        else if responses[site].reply.None? then Failure(UndefinedName)
        else
          match ProcessOrders(responses[site].reply.value, site)
          case Failure(e) => Failure(e)
          case Success(more) => Success(sold + more)
  }

  /**
   * As written, one failed fetch of a marketplace with credentials makes the
   * whole Mirakl run fail; when every such fetch succeeds it agrees with the
   * intended `MiraklSold`.
   */
  lemma {:induction false} MiraklFailedFetchAborts(sites: seq<string>, responses: map<string, MiraklFetch>)
    ensures (exists site :: site in sites && site in responses && responses[site].reply.None?) ==>
              MiraklSoldAsWritten(sites, responses).Failure?
    ensures (forall site :: site in sites && site in responses ==> responses[site].reply.Some?) ==>
              MiraklSoldAsWritten(sites, responses) == MiraklSold(sites, responses)
  {
    if sites != [] {
      var n := |sites| - 1;
      var pre := sites[..n];
      MiraklFailedFetchAborts(pre, responses);
      assert sites == pre + [sites[n]];
    }
  }

  /** A failed fetch of THE BAY, whose credentials exist, ends the run as written and is skipped as intended. */
  lemma MiraklNameErrorExample()
    ensures var responses := map["THE BAY" := MiraklFetch(None, 500)];
            MiraklSoldAsWritten(MIRAKL_SITES, responses) == Failure(UndefinedName) &&
            MiraklSold(MIRAKL_SITES, responses) == Success([])
  {
    var responses := map["THE BAY" := MiraklFetch(None, 500)];
    assert MIRAKL_SITES[..1] == ["THE BAY"] && MIRAKL_SITES[..2] == ["THE BAY", "VERISHOP"];
    assert ["THE BAY"][..0] == [] && ["THE BAY", "VERISHOP"][..1] == ["THE BAY"];
    assert MIRAKL_SITES[..|MIRAKL_SITES| - 1] == ["THE BAY", "VERISHOP"];
  }

  // ----------------------------------------------------------------- Wayfair

  /** A `products` entry; either field may be absent from the reply. */
  datatype WayfairProduct = WayfairProduct(partNumber: Option<string>, quantity: Option<int>)

  /** A purchase order; a missing `products` key is an empty list. */
  datatype WayfairOrder = WayfairOrder(products: seq<WayfairProduct>)

  /** The GraphQL reply: without `data.getDropshipPurchaseOrders`, or with that list. */
  datatype WayfairReply = KeysMissing | PurchaseOrders(orders: seq<WayfairOrder>)

  /** The processing status `process_wayfair_data` and `wayfair_main` report. */
  datatype WayfairStatus = Processed | NoOrdersFound | KeysNotFound | FetchError(code: int) | AuthError(code: int)

  const WAYFAIR_SITE := "Wayfair"

  /** A product as a line item, with `''` for a missing part number and `0` for a missing quantity. */
  function ProductLine(p: WayfairProduct): LineItem {
    LineItem(p.partNumber.GetOr(""), p.quantity.GetOr(0))
  }

  function ProductLines(products: seq<WayfairProduct>): seq<LineItem> {
    seq(|products|, j requires 0 <= j < |products| => ProductLine(products[j]))
  }

  function WayfairLines(orders: seq<WayfairOrder>): seq<seq<LineItem>> {
    seq(|orders|, i requires 0 <= i < |orders| => ProductLines(orders[i].products))
  }

  /**
   * `process_wayfair_data`: without the expected keys, or with an empty order
   * list, no rows and the matching status; otherwise every product of every
   * order becomes `(partNumber or '', quantity or 0, 'Wayfair')` and the status
   * is "Success".
   */
  method ProcessWayfairData(data: WayfairReply) returns (products: seq<SaleRecord>, status: WayfairStatus)
    ensures data.KeysMissing? ==> products == [] && status == KeysNotFound
    ensures data.PurchaseOrders? && data.orders == [] ==> products == [] && status == NoOrdersFound
    ensures data.PurchaseOrders? && data.orders != [] ==>
              status == Processed && products == Explode(WayfairLines(data.orders), WAYFAIR_SITE)
    ensures forall r :: r in products <==>
              data.PurchaseOrders? &&
              exists i, j :: 0 <= i < |data.orders| && 0 <= j < |data.orders[i].products| &&
                             r == SaleRecord(data.orders[i].products[j].partNumber.GetOr(""),
                                             data.orders[i].products[j].quantity.GetOr(0), WAYFAIR_SITE)
  {
    if data.KeysMissing? {
      return [], KeysNotFound;
    }
    var orders := data.orders;
    if orders == [] {
      return [], NoOrdersFound;
    }
    var allProducts: seq<SaleRecord> := [];
    var i := 0;
    while i < |orders|
      invariant 0 <= i <= |orders|
      invariant allProducts == Explode(WayfairLines(orders[..i]), WAYFAIR_SITE)
    {
      var ps := orders[i].products;
      var j := 0;
      while j < |ps|
        invariant 0 <= j <= |ps|
        invariant allProducts == Explode(WayfairLines(orders[..i]), WAYFAIR_SITE) + LineRecords(ProductLines(ps)[..j], WAYFAIR_SITE)
      {
        var partNumber := ps[j].partNumber.GetOr("");
        var quantity := ps[j].quantity.GetOr(0);
        LineRecordsSnoc(ProductLines(ps), j, WAYFAIR_SITE);
        allProducts := allProducts + [SaleRecord(partNumber, quantity, WAYFAIR_SITE)];
        j := j + 1;
      }
      assert ProductLines(ps)[..j] == ProductLines(ps);
      assert WayfairLines(orders[..i + 1]) == WayfairLines(orders[..i]) + [ProductLines(ps)];
      ExplodeSnoc(WayfairLines(orders[..i]), ProductLines(ps), WAYFAIR_SITE);
      i := i + 1;
    }
    assert orders[..i] == orders;
    products, status := allProducts, Processed;
    forall r ensures r in products <==>
        exists i, j :: 0 <= i < |orders| && 0 <= j < |orders[i].products| &&
                       r == SaleRecord(orders[i].products[j].partNumber.GetOr(""), orders[i].products[j].quantity.GetOr(0), WAYFAIR_SITE)
    {
      var lines := WayfairLines(orders);
      ExplodeMember(lines, WAYFAIR_SITE, r);
      if r in products {
        var i, j :| 0 <= i < |lines| && 0 <= j < |lines[i]| && r == ToRecord(lines[i][j], WAYFAIR_SITE);
        assert lines[i][j] == ProductLine(orders[i].products[j]);
      }
      if exists i, j :: 0 <= i < |orders| && 0 <= j < |orders[i].products| &&
                        r == SaleRecord(orders[i].products[j].partNumber.GetOr(""), orders[i].products[j].quantity.GetOr(0), WAYFAIR_SITE) {
        var i, j :| 0 <= i < |orders| && 0 <= j < |orders[i].products| &&
                    r == SaleRecord(orders[i].products[j].partNumber.GetOr(""), orders[i].products[j].quantity.GetOr(0), WAYFAIR_SITE);
        assert lines[i][j] == ProductLine(orders[i].products[j]);
      }
    }
  }

  /**
   * `wayfair_main`: a missing token reports the auth status and no rows; a
   * missing reply reports the fetch status and no rows; otherwise the rows
   * and status of `process_wayfair_data`, counted.
   */
  method WayfairMain(token: Option<string>, authStatus: int, reply: Option<WayfairReply>, fetchStatus: int)
    returns (wayfairOrders: seq<SaleRecord>, totalOrders: nat, statusCode: int, processStatus: WayfairStatus)
    ensures totalOrders == |wayfairOrders|
    ensures (token.None? || token.value == "") ==>
              wayfairOrders == [] && statusCode == authStatus && processStatus == AuthError(authStatus)
    ensures token.Some? && token.value != "" && reply.None? ==>
              wayfairOrders == [] && statusCode == fetchStatus && processStatus == FetchError(fetchStatus)
    ensures token.Some? && token.value != "" && reply.Some? && reply.value.KeysMissing? ==>
              wayfairOrders == [] && statusCode == fetchStatus && processStatus == KeysNotFound
    ensures token.Some? && token.value != "" && reply.Some? && reply.value.PurchaseOrders? ==>
              statusCode == fetchStatus &&
              (if reply.value.orders == [] then wayfairOrders == [] && processStatus == NoOrdersFound
               else wayfairOrders == Explode(WayfairLines(reply.value.orders), WAYFAIR_SITE) && processStatus == Processed)
  {
    if token.Some? && token.value != "" {
      statusCode := fetchStatus;
      if reply.Some? {
        wayfairOrders, processStatus := ProcessWayfairData(reply.value);
      } else {
        wayfairOrders, processStatus := [], FetchError(fetchStatus);
      }
    } else {
      wayfairOrders, statusCode, processStatus := [], authStatus, AuthError(authStatus);
    }
    totalOrders := |wayfairOrders|;
  }

  // -------------------------------------------------------------- flat files

  /** A row of a marketplace export after its columns are selected and renamed. */
  datatype FileRow = FileRow(sku: string, qty: int, site: string)

  /** The placeholder row a missing or unreadable export contributes. */
  function Placeholder(siteName: string): SaleRecord {
    SaleRecord("other", 0, siteName)
  }

  /**
   * `process_file_data` / `process_macys_data`: `file` is `None` when the
   * path is missing or unreadable. A readable file gives its rows and their
   * number; `siteFromFile` says whether the file's own column (Macy's
   * `Merchant`, HSN's `RequestorName`) supplies the site, otherwise the site
   * name does.
   */
  function ProcessFileData(file: Option<seq<FileRow>>, siteName: string, siteFromFile: bool): (r: (seq<SaleRecord>, nat))
    ensures file.None? ==> r == ([Placeholder(siteName)], 0)
    ensures file.Some? ==> |r.0| == |file.value| == r.1
    ensures file.Some? ==> forall i :: 0 <= i < |file.value| ==>
              r.0[i].sku == file.value[i].sku && r.0[i].qty == file.value[i].qty &&
              r.0[i].site == (if siteFromFile then file.value[i].site else siteName)
  {
    match file
    case None => ([Placeholder(siteName)], 0)
    case Some(rows) =>
      (seq(|rows|, i requires 0 <= i < |rows| =>
         SaleRecord(rows[i].sku, rows[i].qty, if siteFromFile then rows[i].site else siteName)), |rows|)
  }
}
