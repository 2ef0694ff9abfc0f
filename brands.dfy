// The brand reports: the cleaned sales enriched with cost and brand from the
// sales map, split into the Brand1 rows and the brand2/brand3 rows, and each
// part grouped by (sku, cost) with a line total.

module Brands {
  import opened Records
  import opened Text
  import opened Grouping

  /** A row of the sales map: sku, unit cost (`None` when not numeric) and brand (`None` when empty). */
  datatype SalesMapRow = SalesMapRow(sku: string, cost: Option<int>, brand: Option<string>)

  /** A sales row after the join with the sales map, with `total = qty * cost` (`None` when the cost is). */
  datatype BrandRow = BrandRow(sku: string, qty: int, site: string, cost: Option<int>, brand: Option<string>, total: Option<int>)

  /** The map rows whose stripped sku equals `sku`, in map order. */
  function MapMatches(sku: string, salesMap: seq<SalesMapRow>): seq<SalesMapRow> {
    if salesMap == [] then []
    else
      var m := salesMap[|salesMap| - 1];
      MapMatches(sku, salesMap[..|salesMap| - 1]) + (if Strip(m.sku) == sku then [m] else [])
  }

  function LineTotal(qty: int, cost: Option<int>): Option<int> {
    if cost.Some? then Some(qty * cost.value) else None
  }

  function Joined(r: SaleRecord, m: SalesMapRow): BrandRow {
    BrandRow(Strip(r.sku), r.qty, r.site, m.cost, m.brand, LineTotal(r.qty, m.cost))
  }

  /** The left join of one sales row on its stripped sku: a row per match, or one row without cost and brand. */
  function EnrichRow(r: SaleRecord, salesMap: seq<SalesMapRow>): seq<BrandRow> {
    var ms := MapMatches(Strip(r.sku), salesMap);
    if ms == [] then [BrandRow(Strip(r.sku), r.qty, r.site, None, None, None)]
    else seq(|ms|, j requires 0 <= j < |ms| => Joined(r, ms[j]))
  }

  function Enrich(sales: seq<SaleRecord>, salesMap: seq<SalesMapRow>): seq<BrandRow> {
    if sales == [] then []
    else Enrich(sales[..|sales| - 1], salesMap) + EnrichRow(sales[|sales| - 1], salesMap)
  }

  lemma {:induction false} MapMatchesMember(sku: string, salesMap: seq<SalesMapRow>)
    ensures forall m :: m in MapMatches(sku, salesMap) <==> m in salesMap && Strip(m.sku) == sku
  {
    if salesMap != [] {
      var n := |salesMap| - 1;
      MapMatchesMember(sku, salesMap[..n]);
      assert salesMap == salesMap[..n] + [salesMap[n]];
    }
  }

  /**
   * `o` is what the join makes of sales row `r`: its stripped sku, qty and
   * site, with the cost and brand of a map row whose stripped sku matches,
   * or with neither when no map row matches; and its total is qty times cost.
   */
  predicate RowFrom(o: BrandRow, r: SaleRecord, salesMap: seq<SalesMapRow>) {
    && o.sku == Strip(r.sku) && o.qty == r.qty && o.site == r.site
    && o.total == LineTotal(o.qty, o.cost)
    && ((o.cost == None && o.brand == None && forall m :: m in salesMap ==> Strip(m.sku) != Strip(r.sku)) ||
        (exists m :: m in salesMap && Strip(m.sku) == Strip(r.sku) && o.cost == m.cost && o.brand == m.brand))
  }

  lemma EnrichRowSpec(r: SaleRecord, salesMap: seq<SalesMapRow>)
    ensures |EnrichRow(r, salesMap)| >= 1
    ensures forall o :: o in EnrichRow(r, salesMap) ==> RowFrom(o, r, salesMap)
  {
    var ms := MapMatches(Strip(r.sku), salesMap);
    MapMatchesMember(Strip(r.sku), salesMap);
    forall o | o in EnrichRow(r, salesMap) ensures RowFrom(o, r, salesMap) {
      if ms != [] {
        var j :| 0 <= j < |ms| && o == Joined(r, ms[j]);
        assert ms[j] in ms;
      }
    }
  }

  /** Every enriched row comes from a sales row as the join prescribes, and there are at least as many rows as sales rows. */
  lemma {:induction false} EnrichSpec(sales: seq<SaleRecord>, salesMap: seq<SalesMapRow>)
    ensures |Enrich(sales, salesMap)| >= |sales|
    ensures forall o :: o in Enrich(sales, salesMap) ==> exists r :: r in sales && RowFrom(o, r, salesMap)
  {
    if sales != [] {
      var n := |sales| - 1;
      EnrichSpec(sales[..n], salesMap);
      EnrichRowSpec(sales[n], salesMap);
      forall o | o in Enrich(sales, salesMap) ensures exists r :: r in sales && RowFrom(o, r, salesMap) {
        if o in Enrich(sales[..n], salesMap) {
          var r :| r in sales[..n] && RowFrom(o, r, salesMap);
          assert r in sales;
        } else {
          assert sales[n] in sales && RowFrom(o, sales[n], salesMap);
        }
      }
    }
  }

  /** No sales row is lost: each has an enriched row made from it. */
  lemma {:induction false} EnrichComplete(sales: seq<SaleRecord>, salesMap: seq<SalesMapRow>)
    ensures forall r :: r in sales ==> exists o :: o in Enrich(sales, salesMap) && RowFrom(o, r, salesMap)
  {
    if sales != [] {
      var n := |sales| - 1;
      var pre := sales[..n];
      EnrichComplete(pre, salesMap);
      EnrichRowSpec(sales[n], salesMap);
      var last := EnrichRow(sales[n], salesMap);
      assert Enrich(sales, salesMap) == Enrich(pre, salesMap) + last;
      assert last[0] in last;
      forall r | r in sales ensures exists o :: o in Enrich(sales, salesMap) && RowFrom(o, r, salesMap) {
        if r == sales[n] {
          assert last[0] in Enrich(sales, salesMap) && RowFrom(last[0], r, salesMap);
        } else {
          assert r in pre by {
            assert sales == pre + [sales[n]];
          }
          var o :| o in Enrich(pre, salesMap) && RowFrom(o, r, salesMap);
          assert o in Enrich(sales, salesMap);
        }
      }
    }
  }

  lemma {:induction false} NoMatchesEmpty(sku: string, salesMap: seq<SalesMapRow>)
    requires forall m :: m in salesMap ==> Strip(m.sku) != sku
    ensures MapMatches(sku, salesMap) == []
  {
    if salesMap != [] {
      var n := |salesMap| - 1;
      assert salesMap[n] in salesMap;
      NoMatchesEmpty(sku, salesMap[..n]);
    }
  }

  /** A map whose stripped skus are pairwise distinct. */
  predicate DistinctMapSkus(salesMap: seq<SalesMapRow>) {
    forall i, j :: 0 <= i < j < |salesMap| ==> Strip(salesMap[i].sku) != Strip(salesMap[j].sku)
  }

  lemma {:induction false} MapMatchesAtMostOne(sku: string, salesMap: seq<SalesMapRow>)
    requires DistinctMapSkus(salesMap)
    ensures |MapMatches(sku, salesMap)| <= 1
  {
    if salesMap != [] {
      var n := |salesMap| - 1;
      var pre := salesMap[..n];
      MapMatchesAtMostOne(sku, pre);
      if Strip(salesMap[n].sku) == sku {
        forall m | m in pre ensures Strip(m.sku) != sku {
          var i :| 0 <= i < n && pre[i] == m;
          assert Strip(salesMap[i].sku) != Strip(salesMap[n].sku);
        }
        NoMatchesEmpty(sku, pre);
      }
    }
  }

  /**
   * With a map whose stripped skus are distinct, the join of a sales row is a
   * lookup: the one row joined with the map row of its stripped sku, or the
   * row without cost and brand when the map has none.
   */
  lemma EnrichRowDistinct(r: SaleRecord, salesMap: seq<SalesMapRow>, m: SalesMapRow)
    requires DistinctMapSkus(salesMap)
    ensures m in salesMap && Strip(m.sku) == Strip(r.sku) ==> EnrichRow(r, salesMap) == [Joined(r, m)]
    ensures (forall m' :: m' in salesMap ==> Strip(m'.sku) != Strip(r.sku)) ==>
              EnrichRow(r, salesMap) == [BrandRow(Strip(r.sku), r.qty, r.site, None, None, None)]
  {
    var ms := MapMatches(Strip(r.sku), salesMap);
    MapMatchesAtMostOne(Strip(r.sku), salesMap);
    MapMatchesMember(Strip(r.sku), salesMap);
    if m in salesMap && Strip(m.sku) == Strip(r.sku) {
      assert m in ms;
      assert ms == [m];
    }
    if forall m' :: m' in salesMap ==> Strip(m'.sku) != Strip(r.sku) {
      NoMatchesEmpty(Strip(r.sku), salesMap);
    }
  }

  /** A map whose stripped skus are distinct has one row per stripped sku. */
  lemma DistinctMapRow(salesMap: seq<SalesMapRow>, m1: SalesMapRow, m2: SalesMapRow)
    requires DistinctMapSkus(salesMap)
    requires m1 in salesMap && m2 in salesMap && Strip(m1.sku) == Strip(m2.sku)
    ensures m1 == m2
  {
    var i :| 0 <= i < |salesMap| && salesMap[i] == m1;
    var j :| 0 <= j < |salesMap| && salesMap[j] == m2;
    assert !(i < j) && !(j < i);
  }

  /** An enriched row with a brand has the brand of a map row whose stripped sku is the row's sku. */
  lemma EnrichedBrand(sales: seq<SaleRecord>, salesMap: seq<SalesMapRow>, o: BrandRow)
    requires o in Enrich(sales, salesMap) && o.brand.Some?
    ensures exists m :: m in salesMap && Strip(m.sku) == o.sku && o.brand == m.brand
  {
    EnrichSpec(sales, salesMap);
    var r :| r in sales && RowFrom(o, r, salesMap);
  }

  /** With a map whose stripped skus are distinct, two enriched rows with a brand and the same sku have the same brand. */
  lemma SkuDeterminesBrand(sales: seq<SaleRecord>, salesMap: seq<SalesMapRow>, o1: BrandRow, o2: BrandRow)
    requires DistinctMapSkus(salesMap)
    requires o1 in Enrich(sales, salesMap) && o1.brand.Some?
    requires o2 in Enrich(sales, salesMap) && o2.brand.Some?
    ensures o1.sku == o2.sku ==> o1.brand == o2.brand
  {
    EnrichedBrand(sales, salesMap, o1);
    EnrichedBrand(sales, salesMap, o2);
    var m1 :| m1 in salesMap && Strip(m1.sku) == o1.sku && o1.brand == m1.brand;
    var m2 :| m2 in salesMap && Strip(m2.sku) == o2.sku && o2.brand == m2.brand;
    if o1.sku == o2.sku {
      DistinctMapRow(salesMap, m1, m2);
    }
  }

  /** With a map whose stripped skus are distinct, the join keeps exactly one row per sales row. */
  lemma {:induction false} EnrichKeepsRows(sales: seq<SaleRecord>, salesMap: seq<SalesMapRow>)
    requires DistinctMapSkus(salesMap)
    ensures |Enrich(sales, salesMap)| == |sales|
  {
    if sales != [] {
      var n := |sales| - 1;
      EnrichKeepsRows(sales[..n], salesMap);
      MapMatchesAtMostOne(Strip(sales[n].sku), salesMap);
    }
  }

  // ------------------------------------------------------------ brand split

  /** A row whose brand is one of `brands`; a row without brand is in no part. */
  predicate HasBrand(o: BrandRow, brands: set<string>) {
    o.brand.Some? && o.brand.value in brands
  }

  /** The rows whose brand is in `brands`, in table order. */
  function SelectBrands(rows: seq<BrandRow>, brands: set<string>): (part: seq<BrandRow>)
    ensures forall o :: multiset(part)[o] == if HasBrand(o, brands) then multiset(rows)[o] else 0
  {
    if rows == [] then []
    else
      var o := rows[|rows| - 1];
      assert rows == rows[..|rows| - 1] + [o];
      SelectBrands(rows[..|rows| - 1], brands) + (if HasBrand(o, brands) then [o] else [])
  }

  const BRAND1 := "Brand1"
  const BRAND2S: set<string> := {"brand2", "brand3"}

  /** The rows with brand exactly `Brand1` (the map's own spelling; brand is not lower-cased). */
  function Brand1Sales(rows: seq<BrandRow>): seq<BrandRow> {
    SelectBrands(rows, {BRAND1})
  }

  /** The rows with brand `brand2` or `brand3`. */
  function Brand2Sales(rows: seq<BrandRow>): seq<BrandRow> {
    SelectBrands(rows, BRAND2S)
  }

  /**
   * The two parts hold, with their multiplicities, exactly the rows of brand
   * `Brand1` and exactly the rows of brand `brand2` or `brand3`; they share no
   * row, and every row of any other brand, or without a brand, is in neither.
   */
  lemma BrandSplitSpec(rows: seq<BrandRow>)
    ensures forall o :: multiset(Brand1Sales(rows))[o] == if o.brand == Some(BRAND1) then multiset(rows)[o] else 0
    ensures forall o :: multiset(Brand2Sales(rows))[o] ==
              if o.brand == Some("brand2") || o.brand == Some("brand3") then multiset(rows)[o] else 0
    ensures forall o :: o in Brand1Sales(rows) ==> o !in Brand2Sales(rows)
  {
    var b1, b2 := Brand1Sales(rows), Brand2Sales(rows);
    forall o: BrandRow ensures multiset(b1)[o] == if o.brand == Some(BRAND1) then multiset(rows)[o] else 0 {
      assert HasBrand(o, {BRAND1}) <==> o.brand == Some(BRAND1);
    }
    forall o: BrandRow ensures multiset(b2)[o] == if o.brand == Some("brand2") || o.brand == Some("brand3") then multiset(rows)[o] else 0 {
      assert HasBrand(o, BRAND2S) <==> o.brand == Some("brand2") || o.brand == Some("brand3");
    }
    forall o | o in b1 ensures o !in b2 {
      assert multiset(b1)[o] > 0;
    }
  }

  // ------------------------------------------------------------- brand files

  /** A line of a brand file: the pair (sku, cost), its summed qty and `total = cost * qty`. */
  datatype BrandFileRow = BrandFileRow(sku: string, cost: int, qty: int, total: int)

  /** The order of the group keys: by sku, then by cost. */
  predicate KeyLt(a: (string, int), b: (string, int)) {
    StrLt(a.0, b.0) || (a.0 == b.0 && a.1 < b.1)
  }

  lemma KeyLtIsOrder()
    ensures StrictTotalOrder(KeyLt)
  {
    forall a ensures !KeyLt(a, a) {
      StrLtIrreflexive(a.0);
    }
    forall a, b, c | KeyLt(a, b) && KeyLt(b, c) ensures KeyLt(a, c) {
      if StrLt(a.0, b.0) && StrLt(b.0, c.0) {
        StrLtTransitive(a.0, b.0, c.0);
      }
    }
    forall a, b | a != b ensures KeyLt(a, b) || KeyLt(b, a) {
      if a.0 != b.0 {
        StrLtTotal(a.0, b.0);
      }
    }
  }

  /** The `(sku, cost)` keyed qty of the rows; rows without a cost are dropped by the group-by. */
  function CostRows(rows: seq<BrandRow>): seq<((string, int), int)> {
    if rows == [] then []
    else
      var o := rows[|rows| - 1];
      CostRows(rows[..|rows| - 1]) + (if o.cost.Some? then [((o.sku, o.cost.value), o.qty)] else [])
  }

  function ToFileRow(g: ((string, int), int)): BrandFileRow {
    BrandFileRow(g.0.0, g.0.1, g.1, g.0.1 * g.1)
  }

  /** `groupby(['sku','cost'])['qty'].sum()` followed by `total = cost * qty`. */
  function BrandFile(rows: seq<BrandRow>): seq<BrandFileRow> {
    var g := GroupSum(CostRows(rows), KeyLt);
    seq(|g|, i requires 0 <= i < |g| => ToFileRow(g[i]))
  }

  /** Sum of the qty of the rows with this sku and this cost. */
  function QtyAt(rows: seq<BrandRow>, sku: string, cost: int): int {
    if rows == [] then 0
    else
      var o := rows[|rows| - 1];
      QtyAt(rows[..|rows| - 1], sku, cost) + (if o.sku == sku && o.cost == Some(cost) then o.qty else 0)
  }

  /** The pairs (sku, cost) of the rows that have a cost. */
  function CostKeys(rows: seq<BrandRow>): set<(string, int)> {
    set o | o in rows && o.cost.Some? :: (o.sku, o.cost.value)
  }

  /** Sum over the rows that have a cost of `cost * qty`. */
  function CostedTotal(rows: seq<BrandRow>): int {
    if rows == [] then 0
    else
      var o := rows[|rows| - 1];
      CostedTotal(rows[..|rows| - 1]) + (if o.cost.Some? then o.cost.value * o.qty else 0)
  }

  function Cost(k: (string, int)): int {
    k.1
  }

  lemma {:induction false} CostRowsKeys(rows: seq<BrandRow>)
    ensures KeysOf(CostRows(rows)) == CostKeys(rows)
  {
    if rows != [] {
      var n := |rows| - 1;
      var pre, o := rows[..n], rows[n];
      CostRowsKeys(pre);
      assert rows == pre + [o];
      assert forall x :: x in rows <==> x in pre || x == o;
      if o.cost.Some? {
        KeysOfSnoc(CostRows(pre), ((o.sku, o.cost.value), o.qty));
        assert CostKeys(rows) == CostKeys(pre) + {(o.sku, o.cost.value)};
      } else {
        assert CostRows(rows) == CostRows(pre) + [];
        assert CostRows(pre) + [] == CostRows(pre);
        assert CostKeys(rows) == CostKeys(pre);
      }
    }
  }

  lemma {:induction false} CostRowsSums(rows: seq<BrandRow>, sku: string, c: int)
    ensures SumFor(CostRows(rows), (sku, c)) == QtyAt(rows, sku, c)
  {
    if rows != [] {
      var n := |rows| - 1;
      var pre, o := rows[..n], rows[n];
      CostRowsSums(pre, sku, c);
      var tail := if o.cost.Some? then [((o.sku, o.cost.value), o.qty)] else [];
      SumForAppend(CostRows(pre), tail, (sku, c));
      assert tail == [] || tail[..0] == [];
    }
  }

  lemma {:induction false} CostRowsWeighted(rows: seq<BrandRow>)
    ensures Weighted(CostRows(rows), Cost) == CostedTotal(rows)
  {
    if rows != [] {
      var n := |rows| - 1;
      var pre, o := rows[..n], rows[n];
      CostRowsWeighted(pre);
      var tail := if o.cost.Some? then [((o.sku, o.cost.value), o.qty)] else [];
      WeightedAppend(CostRows(pre), tail, Cost);
    }
  }

  /**
   * A brand file has one line per (sku, cost) pair of the rows that have a
   * cost, ordered by sku and then cost; each line's qty is the sum of the qty
   * of those rows and its total is cost times that sum; and the totals add
   * up to the sum of cost * qty over the costed rows.
   */
  lemma BrandFileSpec(rows: seq<BrandRow>)
    ensures forall i, j :: 0 <= i < j < |BrandFile(rows)| ==>
              KeyLt((BrandFile(rows)[i].sku, BrandFile(rows)[i].cost), (BrandFile(rows)[j].sku, BrandFile(rows)[j].cost))
    ensures (set i | 0 <= i < |BrandFile(rows)| :: (BrandFile(rows)[i].sku, BrandFile(rows)[i].cost)) == CostKeys(rows)
    ensures forall i :: 0 <= i < |BrandFile(rows)| ==>
              BrandFile(rows)[i].qty == QtyAt(rows, BrandFile(rows)[i].sku, BrandFile(rows)[i].cost) &&
              BrandFile(rows)[i].total == BrandFile(rows)[i].cost * BrandFile(rows)[i].qty
    ensures FileTotal(BrandFile(rows)) == CostedTotal(rows)
  {
    var g := GroupSum(CostRows(rows), KeyLt);
    var f := BrandFile(rows);
    KeyLtIsOrder();
    GroupSumSpec(CostRows(rows), KeyLt);
    GroupSumRows(CostRows(rows), KeyLt);
    GroupSumWeighted(CostRows(rows), KeyLt, Cost);
    CostRowsKeys(rows);
    CostRowsWeighted(rows);
    forall i | 0 <= i < |g| ensures SumFor(CostRows(rows), g[i].0) == QtyAt(rows, g[i].0.0, g[i].0.1) {
      CostRowsSums(rows, g[i].0.0, g[i].0.1);
    }
    assert (set i | 0 <= i < |f| :: (f[i].sku, f[i].cost)) == KeysOf(g) by {
      forall i | 0 <= i < |f| ensures (f[i].sku, f[i].cost) == g[i].0 {
      }
    }
    FileTotalWeighted(g);
  }

  /** Every line of a brand file is the `(sku, cost)` of a row that has that cost. */
  lemma FileRowSource(rows: seq<BrandRow>, f: BrandFileRow) returns (o: BrandRow)
    requires f in BrandFile(rows)
    ensures o in rows && o.sku == f.sku && o.cost == Some(f.cost)
  {
    BrandFileSpec(rows);
    var file := BrandFile(rows);
    var i :| 0 <= i < |file| && file[i] == f;
    assert (file[i].sku, file[i].cost) in CostKeys(rows);
    o :| o in rows && o.cost.Some? && (o.sku, o.cost.value) == (f.sku, f.cost);
  }

  /** Sum of the `total` column. */
  function FileTotal(f: seq<BrandFileRow>): int {
    if f == [] then 0 else f[0].total + FileTotal(f[1..])
  }

  lemma {:induction false} FileTotalWeighted(g: seq<((string, int), int)>)
    ensures FileTotal(seq(|g|, i requires 0 <= i < |g| => ToFileRow(g[i]))) == Weighted(g, Cost)
  {
    if g != [] {
      FileTotalWeighted(g[1..]);
      var f := seq(|g|, i requires 0 <= i < |g| => ToFileRow(g[i]));
      assert f[1..] == seq(|g[1..]|, i requires 0 <= i < |g[1..]| => ToFileRow(g[1..][i]));
    }
  }
}
