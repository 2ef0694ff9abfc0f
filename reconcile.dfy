// Retail totals per sku, their translation into canonical (stock) skus
// through the sku map, and the stock ledger update that subtracts the
// canonical sales from the current stock.

module Reconcile {
  import opened Records
  import opened Text
  import opened Grouping

  /** Python's string order is a strict total order. */
  lemma StrLtIsOrder()
    ensures StrictTotalOrder(StrLt)
  {
    forall a ensures !StrLt(a, a) {
      StrLtIrreflexive(a);
    }
    forall a, b, c | StrLt(a, b) && StrLt(b, c) ensures StrLt(a, c) {
      StrLtTransitive(a, b, c);
    }
    forall a, b | a != b ensures StrLt(a, b) || StrLt(b, a) {
      StrLtTotal(a, b);
    }
  }

  // ------------------------------------------------------------ retail totals

  /** The `(sku, qty)` columns of the cleaned sales, without the rows whose sku still contains "sku". */
  function RetailRows(sales: seq<SaleRecord>): seq<(string, int)> {
    if sales == [] then []
    else
      var r := sales[|sales| - 1];
      RetailRows(sales[..|sales| - 1]) + (if Contains(r.sku, "sku") then [] else [(r.sku, r.qty)])
  }

  /** The retail totals: qty summed per sku, skus ascending. */
  function RetailTotals(sales: seq<SaleRecord>): seq<(string, int)> {
    GroupSum(RetailRows(sales), StrLt)
  }

  /** Sum of the qty of the sales records carrying sku `k`. */
  function SkuQty(sales: seq<SaleRecord>, k: string): int {
    if sales == [] then 0
    else SkuQty(sales[..|sales| - 1], k) + (if sales[|sales| - 1].sku == k then sales[|sales| - 1].qty else 0)
  }

  /** The skus that survive the second "sku" filter. */
  function RetailSkus(sales: seq<SaleRecord>): set<string> {
    set r | r in sales && !Contains(r.sku, "sku") :: r.sku
  }

  lemma {:induction false} RetailRowsAppend(a: seq<SaleRecord>, b: seq<SaleRecord>)
    ensures RetailRows(a + b) == RetailRows(a) + RetailRows(b)
  {
    if b == [] {
      assert a + b == a;
    } else {
      var n := |b| - 1;
      assert (a + b)[..|a + b| - 1] == a + b[..n];
      RetailRowsAppend(a, b[..n]);
    }
  }

  lemma {:induction false} RetailRowsFacts(sales: seq<SaleRecord>)
    ensures KeysOf(RetailRows(sales)) == RetailSkus(sales)
    ensures forall k :: SumFor(RetailRows(sales), k) == if Contains(k, "sku") then 0 else SkuQty(sales, k)
    ensures (forall r :: r in sales ==> !Contains(r.sku, "sku")) ==> Total(RetailRows(sales)) == TotalQty(sales)
  {
    if sales != [] {
      var n := |sales| - 1;
      var pre, r := sales[..n], sales[n];
      RetailRowsFacts(pre);
      assert sales == pre + [r];
      var tail := if Contains(r.sku, "sku") then [] else [(r.sku, r.qty)];
      assert RetailRows(sales) == RetailRows(pre) + tail;
      if tail == [] {
        assert RetailRows(pre) + tail == RetailRows(pre);
      } else {
        KeysOfSnoc(RetailRows(pre), (r.sku, r.qty));
        TotalAppend(RetailRows(pre), tail);
      }
      forall k ensures SumFor(RetailRows(sales), k) == if Contains(k, "sku") then 0 else SkuQty(sales, k) {
        SumForAppend(RetailRows(pre), tail, k);
        assert tail == [] || tail[..0] == [];
      }
    }
  }

  /**
   * The retail totals hold one row per sku left after the second filter, in
   * strictly ascending sku order; a sku's total is the sum of its sales
   * quantities (0 for a sku containing "sku"); no key contains "sku"; and
   * when no record carries such a sku the grand total is conserved.
   */
  lemma RetailTotalsSpec(sales: seq<SaleRecord>)
    ensures StrictlySorted(RetailTotals(sales), StrLt)
    ensures KeysOf(RetailTotals(sales)) == RetailSkus(sales)
    ensures forall k :: Lookup(RetailTotals(sales), k) == if Contains(k, "sku") then 0 else SkuQty(sales, k)
    ensures forall i :: 0 <= i < |RetailTotals(sales)| ==> !Contains(RetailTotals(sales)[i].0, "sku")
    ensures (forall r :: r in sales ==> !Contains(r.sku, "sku")) ==> Total(RetailTotals(sales)) == TotalQty(sales)
  {
    StrLtIsOrder();
    GroupSumSpec(RetailRows(sales), StrLt);
    RetailRowsFacts(sales);
    var g := RetailTotals(sales);
    forall i | 0 <= i < |g| ensures !Contains(g[i].0, "sku") {
      assert g[i].0 in KeysOf(g);
    }
  }

  /** The retail totals do not depend on the order in which the source tables are concatenated. */
  lemma RetailTotalsCommute(a: seq<SaleRecord>, b: seq<SaleRecord>)
    ensures RetailTotals(a + b) == RetailTotals(b + a)
  {
    StrLtIsOrder();
    RetailRowsAppend(a, b);
    RetailRowsAppend(b, a);
    GroupSumConcatCommutes(RetailRows(a), RetailRows(b), StrLt);
  }

  // -------------------------------------------------------- canonical mapping

  /** A row of the sku map: a retail sku part, the canonical sku it belongs to, and how many parts one sale of it counts for. */
  datatype SkuMapping = SkuMapping(skuPart: string, skuName: string, multiplier: int)

  /**
   * The right join of the totals onto the map, with `result = qty *
   * multiplier`. The totals come out of a group-by, so each part matches at
   * most one total row: every map row gives exactly one row, carrying its
   * multiplier times the total of its part, and a map row with no match gives
   * NaN, which the later sum skips, i.e. 0.
   */
  function Contributions(sold: seq<(string, int)>, mapping: seq<SkuMapping>): seq<(string, int)> {
    if mapping == [] then []
    else
      var m := mapping[|mapping| - 1];
      Contributions(sold, mapping[..|mapping| - 1]) + [(m.skuName, m.multiplier * SumFor(sold, m.skuPart))]
  }

  /** The canonical sales: `result` summed per `sku_name`, names ascending. */
  function CanonicalSales(sold: seq<(string, int)>, mapping: seq<SkuMapping>): seq<(string, int)> {
    GroupSum(Contributions(sold, mapping), StrLt)
  }

  /**
   * The canonical quantity of `name` as the sku map defines it: over the map
   * rows of that name, the multiplier times the retail total of the part
   * (0 when the part was not sold).
   */
  function MappedQty(sold: seq<(string, int)>, mapping: seq<SkuMapping>, name: string): int {
    if mapping == [] then 0
    else
      var m := mapping[|mapping| - 1];
      MappedQty(sold, mapping[..|mapping| - 1], name) + (if m.skuName == name then m.multiplier * Lookup(sold, m.skuPart) else 0)
  }

  function MapNames(mapping: seq<SkuMapping>): set<string> {
    set m | m in mapping :: m.skuName
  }

  lemma {:induction false} ContributionsFacts(sold: seq<(string, int)>, mapping: seq<SkuMapping>)
    requires StrictlySorted(sold, StrLt)
    ensures KeysOf(Contributions(sold, mapping)) == MapNames(mapping)
    ensures forall name :: SumFor(Contributions(sold, mapping), name) == MappedQty(sold, mapping, name)
  {
    if mapping != [] {
      var n := |mapping| - 1;
      var pre, m := mapping[..n], mapping[n];
      ContributionsFacts(sold, pre);
      assert mapping == pre + [m];
      var c := (m.skuName, m.multiplier * SumFor(sold, m.skuPart));
      KeysOfSnoc(Contributions(sold, pre), c);
      StrLtIsOrder();
      SortedLookupIsSum(sold, StrLt, m.skuPart);
    }
  }

  /**
   * The canonical sales hold exactly one row per distinct `sku_name` of the
   * map, names strictly ascending, and each name's quantity is the sum over
   * its map rows of multiplier times the retail total of the part (0 when
   * unsold).
   */
  lemma CanonicalSalesSpec(sold: seq<(string, int)>, mapping: seq<SkuMapping>)
    requires StrictlySorted(sold, StrLt)
    ensures StrictlySorted(CanonicalSales(sold, mapping), StrLt)
    ensures KeysOf(CanonicalSales(sold, mapping)) == MapNames(mapping)
    ensures forall name :: Lookup(CanonicalSales(sold, mapping), name) == MappedQty(sold, mapping, name)
  {
    StrLtIsOrder();
    GroupSumSpec(Contributions(sold, mapping), StrLt);
    ContributionsFacts(sold, mapping);
  }

  lemma {:induction false} ContributionsAgree(sold1: seq<(string, int)>, sold2: seq<(string, int)>, mapping: seq<SkuMapping>)
    requires forall m :: m in mapping ==> SumFor(sold1, m.skuPart) == SumFor(sold2, m.skuPart)
    ensures Contributions(sold1, mapping) == Contributions(sold2, mapping)
  {
    if mapping != [] {
      var n := |mapping| - 1;
      assert mapping[n] in mapping;
      ContributionsAgree(sold1, sold2, mapping[..n]);
    }
  }

  /** Sales of a retail sku that no map row names as a part do not change the canonical sales. */
  lemma UnmappedSaleIgnored(sales: seq<SaleRecord>, r: SaleRecord, mapping: seq<SkuMapping>)
    requires forall m :: m in mapping ==> m.skuPart != r.sku
    ensures CanonicalSales(RetailTotals(sales + [r]), mapping) == CanonicalSales(RetailTotals(sales), mapping)
  {
    RetailRowsFacts(sales + [r]);
    RetailRowsFacts(sales);
    StrLtIsOrder();
    forall m | m in mapping ensures SumFor(RetailTotals(sales + [r]), m.skuPart) == SumFor(RetailTotals(sales), m.skuPart) {
      GroupSumSpec(RetailRows(sales + [r]), StrLt);
      GroupSumSpec(RetailRows(sales), StrLt);
      SortedLookupIsSum(RetailTotals(sales + [r]), StrLt, m.skuPart);
      SortedLookupIsSum(RetailTotals(sales), StrLt, m.skuPart);
      assert (sales + [r])[..|sales|] == sales;
    }
    ContributionsAgree(RetailTotals(sales + [r]), RetailTotals(sales), mapping);
  }

  /**
   * The multiplier applies per map row before the per-name sum: three parts
   * of one set, with multipliers 1, 2 and 3, two of them sold (3 and 2), give
   * 1 * 3 + 2 * 2 + 3 * 0 = 7 sets.
   */
  lemma MultiplierBeforeGrouping()
    ensures Lookup(CanonicalSales([("a", 3), ("b", 2)],
                                  [SkuMapping("a", "SET", 1), SkuMapping("b", "SET", 2), SkuMapping("c", "SET", 3)]), "SET") == 7
  {
    var sold := [("a", 3), ("b", 2)];
    var mapping := [SkuMapping("a", "SET", 1), SkuMapping("b", "SET", 2), SkuMapping("c", "SET", 3)];
    assert StrLt("a", "b");
    CanonicalSalesSpec(sold, mapping);
    assert mapping[..2][..1] == [mapping[0]] && mapping[..2] == [mapping[0], mapping[1]];
    assert mapping[..2][..1][..0] == [];
    assert Lookup(sold, "a") == 3 && Lookup(sold, "b") == 2 && Lookup(sold, "c") == 0;
    assert MappedQty(sold, mapping[..2][..1], "SET") == 3;
    assert MappedQty(sold, mapping[..2], "SET") == 7;
  }

  // ------------------------------------------------------------ stock ledger

  /** A row of the stock file, columns `sku, qty, subcategory, color, brand`. */
  datatype StockEntry = StockEntry(sku: string, qty: int, subcategory: string, color: string, brand: string)

  /** The values of the rows of `g` with key `k`, in table order. */
  function Matches(k: string, g: seq<(string, int)>): seq<int> {
    if g == [] then []
    else Matches(k, g[..|g| - 1]) + (if g[|g| - 1].0 == k then [g[|g| - 1].1] else [])
  }

  /**
   * The left join of one stock row onto the canonical sales, with
   * `new_qty = qty - sold`: a row per matching sale, or the row itself when
   * nothing matched (the sold quantity is filled with 0).
   */
  function JoinRow(e: StockEntry, sold: seq<(string, int)>): seq<StockEntry> {
    var ms := Matches(e.sku, sold);
    if ms == [] then [e]
    else seq(|ms|, j requires 0 <= j < |ms| => e.(qty := e.qty - ms[j]))
  }

  /** The new stock table. */
  function ApplySales(stock: seq<StockEntry>, sold: seq<(string, int)>): seq<StockEntry> {
    if stock == [] then []
    else ApplySales(stock[..|stock| - 1], sold) + JoinRow(stock[|stock| - 1], sold)
  }

  /** In a strictly sorted table the last key does not occur earlier. */
  lemma LastNotBefore(g: seq<(string, int)>)
    requires StrictlySorted(g, StrLt) && g != []
    ensures g[|g| - 1].0 !in KeysOf(g[..|g| - 1])
  {
    var n := |g| - 1;
    forall x | x in KeysOf(g[..n]) ensures x != g[n].0 {
      var i :| 0 <= i < n && g[..n][i].0 == x;
      assert StrLt(g[i].0, g[n].0);
      StrLtIrreflexive(x);
    }
  }

  /** In a strictly sorted table a key has one match, carrying its total, or none. */
  lemma {:induction false} MatchesSorted(k: string, g: seq<(string, int)>)
    requires StrictlySorted(g, StrLt)
    ensures Matches(k, g) == if k in KeysOf(g) then [SumFor(g, k)] else []
  {
    if g != [] {
      var n := |g| - 1;
      var pre := g[..n];
      assert StrictlySorted(pre, StrLt);
      MatchesSorted(k, pre);
      assert g == pre + [g[n]];
      KeysOfSnoc(pre, g[n]);
      if g[n].0 == k {
        LastNotBefore(g);
        SumForAbsent(pre, k);
      }
    }
  }

  /** In a strictly sorted table a key matches once, with its looked-up value, or not at all and looks up 0. */
  lemma MatchesLookup(k: string, g: seq<(string, int)>)
    requires StrictlySorted(g, StrLt)
    ensures Matches(k, g) == [] || Matches(k, g) == [Lookup(g, k)]
    ensures Matches(k, g) == [] ==> Lookup(g, k) == 0
  {
    MatchesSorted(k, g);
    StrLtIsOrder();
    SortedLookupIsSum(g, StrLt, k);
    if k !in KeysOf(g) {
      LookupAbsent(g, k);
    }
  }

  /** Against a table with one row per sku, a stock row joins to exactly one row, its qty reduced by the sku's total. */
  lemma JoinRowSorted(e: StockEntry, sold: seq<(string, int)>)
    requires StrictlySorted(sold, StrLt)
    ensures JoinRow(e, sold) == [e.(qty := e.qty - Lookup(sold, e.sku))]
  {
    var ms := Matches(e.sku, sold);
    MatchesLookup(e.sku, sold);
    if ms != [] {
      assert |ms| == 1 && ms[0] == Lookup(sold, e.sku);
    }
  }

  /**
   * Against canonical sales with one row per sku, the new stock has exactly
   * the rows of the old stock, in the same order, each with its qty reduced by
   * the canonical sold qty of its sku (0 when none) and every other column
   * unchanged; a sold sku that is not in stock adds no row.
   */
  lemma {:induction false} StockUpdateSpec(stock: seq<StockEntry>, sold: seq<(string, int)>)
    requires StrictlySorted(sold, StrLt)
    ensures |ApplySales(stock, sold)| == |stock|
    ensures forall i :: 0 <= i < |stock| ==>
              ApplySales(stock, sold)[i] == stock[i].(qty := stock[i].qty - Lookup(sold, stock[i].sku))
  {
    if stock != [] {
      var n := |stock| - 1;
      var pre := stock[..n];
      StockUpdateSpec(pre, sold);
      JoinRowSorted(stock[n], sold);
      var out := ApplySales(stock, sold);
      assert out == ApplySales(pre, sold) + [stock[n].(qty := stock[n].qty - Lookup(sold, stock[n].sku))];
      forall i | 0 <= i < |stock| ensures out[i] == stock[i].(qty := stock[i].qty - Lookup(sold, stock[i].sku)) {
        if i < n {
          assert out[i] == ApplySales(pre, sold)[i];
          assert pre[i] == stock[i];
        }
      }
    }
  }

  /** With no sales every row keeps its qty. */
  lemma {:induction false} NoSalesKeepsStock(stock: seq<StockEntry>)
    ensures ApplySales(stock, []) == stock
  {
    if stock != [] {
      NoSalesKeepsStock(stock[..|stock| - 1]);
      assert stock == stock[..|stock| - 1] + [stock[|stock| - 1]];
    }
  }

  /**
   * Whatever the sales table, every new stock row is an old stock row with
   * only its qty changed, and there are at least as many rows as before.
   */
  lemma {:induction false} StockRowsFromStock(stock: seq<StockEntry>, sold: seq<(string, int)>)
    ensures |ApplySales(stock, sold)| >= |stock|
    ensures forall o :: o in ApplySales(stock, sold) ==> exists e :: e in stock && o == e.(qty := o.qty)
  {
    if stock != [] {
      var n := |stock| - 1;
      var e := stock[n];
      StockRowsFromStock(stock[..n], sold);
      forall o | o in ApplySales(stock, sold) ensures exists e :: e in stock && o == e.(qty := o.qty) {
        if o in ApplySales(stock[..n], sold) {
          var e' :| e' in stock[..n] && o == e'.(qty := o.qty);
          assert e' in stock;
        } else {
          assert o in JoinRow(e, sold);
          assert o == e.(qty := o.qty);
        }
      }
    }
  }

  /** No old stock row is lost: each is still there with only its qty possibly changed. */
  lemma {:induction false} StockRowsKept(stock: seq<StockEntry>, sold: seq<(string, int)>)
    ensures forall e :: e in stock ==> exists o :: o in ApplySales(stock, sold) && o == e.(qty := o.qty)
  {
    if stock != [] {
      var n := |stock| - 1;
      var pre := stock[..n];
      StockRowsKept(pre, sold);
      var last := JoinRow(stock[n], sold);
      assert ApplySales(stock, sold) == ApplySales(pre, sold) + last;
      assert last[0] in last;
      forall e | e in stock ensures exists o :: o in ApplySales(stock, sold) && o == e.(qty := o.qty) {
        if e == stock[n] {
          assert last[0] in ApplySales(stock, sold) && last[0] == e.(qty := last[0].qty);
        } else {
          assert e in pre by {
            assert stock == pre + [stock[n]];
          }
          var o :| o in ApplySales(pre, sold) && o == e.(qty := o.qty);
          assert o in ApplySales(stock, sold);
        }
      }
    }
  }
}
