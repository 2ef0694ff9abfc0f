// The module-level run: the source tables are concatenated into one sales
// table, cleaned, totalled per retail sku, translated into canonical skus and
// subtracted from the stock; the brand reports are cut from the same cleaned
// table.

module Pipeline {
  import opened Records
  import opened Grouping
  import Text
  import Clean
  import Reconcile
  import Brands

  /**
   * The per-source tables: the flat-file exports (HSN, Rue La La & Gilt,
   * Amazon, the Walmart export, Touch of Modern, Macy's) and the API
   * extractions (Walmart, Houzz, Faire, Brand1, DSCO, Mirakl, Wayfair).
   */
  datatype SourceTables = SourceTables(
    hsn: seq<SaleRecord>, rue: seq<SaleRecord>, amazon: seq<SaleRecord>, walmartFile: seq<SaleRecord>,
    tom: seq<SaleRecord>, macys: seq<SaleRecord>, walmartApi: seq<SaleRecord>, houzz: seq<SaleRecord>,
    faire: seq<SaleRecord>, brand1: seq<SaleRecord>, dsco: seq<SaleRecord>, mirakl: seq<SaleRecord>,
    wayfair: seq<SaleRecord>)

  /**
   * The concatenation as the script runs it: `walmart_data` names the Walmart
   * export until the main block rebinds it to the API result, so both of its
   * places in the list hold the API table.
   */
  function SalesAsWritten(t: SourceTables): seq<SaleRecord> {
    t.hsn + t.rue + t.amazon + t.walmartApi + t.tom + t.macys + t.walmartApi +
    t.houzz + t.faire + t.brand1 + t.dsco + t.mirakl + t.wayfair
  }

  /** The concatenation with each source once: the Walmart export, then the Walmart API table. */
  function CombinedSales(t: SourceTables): seq<SaleRecord> {
    t.hsn + t.rue + t.amazon + t.walmartFile + t.tom + t.macys + t.walmartApi +
    t.houzz + t.faire + t.brand1 + t.dsco + t.mirakl + t.wayfair
  }

  function SourceQty(t: SourceTables): int {
    TotalQty(t.hsn) + TotalQty(t.rue) + TotalQty(t.amazon) + TotalQty(t.walmartFile) + TotalQty(t.tom) +
    TotalQty(t.macys) + TotalQty(t.walmartApi) + TotalQty(t.houzz) + TotalQty(t.faire) + TotalQty(t.brand1) +
    TotalQty(t.dsco) + TotalQty(t.mirakl) + TotalQty(t.wayfair)
  }

  /** The combined table holds every source row once: its qty total is the sum of the sources' totals. */
  lemma CombinedSalesConserves(t: SourceTables)
    ensures TotalQty(CombinedSales(t)) == SourceQty(t)
    ensures |CombinedSales(t)| == |t.hsn| + |t.rue| + |t.amazon| + |t.walmartFile| + |t.tom| + |t.macys| +
              |t.walmartApi| + |t.houzz| + |t.faire| + |t.brand1| + |t.dsco| + |t.mirakl| + |t.wayfair|
  {
    var s1 := t.hsn + t.rue;
    var s2 := s1 + t.amazon;
    var s3 := s2 + t.walmartFile;
    var s4 := s3 + t.tom;
    var s5 := s4 + t.macys;
    var s6 := s5 + t.walmartApi;
    var s7 := s6 + t.houzz;
    var s8 := s7 + t.faire;
    var s9 := s8 + t.brand1;
    var s10 := s9 + t.dsco;
    var s11 := s10 + t.mirakl;
    TotalQtyAppend(t.hsn, t.rue);
    TotalQtyAppend(s1, t.amazon);
    TotalQtyAppend(s2, t.walmartFile);
    TotalQtyAppend(s3, t.tom);
    TotalQtyAppend(s4, t.macys);
    TotalQtyAppend(s5, t.walmartApi);
    TotalQtyAppend(s6, t.houzz);
    TotalQtyAppend(s7, t.faire);
    TotalQtyAppend(s8, t.brand1);
    TotalQtyAppend(s9, t.dsco);
    TotalQtyAppend(s10, t.mirakl);
    TotalQtyAppend(s11, t.wayfair);
  }

  /**
   * As written, the Walmart API quantities are counted twice and the Walmart
   * export's are lost.
   */
  lemma WalmartApiCountedTwice(t: SourceTables)
    ensures TotalQty(SalesAsWritten(t)) == SourceQty(t) - TotalQty(t.walmartFile) + TotalQty(t.walmartApi)
  {
    var u := t.(walmartFile := t.walmartApi);
    assert SalesAsWritten(t) == CombinedSales(u);
    CombinedSalesConserves(u);
  }

  /** One export sale and one API sale: as written the export sale is gone and the API sale appears twice. */
  lemma WalmartTwiceExample()
    ensures var t := SourceTables([], [], [], [SaleRecord("w1", 1, "Walmart")], [], [], [SaleRecord("w2", 2, "walmart")],
                                  [], [], [], [], [], []);
            SalesAsWritten(t) == [SaleRecord("w2", 2, "walmart"), SaleRecord("w2", 2, "walmart")] &&
            CombinedSales(t) == [SaleRecord("w1", 1, "Walmart"), SaleRecord("w2", 2, "walmart")]
  {
  }

  /** The cleaned sales of the combined table. */
  function CleanedSales(t: SourceTables): seq<SaleRecord> {
    Clean.CleanSales(CombinedSales(t))
  }

  /** The stock after the run on a concatenated sales table: cleaned, totalled, mapped and subtracted. */
  function StockAfter(stock: seq<Reconcile.StockEntry>, sales: seq<SaleRecord>, mapping: seq<Reconcile.SkuMapping>): seq<Reconcile.StockEntry> {
    var retail := Reconcile.RetailTotals(Clean.CleanSales(sales));
    Reconcile.ApplySales(stock, Reconcile.CanonicalSales(retail, mapping))
  }

  /** The stock after the run as the script computes it, from the concatenation as written. */
  function NewStockAsWritten(stock: seq<Reconcile.StockEntry>, t: SourceTables, mapping: seq<Reconcile.SkuMapping>): seq<Reconcile.StockEntry> {
    StockAfter(stock, SalesAsWritten(t), mapping)
  }

  /** The stock after the run from the corrected concatenation, each source once. */
  function NewStock(stock: seq<Reconcile.StockEntry>, t: SourceTables, mapping: seq<Reconcile.SkuMapping>): seq<Reconcile.StockEntry> {
    StockAfter(stock, CombinedSales(t), mapping)
  }

  /**
   * Whatever the concatenated table, the new stock keeps the stock's rows in
   * order; each row's qty drops by the canonical quantity of its sku as the
   * sku map defines it from the retail totals of the cleaned sales.
   */
  lemma StockAfterSpec(stock: seq<Reconcile.StockEntry>, sales: seq<SaleRecord>, mapping: seq<Reconcile.SkuMapping>)
    ensures |StockAfter(stock, sales, mapping)| == |stock|
    ensures forall i :: 0 <= i < |stock| ==>
              StockAfter(stock, sales, mapping)[i] ==
              stock[i].(qty := stock[i].qty - Reconcile.MappedQty(Reconcile.RetailTotals(Clean.CleanSales(sales)), mapping, stock[i].sku))
  {
    var retail := Reconcile.RetailTotals(Clean.CleanSales(sales));
    Reconcile.RetailTotalsSpec(Clean.CleanSales(sales));
    Reconcile.CanonicalSalesSpec(retail, mapping);
    Reconcile.StockUpdateSpec(stock, Reconcile.CanonicalSales(retail, mapping));
  }

  /** The cleaned table enriched from the sales map, as the brand reports use it. */
  function BrandSales(t: SourceTables, salesMap: seq<Brands.SalesMapRow>): seq<Brands.BrandRow> {
    Brands.Enrich(CleanedSales(t), salesMap)
  }

  /** The Brand1 report. */
  function Brand1File(t: SourceTables, salesMap: seq<Brands.SalesMapRow>): seq<Brands.BrandFileRow> {
    Brands.BrandFile(Brands.Brand1Sales(BrandSales(t, salesMap)))
  }

  /** The brand2/brand3 report. */
  function Brand2File(t: SourceTables, salesMap: seq<Brands.SalesMapRow>): seq<Brands.BrandFileRow> {
    Brands.BrandFile(Brands.Brand2Sales(BrandSales(t, salesMap)))
  }

  /**
   * With a sales map whose stripped skus are distinct, each sku has one
   * brand, so no sku appears in both brand reports.
   */
  lemma BrandFilesDisjoint(t: SourceTables, salesMap: seq<Brands.SalesMapRow>)
    requires Brands.DistinctMapSkus(salesMap)
    ensures forall f1, f2 :: f1 in Brand1File(t, salesMap) && f2 in Brand2File(t, salesMap) ==> f1.sku != f2.sku
  {
    var rows := BrandSales(t, salesMap);
    forall f1, f2 | f1 in Brand1File(t, salesMap) && f2 in Brand2File(t, salesMap) ensures f1.sku != f2.sku {
      var o1 := Brands.FileRowSource(Brands.Brand1Sales(rows), f1);
      var o2 := Brands.FileRowSource(Brands.Brand2Sales(rows), f2);
      Brands.BrandSplitSpec(rows);
      assert multiset(Brands.Brand1Sales(rows))[o1] > 0;
      assert multiset(Brands.Brand2Sales(rows))[o2] > 0;
      Brands.SkuDeterminesBrand(CleanedSales(t), salesMap, o1, o2);
    }
  }

  // ------------------------------------------------------------- scenarios

  /** The upper-case retail sku `AB` is cleaned to `ab`. */
  lemma CleanUpperAb()
    ensures Clean.CleanSales([SaleRecord("AB", 3, "shop")]) == [SaleRecord("ab", 3, "shop")]
  {
    Clean.NotContainsFirst("AB", "sku");
    Clean.NotContainsFirst("AB", "Item SKU");
    Clean.NotContainsFirst("AB", "other");
    var l := Text.Lower("AB");
    assert l == "ab" by {
      assert |l| == 2 && l[0] == 'a' && l[1] == 'b';
    }
    assert Text.Strip("ab") == "ab" by {
      assert Text.LeadingSpace("ab") == 0 && Text.TrailingSpace("ab") == 0;
      assert "ab"[0..] == "ab";
    }
    Text.LowerSpec("shop");
    Clean.CleanSingle(SaleRecord("AB", 3, "shop"));
  }

  /** The padded retail sku ` ab` is cleaned to `ab`. */
  lemma CleanPaddedAb()
    ensures Clean.CleanSales([SaleRecord(" ab", 2, "shop")]) == [SaleRecord("ab", 2, "shop")]
  {
    Clean.NotContainsFirst(" ab", "sku");
    Clean.NotContainsFirst(" ab", "Item SKU");
    Clean.NotContainsFirst(" ab", "other");
    NormalizePaddedAb();
    Clean.CleanSingle(SaleRecord(" ab", 2, "shop"));
  }

  lemma NormalizePaddedAb()
    ensures Clean.Normalize(SaleRecord(" ab", 2, "shop")) == SaleRecord("ab", 2, "shop")
  {
    Text.LowerSpec(" ab");
    Text.LowerSpec("shop");
    StripPaddedAb();
  }

  lemma StripPaddedAb()
    ensures Text.Strip(" ab") == "ab"
  {
    assert Text.LeadingSpace(" ab") == 1 by {
      assert " ab"[1..] == "ab";
    }
    assert Text.TrailingSpace("ab") == 0;
    assert " ab"[1..] == "ab" && "ab"[..2] == "ab";
  }

  /** When every sale is of sku `ab`, the retail total of `ab` is the sum of all quantities. */
  lemma {:induction false} RetailAllAb(sales: seq<SaleRecord>)
    ensures (forall r :: r in sales ==> r.sku == "ab") ==> Lookup(Reconcile.RetailTotals(sales), "ab") == TotalQty(sales)
  {
    Clean.NotContainsFirst("ab", "sku");
    Reconcile.RetailTotalsSpec(sales);
    if forall r :: r in sales ==> r.sku == "ab" {
      SkuQtyAll(sales, "ab");
    }
  }

  /** When every sale carries sku `k`, the qty of `k` is the whole qty. */
  lemma {:induction false} SkuQtyAll(sales: seq<SaleRecord>, k: string)
    requires forall r :: r in sales ==> r.sku == k
    ensures Reconcile.SkuQty(sales, k) == TotalQty(sales)
  {
    if sales != [] {
      var n := |sales| - 1;
      assert sales[n] in sales;
      assert forall r :: r in sales[..n] ==> r in sales;
      SkuQtyAll(sales[..n], k);
    }
  }

  /** One stock row of `canon_a` and a map counting each `ab` as 2 of `canon_a`: the stock drops by twice the `ab` total. */
  lemma StockOfAb(sales: seq<SaleRecord>)
    ensures StockAfter([CANON_A_STOCK], sales, [AB_MAPPING]) ==
            [CANON_A_STOCK.(qty := 50 - 2 * Lookup(Reconcile.RetailTotals(Clean.CleanSales(sales)), "ab"))]
  {
    var retail := Reconcile.RetailTotals(Clean.CleanSales(sales));
    MappedAb(retail);
    StockAfterSpec([CANON_A_STOCK], sales, [AB_MAPPING]);
    var out := StockAfter([CANON_A_STOCK], sales, [AB_MAPPING]);
    assert |out| == 1 && out[0] == CANON_A_STOCK.(qty := 50 - 2 * Lookup(retail, "ab"));
  }

  lemma MappedAb(retail: seq<(string, int)>)
    ensures Reconcile.MappedQty(retail, [AB_MAPPING], "canon_a") == 2 * Lookup(retail, "ab")
  {
    assert [AB_MAPPING][..0] == [];
  }

  /** Stock of 50 `canon_a`, and a map row counting each retail `ab` as 2 `canon_a`. */
  const CANON_A_STOCK := Reconcile.StockEntry("canon_a", 50, "rug", "red", "Brand1")
  const AB_MAPPING := Reconcile.SkuMapping("ab", "canon_a", 2)

  /** A sale of 3 under the upper-case sku `AB` and a sale of 2 under the padded sku ` ab`. */
  const UPPER_AB := SaleRecord("AB", 3, "shop")
  const PADDED_AB := SaleRecord(" ab", 2, "shop")

  lemma CleanScenarioSales()
    ensures Clean.CleanSales([UPPER_AB, PADDED_AB]) == [SaleRecord("ab", 3, "shop"), SaleRecord("ab", 2, "shop")]
    ensures Clean.CleanSales([UPPER_AB, UPPER_AB, PADDED_AB]) ==
              [SaleRecord("ab", 3, "shop"), SaleRecord("ab", 3, "shop"), SaleRecord("ab", 2, "shop")]
  {
    CleanUpperAb();
    CleanPaddedAb();
    Clean.CleanAppend([UPPER_AB], [PADDED_AB]);
    assert [UPPER_AB] + [PADDED_AB] == [UPPER_AB, PADDED_AB];
    Clean.CleanAppend([UPPER_AB], [UPPER_AB]);
    Clean.CleanAppend([UPPER_AB, UPPER_AB], [PADDED_AB]);
    assert [UPPER_AB] + [UPPER_AB] == [UPPER_AB, UPPER_AB];
    assert [UPPER_AB, UPPER_AB] + [PADDED_AB] == [UPPER_AB, UPPER_AB, PADDED_AB];
  }

  lemma ScenarioRetail()
    ensures Lookup(Reconcile.RetailTotals(Clean.CleanSales([UPPER_AB, PADDED_AB])), "ab") == 5
  {
    var c1, c2 := SaleRecord("ab", 3, "shop"), SaleRecord("ab", 2, "shop");
    CleanScenarioSales();
    RetailAllAb([c1, c2]);
    assert TotalQty([c1]) == 3 by {
      assert [c1][..0] == [];
    }
    assert TotalQty([c1, c2]) == 5 by {
      assert [c1, c2][..1] == [c1];
    }
  }

  lemma ScenarioRetailAsWritten()
    ensures Lookup(Reconcile.RetailTotals(Clean.CleanSales([UPPER_AB, UPPER_AB, PADDED_AB])), "ab") == 8
  {
    var c1, c2 := SaleRecord("ab", 3, "shop"), SaleRecord("ab", 2, "shop");
    CleanScenarioSales();
    RetailAllAb([c1, c1, c2]);
    assert TotalQty([c1]) == 3 by {
      assert [c1][..0] == [];
    }
    assert TotalQty([c1, c1]) == 6 by {
      assert [c1, c1][..1] == [c1];
    }
    assert TotalQty([c1, c1, c2]) == 8 by {
      assert [c1, c1, c2][..2] == [c1, c1];
    }
  }

  /**
   * Sales of `AB` (3, from Houzz) and ` ab` (2, from DSCO), a map row counting
   * each `ab` as 2 of `canon_a`, and 50 `canon_a` in stock: the upper-case
   * and padded skus are cleaned to the map's `ab`, 10 `canon_a` are sold and
   * 40 remain, as written and as corrected alike.
   */
  lemma EndToEndScenario()
    ensures var t := SourceTables([], [], [], [], [], [], [], [UPPER_AB], [], [], [PADDED_AB], [], []);
            NewStock([CANON_A_STOCK], t, [AB_MAPPING]) == NewStockAsWritten([CANON_A_STOCK], t, [AB_MAPPING]) ==
            [Reconcile.StockEntry("canon_a", 40, "rug", "red", "Brand1")]
  {
    var t := SourceTables([], [], [], [], [], [], [], [UPPER_AB], [], [], [PADDED_AB], [], []);
    assert CombinedSales(t) == [UPPER_AB, PADDED_AB];
    assert SalesAsWritten(t) == [UPPER_AB, PADDED_AB];
    ScenarioRetail();
    StockOfAb([UPPER_AB, PADDED_AB]);
  }

  /**
   * The same sales with the `AB` sale in the Walmart API table: the script as
   * written counts it twice, so 16 `canon_a` are subtracted and 34 remain,
   * where the corrected concatenation leaves 40.
   */
  lemma WalmartDoubleCountScenario()
    ensures var t := SourceTables([], [], [], [], [], [], [UPPER_AB], [], [], [], [PADDED_AB], [], []);
            NewStockAsWritten([CANON_A_STOCK], t, [AB_MAPPING]) == [Reconcile.StockEntry("canon_a", 34, "rug", "red", "Brand1")] &&
            NewStock([CANON_A_STOCK], t, [AB_MAPPING]) == [Reconcile.StockEntry("canon_a", 40, "rug", "red", "Brand1")]
  {
    var t := SourceTables([], [], [], [], [], [], [UPPER_AB], [], [], [], [PADDED_AB], [], []);
    assert CombinedSales(t) == [UPPER_AB, PADDED_AB];
    assert SalesAsWritten(t) == [UPPER_AB, UPPER_AB, PADDED_AB];
    ScenarioRetail();
    ScenarioRetailAsWritten();
    StockOfAb([UPPER_AB, PADDED_AB]);
    StockOfAb([UPPER_AB, UPPER_AB, PADDED_AB]);
  }
}
