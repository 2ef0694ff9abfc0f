// The cleaning stage applied to the concatenated sales table: drop the rows
// whose sku contains one of the sentinel substrings (header rows repeated in
// exports, and the placeholder of a missing export), lower-case every field
// and strip the sku.

module Clean {
  import opened Records
  import opened Text
  import Extract

  /** The sentinel substrings, tested case-sensitively on the raw sku. */
  predicate IsSentinel(sku: string) {
    Contains(sku, "sku") || Contains(sku, "Item SKU") || Contains(sku, "other")
  }

  /** A surviving record: every field lower-cased, the sku also stripped. */
  function Normalize(r: SaleRecord): SaleRecord {
    SaleRecord(Strip(Lower(r.sku)), r.qty, Lower(r.site))
  }

  /** The three sentinel filters, the lower-casing and the strip, in table order. */
  function CleanSales(sales: seq<SaleRecord>): seq<SaleRecord> {
    if sales == [] then []
    else
      var r := sales[|sales| - 1];
      CleanSales(sales[..|sales| - 1]) + (if IsSentinel(r.sku) then [] else [Normalize(r)])
  }

  lemma {:induction false} CleanAppend(a: seq<SaleRecord>, b: seq<SaleRecord>)
    ensures CleanSales(a + b) == CleanSales(a) + CleanSales(b)
  {
    if b == [] {
      assert a + b == a;
    } else {
      var n := |b| - 1;
      assert (a + b)[..|a + b| - 1] == a + b[..n];
      CleanAppend(a, b[..n]);
    }
  }

  /**
   * A cleaned record is exactly the normalisation of an input record whose
   * raw sku holds none of the sentinels; no row is added.
   */
  lemma {:induction false} CleanMember(sales: seq<SaleRecord>, r: SaleRecord)
    ensures r in CleanSales(sales) <==> exists s :: s in sales && !IsSentinel(s.sku) && r == Normalize(s)
    ensures |CleanSales(sales)| <= |sales|
  {
    if sales != [] {
      var n := |sales| - 1;
      CleanMember(sales[..n], r);
      assert sales == sales[..n] + [sales[n]];
      if exists s :: s in sales && !IsSentinel(s.sku) && r == Normalize(s) {
        var s :| s in sales && !IsSentinel(s.sku) && r == Normalize(s);
        if s != sales[n] {
          assert s in sales[..n];
        }
      }
    }
  }

  /** Every cleaned sku and site has no upper-case letter, and every sku is stripped. */
  lemma CleanNormalized(sales: seq<SaleRecord>)
    ensures forall r :: r in CleanSales(sales) ==> NoUpper(r.sku) && IsStripped(r.sku) && NoUpper(r.site)
  {
    forall r | r in CleanSales(sales) ensures NoUpper(r.sku) && IsStripped(r.sku) && NoUpper(r.site) {
      CleanMember(sales, r);
      var s :| s in sales && !IsSentinel(s.sku) && r == Normalize(s);
      LowerSpec(s.sku);
      LowerSpec(s.site);
      StripNoUpper(Lower(s.sku));
      StripSpec(Lower(s.sku));
    }
  }

  /** The placeholder of a missing export never reaches the cleaned table. */
  lemma PlaceholderRemoved(sales: seq<SaleRecord>, siteName: string)
    ensures CleanSales(sales + [Extract.Placeholder(siteName)]) == CleanSales(sales)
  {
    assert IsPrefix("other", "other");
    CleanAppend(sales, [Extract.Placeholder(siteName)]);
  }

  /** A pattern whose first character does not occur in `s` is not contained in it. */
  lemma {:induction false} NotContainsFirst(s: string, sub: string)
    requires sub != [] && sub[0] !in s
    ensures !Contains(s, sub)
    decreases |s|
  {
    if |s| > 0 {
      assert s[0] in s;
      assert forall c :: c in s[1..] ==> c in s;
      NotContainsFirst(s[1..], sub);
    }
  }

  /** A padded, upper-case sku comes out lower-cased and stripped, and the site lower-cased. */
  lemma CleanExample()
    ensures CleanSales([SaleRecord(" AB1 ", 2, "Walmart")]) == [SaleRecord("ab1", 2, "walmart")]
  {
    PaddedSkuNotSentinel();
    NormalizeExample();
    CleanSingle(SaleRecord(" AB1 ", 2, "Walmart"));
  }

  lemma PaddedSkuNotSentinel()
    ensures !IsSentinel(" AB1 ")
  {
    NotContainsFirst(" AB1 ", "sku");
    NotContainsFirst(" AB1 ", "Item SKU");
    NotContainsFirst(" AB1 ", "other");
  }

  lemma CleanSingle(r: SaleRecord)
    ensures CleanSales([r]) == if IsSentinel(r.sku) then [] else [Normalize(r)]
  {
    assert [r][..0] == [];
  }

  lemma NormalizeExample()
    ensures Normalize(SaleRecord(" AB1 ", 2, "Walmart")) == SaleRecord("ab1", 2, "walmart")
  {
    var l := Lower(" AB1 ");
    assert l == " ab1 " by {
      assert |l| == 5 && l[0] == ' ' && l[1] == 'a' && l[2] == 'b' && l[3] == '1' && l[4] == ' ';
    }
    assert LeadingSpace(l) == 1 by {
      assert l[1..][0] == 'a';
    }
    var t := l[1..];
    assert TrailingSpace(t) == 1 by {
      assert t[..3][2] == '1';
    }
    assert t[..3] == "ab1";
    var w := Lower("Walmart");
    assert w == "walmart" by {
      assert |w| == 7 && w[0] == 'w' && w[1] == 'a' && w[2] == 'l' && w[3] == 'm';
      assert w[4] == 'a' && w[5] == 'r' && w[6] == 't';
    }
  }

  /**
   * The sentinel test runs before lower-casing: an upper-case "SKU" survives
   * the cleaning and becomes a lower-case "sku", which only the second filter
   * of the retail aggregation removes.
   */
  lemma SentinelCaseSensitive()
    ensures CleanSales([SaleRecord("ITEM SKU", 1, "tom")]) == [SaleRecord("item sku", 1, "tom")]
    ensures Contains("item sku", "sku")
  {
    var r := SaleRecord("ITEM SKU", 1, "tom");
    UpperItemSkuNotSentinel();
    NormalizeItemSku();
    CleanSingle(r);
    LowerItemSkuHasSku();
  }

  lemma LowerItemSkuHasSku()
    ensures Contains("item sku", "sku")
  {
    assert OccursAt("item sku", "sku", 5);
    ContainsAt("item sku", "sku");
  }

  lemma UpperItemSkuNotSentinel()
    ensures !IsSentinel("ITEM SKU")
  {
    var s := "ITEM SKU";
    NotContainsFirst(s, "sku");
    NotContainsFirst(s, "other");
    UpperItemSkuNotItemSku();
  }

  lemma UpperItemSkuNotItemSku()
    ensures !Contains("ITEM SKU", "Item SKU")
  {
    var s := "ITEM SKU";
    ContainsAt(s, "Item SKU");
    assert forall i :: OccursAt(s, "Item SKU", i) ==> i == 0;
    assert !OccursAt(s, "Item SKU", 0) by {
      assert s[0..8][1] == 'T';
    }
  }

  lemma NormalizeItemSku()
    ensures Normalize(SaleRecord("ITEM SKU", 1, "tom")) == SaleRecord("item sku", 1, "tom")
  {
    var l := Lower("ITEM SKU");
    assert l == "item sku" by {
      assert |l| == 8;
      assert l[0] == 'i' && l[1] == 't' && l[2] == 'e' && l[3] == 'm';
      assert l[4] == ' ' && l[5] == 's' && l[6] == 'k' && l[7] == 'u';
    }
    assert LeadingSpace(l) == 0;
    assert TrailingSpace(l) == 0;
    assert Lower("tom") == "tom";
  }

  /** An empty sku (Wayfair's default for a missing part number) is kept by the cleaning. */
  lemma EmptySkuSurvives()
    ensures CleanSales([SaleRecord("", 1, "Wayfair")]) == [SaleRecord("", 1, "wayfair")]
  {
    var w := Lower("Wayfair");
    assert w == "wayfair" by {
      assert |w| == 7 && w[0] == 'w' && w[1] == 'a' && w[2] == 'y' && w[3] == 'f';
      assert w[4] == 'a' && w[5] == 'i' && w[6] == 'r';
    }
    CleanSingle(SaleRecord("", 1, "Wayfair"));
  }
}
