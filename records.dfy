// The common record schema every marketplace adapter produces, and the
// "explode" step that turns orders with nested line items into flat records.

module Records {

  datatype Option<+T> = None | Some(value: T) {
    /** The value, or `default` when absent (Python's `dict.get(key, default)`). */
    function GetOr(default: T): T {
      match this
      case Some(v) => v
      case None => default
    }
  }

  datatype Result<+R, +E> = Success(value: R) | Failure(error: E)

  /** One normalised sale line: the columns `sku`, `qty`, `site` of every source table. */
  datatype SaleRecord = SaleRecord(sku: string, qty: int, site: string)

  /** A line item as it appears inside an order of a marketplace payload. */
  datatype LineItem = LineItem(sku: string, quantity: int)

  function ToRecord(item: LineItem, site: string): SaleRecord {
    SaleRecord(item.sku, item.quantity, site)
  }

  /** The records of one order's line items, tagged with `site`, in item order. */
  function LineRecords(items: seq<LineItem>, site: string): seq<SaleRecord> {
    seq(|items|, j requires 0 <= j < |items| => ToRecord(items[j], site))
  }

  /** Number of line items over all orders. */
  function LineCount(orders: seq<seq<LineItem>>): nat {
    if orders == [] then 0 else LineCount(orders[..|orders| - 1]) + |orders[|orders| - 1]|
  }

  /**
   * Every line item of every order becomes one record, orders in payload
   * order and items in order within each order (pandas `explode` followed by
   * `json_normalize`, or the nested `for` loops of the adapters).
   */
  function Explode(orders: seq<seq<LineItem>>, site: string): seq<SaleRecord> {
    if orders == [] then []
    else Explode(orders[..|orders| - 1], site) + LineRecords(orders[|orders| - 1], site)
  }

  /** Sum of the `qty` column. */
  function TotalQty(rs: seq<SaleRecord>): int {
    if rs == [] then 0 else TotalQty(rs[..|rs| - 1]) + rs[|rs| - 1].qty
  }

  lemma LineRecordsSnoc(items: seq<LineItem>, j: nat, site: string)
    requires j < |items|
    ensures LineRecords(items[..j + 1], site) == LineRecords(items[..j], site) + [ToRecord(items[j], site)]
  {
    assert items[..j + 1][..j] == items[..j];
  }

  /** Exploding one more order appends that order's records. */
  lemma ExplodeSnoc(orders: seq<seq<LineItem>>, o: seq<LineItem>, site: string)
    ensures Explode(orders + [o], site) == Explode(orders, site) + LineRecords(o, site)
  {
    assert (orders + [o])[..|orders|] == orders;
  }

  /** Exploding a concatenation of order lists concatenates the record lists. */
  lemma {:induction false} ExplodeAppend(a: seq<seq<LineItem>>, b: seq<seq<LineItem>>, site: string)
    ensures Explode(a + b, site) == Explode(a, site) + Explode(b, site)
  {
    if b == [] {
      assert a + b == a;
    } else {
      var n := |b| - 1;
      assert (a + b)[..|a + b| - 1] == a + b[..n];
      assert (a + b)[|a + b| - 1] == b[n];
      ExplodeAppend(a, b[..n], site);
    }
  }

  /** One record per line item: mass of rows is preserved by the explode. */
  lemma {:induction false} ExplodeLength(orders: seq<seq<LineItem>>, site: string)
    ensures |Explode(orders, site)| == LineCount(orders)
  {
    if orders != [] {
      ExplodeLength(orders[..|orders| - 1], site);
    }
  }

  /**
   * A record is produced exactly when some line item of some order carries
   * its sku and quantity, and every record carries the adapter's site tag.
   */
  lemma {:induction false} ExplodeMember(orders: seq<seq<LineItem>>, site: string, r: SaleRecord)
    ensures r in Explode(orders, site) <==>
              exists i, j :: 0 <= i < |orders| && 0 <= j < |orders[i]| && r == ToRecord(orders[i][j], site)
    ensures r in Explode(orders, site) ==> r.site == site
  {
    if orders != [] {
      var n := |orders| - 1;
      var pre := orders[..n];
      ExplodeMember(pre, site, r);
      assert Explode(orders, site) == Explode(pre, site) + LineRecords(orders[n], site);
      if r in Explode(orders, site) {
        if r in Explode(pre, site) {
          var i, j :| 0 <= i < |pre| && 0 <= j < |pre[i]| && r == ToRecord(pre[i][j], site);
          assert orders[i] == pre[i];
        } else {
          var j :| 0 <= j < |orders[n]| && LineRecords(orders[n], site)[j] == r;
          assert r == ToRecord(orders[n][j], site);
        }
      }
      if exists i, j :: 0 <= i < |orders| && 0 <= j < |orders[i]| && r == ToRecord(orders[i][j], site) {
        var i, j :| 0 <= i < |orders| && 0 <= j < |orders[i]| && r == ToRecord(orders[i][j], site);
        if i < n {
          assert pre[i] == orders[i];
        } else {
          assert LineRecords(orders[n], site)[j] == r;
        }
      }
    }
  }

  /** The `qty` sum of a concatenation of tables is the sum of their sums. */
  lemma {:induction false} TotalQtyAppend(a: seq<SaleRecord>, b: seq<SaleRecord>)
    ensures TotalQty(a + b) == TotalQty(a) + TotalQty(b)
  {
    if b == [] {
      assert a + b == a;
    } else {
      var n := |b| - 1;
      assert (a + b)[..|a + b| - 1] == a + b[..n];
      TotalQtyAppend(a, b[..n]);
    }
  }
}
