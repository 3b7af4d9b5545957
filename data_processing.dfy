/** Dashboard aggregation: the statistics over users, products and orders, the
    most recent items, the order-status distribution and the trend direction.
    Counts and revenue are whole numbers; the average, the growth and the
    percentages are reals. createdAt values are compared as strings, which for
    ISO dates (YYYY-MM-DD) is the order of the dates they name. */
module DataProcessing {
  import opened Seqs
  import opened Text
  import opened Records
  import opened OrderHelpers

  // ----- Most recent items -----

  /** Newest first: no element is strictly older than one after it. */
  ghost predicate NewestFirst<T>(s: seq<T>, key: T -> string)
  {
    forall i, j :: 0 <= i < j < |s| ==> !StrLess(key(s[i]), key(s[j]))
  }

  /** "Not older than" chains: a >= b and b >= c give a >= c. */
  lemma NotOlderChain(a: string, b: string, c: string)
    requires !StrLess(a, b) && !StrLess(b, c)
    ensures !StrLess(a, c)
  {
    if StrLess(a, c) {
      StrLessTotal(a, b);
      if StrLess(b, a) {
        StrLessTransitive(b, a, c);
      }
    }
  }

  /** Dropping the head keeps a newest-first list newest first. */
  lemma NewestFirstTail<T>(t: seq<T>, key: T -> string)
    requires t != [] && NewestFirst(t, key)
    ensures NewestFirst(t[1..], key)
  {
    forall i, j | 0 <= i < j < |t| - 1 ensures !StrLess(key(t[1..][i]), key(t[1..][j])) {
      assert t[1..][i] == t[i + 1] && t[1..][j] == t[j + 1];
    }
  }

  /** A head not older than anything after it extends a newest-first list. */
  lemma NewestFirstCons<T>(h: T, t: seq<T>, key: T -> string)
    requires NewestFirst(t, key)
    requires forall k :: 0 <= k < |t| ==> !StrLess(key(h), key(t[k]))
    ensures NewestFirst([h] + t, key)
  {
    var r := [h] + t;
    forall i, j | 0 <= i < j < |r| ensures !StrLess(key(r[i]), key(r[j])) {
      assert r[j] == t[j - 1];
      if i > 0 {
        assert r[i] == t[i - 1];
      }
    }
  }

  /** Places x after every element strictly newer than it and before the rest. */
  function InsertByDate<T>(x: T, t: seq<T>, key: T -> string): (r: seq<T>)
    ensures |r| == |t| + 1
    ensures multiset(r) == multiset(t) + multiset{x}
  {
    if t == [] then [x]
    else if StrLess(key(x), key(t[0])) then
      assert t == [t[0]] + t[1..];
      [t[0]] + InsertByDate(x, t[1..], key)
    else [x] + t
  }

  /** Inserting into a newest-first list keeps it newest first. */
  lemma {:induction false} InsertKeepsNewestFirst<T>(x: T, t: seq<T>, key: T -> string)
    requires NewestFirst(t, key)
    ensures NewestFirst(InsertByDate(x, t, key), key)
    decreases |t|
  {
    if t == [] {
    } else if StrLess(key(x), key(t[0])) {
      NewestFirstTail(t, key);
      InsertKeepsNewestFirst(x, t[1..], key);
      var rest := InsertByDate(x, t[1..], key);
      forall k | 0 <= k < |rest| ensures !StrLess(key(t[0]), key(rest[k])) {
        assert rest[k] in multiset(rest);
        if rest[k] == x {
          if StrLess(key(t[0]), key(x)) {
            StrLessTransitive(key(x), key(t[0]), key(x));
            StrLessIrreflexive(key(x));
          }
        } else {
          assert rest[k] in multiset(t[1..]);
          var j :| 0 <= j < |t[1..]| && t[1..][j] == rest[k];
          assert t[j + 1] == rest[k];
        }
      }
      NewestFirstCons(t[0], rest, key);
    } else {
      forall k | 0 <= k < |t| ensures !StrLess(key(x), key(t[k])) {
        if k > 0 {
          NotOlderChain(key(x), key(t[0]), key(t[k]));
        }
      }
      NewestFirstCons(x, t, key);
    }
  }

  /** [...items].sort by createdAt, newest first; equal dates keep their order. */
  function SortNewestFirst<T>(s: seq<T>, key: T -> string): (r: seq<T>)
    ensures |r| == |s|
    ensures multiset(r) == multiset(s)
    ensures NewestFirst(r, key)
  {
    if s == [] then []
    else
      assert s == [s[0]] + s[1..];
      var t := SortNewestFirst(s[1..], key);
      InsertKeepsNewestFirst(s[0], t, key);
      InsertByDate(s[0], t, key)
  }

  
  /** Taking a prefix of a newest-first list keeps the newest: nothing left out is
      newer than anything kept. */
  lemma PrefixIsNewest<T>(sorted: seq<T>, k: nat, key: T -> string)
    requires NewestFirst(sorted, key) && k <= |sorted|
    ensures forall x, i | x in multiset(sorted) - multiset(sorted[..k]) && 0 <= i < k ::
              !StrLess(key(sorted[i]), key(x))
  {
    assert sorted == sorted[..k] + sorted[k..];
    assert multiset(sorted) == multiset(sorted[..k]) + multiset(sorted[k..]);
    forall x, i | x in multiset(sorted) - multiset(sorted[..k]) && 0 <= i < k
      ensures !StrLess(key(sorted[i]), key(x))
    {
      assert x in multiset(sorted[k..]);
      var j :| 0 <= j < |sorted[k..]| && sorted[k..][j] == x;
      assert sorted[k + j] == x;
    }
  }

  const DefaultRecentLimit := 5

  /** getRecentItems: the limit newest items (5 unless given) (JavaScript slice semantics for the
      limit), newest first, drawn from the input. */
  function GetRecentItems<T>(items: seq<T>, key: T -> string, limit: int := DefaultRecentLimit)
    : (r: seq<T>)
    ensures |r| == SliceEnd(|items|, limit)
    ensures multiset(r) <= multiset(items)
    ensures NewestFirst(r, key)
    ensures forall x, i | x in multiset(items) - multiset(r) && 0 <= i < |r| ::
              !StrLess(key(r[i]), key(x))
  {
    var sorted := SortNewestFirst(items, key);
    var k := SliceEnd(|items|, limit);
    PrefixIsNewest(sorted, k, key);
    assert sorted == sorted[..k] + sorted[k..];
    sorted[..k]
  }

  // ----- Statistics -----

  function OrderAmount(o: Order): int { o.totalAmount }

  predicate IsPaid(o: Order) { o.paymentStatus == "paid" }

  predicate IsActiveUser(u: User) { u.status == "active" }

  predicate IsActiveProduct(p: Product) { p.status == "active" }

  /** orders.reduce((sum, o) => sum + o.totalAmount, 0). */
  function Revenue(orders: seq<Order>): int
  {
    SumOf(orders, OrderAmount)
  }

  /** An exact status filter, as o => o.status === status. */
  function HasStatus(status: string): Order -> bool
  {
    (o: Order) => o.status == status
  }

  /** The number of orders whose status is exactly status. */
  function StatusCount(orders: seq<Order>, status: string): (n: nat)
    ensures n <= |orders|
  {
    if orders == [] then 0
    else (if orders[0].status == status then 1 else 0) + StatusCount(orders[1..], status)
  }

  /** StatusCount is orders.filter(o => o.status === status).length. */
  lemma {:induction false} StatusCountIsFilterLength(orders: seq<Order>, status: string)
    ensures StatusCount(orders, status) == Count(orders, HasStatus(status))
    decreases |orders|
  {
    if orders != [] {
      StatusCountIsFilterLength(orders[1..], status);
    }
  }

  datatype DashboardStats = DashboardStats(totalUsers: nat, activeUsers: nat, totalProducts: nat,
                                           activeProducts: nat, totalOrders: nat,
                                           pendingOrders: nat, totalRevenue: int,
                                           averageOrderValue: real, revenueGrowth: real)

  /** The paid orders split at floor(n / 2), and the revenue of each half. */
  lemma MidpointSplit(paid: seq<Order>)
    ensures paid[..|paid| / 2] + paid[|paid| / 2..] == paid
    ensures Revenue(paid[..|paid| / 2]) + Revenue(paid[|paid| / 2..]) == Revenue(paid)
  {
    var m := |paid| / 2;
    assert paid[..m] + paid[m..] == paid;
    SumOfAppend(paid[..m], paid[m..], OrderAmount);
  }

  /** The growth of the second half over the first, in percent; 0 when the
      first half earned nothing. */
  function RevenueGrowth(first: int, second: int): (g: real)
    ensures first <= 0 ==> g == 0.0
    ensures first > 0 ==> (g > 0.0 <==> second > first) && (g == 0.0 <==> second == first)
  {
    if first > 0 then
      var q := (second - first) as real / first as real;
      assert q * first as real == (second - first) as real;
      q * 100.0
    else 0.0
  }

  /** totalRevenue / paidOrders.length, or 0 without paid orders. */
  function Average(total: int, n: nat): (a: real)
    ensures n == 0 ==> a == 0.0
    ensures n > 0 ==> a * n as real == total as real
  {
    if n > 0 then
      var q := total as real / n as real;
      assert q * n as real == total as real;
      q
    else 0.0
  }

  /** calculateDashboardStats. */
  function CalculateDashboardStats(users: seq<User>, products: seq<Product>, orders: seq<Order>)
    : (s: DashboardStats)
    ensures s.totalUsers == |users| && s.activeUsers <= s.totalUsers
    ensures s.totalProducts == |products| && s.activeProducts <= s.totalProducts
    ensures s.totalOrders == |orders| && s.pendingOrders <= s.totalOrders
    ensures s.activeUsers == Count(users, IsActiveUser)
    ensures s.activeProducts == Count(products, IsActiveProduct)
    ensures s.pendingOrders == StatusCount(orders, "pending")
    ensures s.totalRevenue == Revenue(Filter(orders, IsPaid))
    ensures Filter(orders, IsPaid) == [] ==> s.averageOrderValue == 0.0
    ensures s.averageOrderValue == Average(s.totalRevenue, |Filter(orders, IsPaid)|)
    ensures var paid := Filter(orders, IsPaid);
            var first, second := Revenue(paid[..|paid| / 2]), Revenue(paid[|paid| / 2..]);
            && first + second == s.totalRevenue
            && (first <= 0 ==> s.revenueGrowth == 0.0)
            && (first > 0 ==> (s.revenueGrowth > 0.0 <==> second > first)
                              && (s.revenueGrowth == 0.0 <==> second == first))
  {
    var paid := Filter(orders, IsPaid);
    var totalRevenue := Revenue(paid);
    var average := Average(totalRevenue, |paid|);
    var midPoint := |paid| / 2;
    var firstHalfRevenue := Revenue(paid[..midPoint]);
    var secondHalfRevenue := Revenue(paid[midPoint..]);
    MidpointSplit(paid);
    var growth := RevenueGrowth(firstHalfRevenue, secondHalfRevenue);
    DashboardStats(|users|, Count(users, IsActiveUser), |products|, Count(products, IsActiveProduct),
                   |orders|, StatusCount(orders, "pending"), totalRevenue, average, growth)
  }

  /** Adding an order that is not paid changes no revenue figure. */
  lemma UnpaidOrderAddsNoRevenue(users: seq<User>, products: seq<Product>, orders: seq<Order>,
                                 o: Order)
    requires !IsPaid(o)
    ensures CalculateDashboardStats(users, products, orders + [o]).totalRevenue
            == CalculateDashboardStats(users, products, orders).totalRevenue
  {
    FilterAppend(orders, [o], IsPaid);
    assert Filter(orders + [o], IsPaid) == Filter(orders, IsPaid);
  }

  // ----- Order status distribution -----

  datatype StatusData = StatusData(status: string, count: nat, percentage: real)

  /** status.charAt(0).toUpperCase() + status.slice(1). */
  function Capitalize(s: string): (r: string)
    ensures |r| == |s|
    ensures s != [] ==> r[0] == UpperChar(s[0]) && r[1..] == s[1..]
  {
    if s == [] then [] else [UpperChar(s[0])] + s[1..]
  }

  /** (count / total) * 100, or 0 for an empty total. */
  function Percentage(count: nat, total: nat): (p: real)
    requires count <= total
    ensures 0.0 <= p <= 100.0
    ensures total == 0 ==> p == 0.0
    ensures total > 0 && count == total ==> p == 100.0
    ensures total > 0 ==> p * total as real == count as real * 100.0
  {
    if total > 0 then
      var q := count as real / total as real;
      assert q * total as real == count as real;
      assert q <= 1.0;
      q * 100.0
    else 0.0
  }

  function StatusEntry(orders: seq<Order>, status: string): StatusData
  {
    var count := StatusCount(orders, status);
    StatusData(Capitalize(status), count, Percentage(count, |orders|))
  }

  /** generateOrderStatusData: one entry per status, in the fixed order. */
  function GenerateOrderStatusData(orders: seq<Order>): (r: seq<StatusData>)
    ensures |r| == |OrderStatuses|
    ensures forall i :: 0 <= i < |r| ==>
              r[i].status == Capitalize(OrderStatuses[i])
              && r[i].count == StatusCount(orders, OrderStatuses[i])
              && 0.0 <= r[i].percentage <= 100.0
              && (|orders| == 0 ==> r[i].percentage == 0.0)
              && r[i].percentage == Percentage(r[i].count, |orders|)
  {
    seq(|OrderStatuses|, i requires 0 <= i < |OrderStatuses| => StatusEntry(orders, OrderStatuses[i]))
  }

  /** The sum of the five per-status counts. */
  function FiveCounts(orders: seq<Order>): nat
  {
    StatusCount(orders, "pending") + StatusCount(orders, "processing")
    + StatusCount(orders, "shipped") + StatusCount(orders, "delivered")
    + StatusCount(orders, "cancelled")
  }

  /** When every order carries one of the five statuses, the counts add up to
      the number of orders. */
  lemma {:induction false} StatusCountsSum(orders: seq<Order>)
    requires forall i :: 0 <= i < |orders| ==> orders[i].status in OrderStatuses
    ensures FiveCounts(orders) == |orders|
    decreases |orders|
  {
    if orders != [] {
      var rest := orders[1..];
      assert forall i :: 0 <= i < |rest| ==> rest[i] == orders[i + 1];
      StatusCountsSum(rest);
      FiveCountsCons(orders);
    }
  }

  /** The first order adds one to exactly one of the five counts. */
  lemma FiveCountsCons(orders: seq<Order>)
    requires orders != [] && orders[0].status in OrderStatuses
    ensures FiveCounts(orders) == 1 + FiveCounts(orders[1..])
  {
    assert "pending"[2] == 'n' && "processing"[2] == 'o';
  }

  /** The entries of the status distribution count every well-typed order once. */
  lemma StatusDataCountsAll(orders: seq<Order>)
    requires forall i :: 0 <= i < |orders| ==> orders[i].status in OrderStatuses
    ensures var r := GenerateOrderStatusData(orders);
            r[0].count + r[1].count + r[2].count + r[3].count + r[4].count == |orders|
  {
    StatusCountsSum(orders);
  }

  // ----- Trend -----

  /** getTrendDirection. */
  function GetTrendDirection(value: real): (r: string)
    ensures r == "up" || r == "down" || r == "neutral"
  {
    if value > 0.0 then "up" else if value < 0.0 then "down" else "neutral"
  }

  /** The direction is decided by the sign alone, and negating the value swaps up and down. */
  lemma TrendBySign(value: real)
    ensures GetTrendDirection(value) == "up" <==> value > 0.0
    ensures GetTrendDirection(value) == "down" <==> value < 0.0
    ensures GetTrendDirection(value) == "neutral" <==> value == 0.0
    ensures GetTrendDirection(-value) == if value > 0.0 then "down"
                                         else if value < 0.0 then "up" else "neutral"
  {
  }
}
