/** The overview page loader: headline counts and sums over the stored users,
    products and orders, the five most recent orders and users, and the three
    collections themselves in stored order (the sorts work on copies). The
    inputs are what the data service's getUsers, getProducts and getOrders
    return. */
module OverviewPage {
  import opened Seqs
  import opened Text
  import opened Records
  import opened OrderHelpers
  import opened DataProcessing

  datatype OverviewStats = OverviewStats(totalUsers: nat, activeUsers: nat, totalProducts: nat,
                                         activeProducts: nat, totalOrders: nat, totalRevenue: int,
                                         pendingOrders: nat, processingOrders: nat,
                                         shippedOrders: nat, deliveredOrders: nat,
                                         cancelledOrders: nat)

  datatype OverviewData = OverviewData(stats: OverviewStats, recentOrders: seq<Order>,
                                       recentUsers: seq<User>, orders: seq<Order>,
                                       users: seq<User>, products: seq<Product>)

  const RecentLimit := 5

  function Load(users: seq<User>, products: seq<Product>, orders: seq<Order>): (d: OverviewData)
    ensures d.stats.totalUsers == |users| && d.stats.activeUsers <= d.stats.totalUsers
    ensures d.stats.totalProducts == |products| && d.stats.activeProducts <= d.stats.totalProducts
    ensures d.stats.totalOrders == |orders|
    ensures d.stats.activeUsers == Count(users, IsActiveUser)
    ensures d.stats.activeProducts == Count(products, IsActiveProduct)
    ensures d.stats.pendingOrders == StatusCount(orders, "pending")
    ensures d.stats.processingOrders == StatusCount(orders, "processing")
    ensures d.stats.shippedOrders == StatusCount(orders, "shipped")
    ensures d.stats.deliveredOrders == StatusCount(orders, "delivered")
    ensures d.stats.cancelledOrders == StatusCount(orders, "cancelled")
    ensures d.stats.totalRevenue == Revenue(orders)
    ensures (forall i :: 0 <= i < |orders| ==> orders[i].status in OrderStatuses) ==>
              d.stats.pendingOrders + d.stats.processingOrders + d.stats.shippedOrders
              + d.stats.deliveredOrders + d.stats.cancelledOrders == d.stats.totalOrders
    ensures |d.recentOrders| == if |orders| < RecentLimit then |orders| else RecentLimit
    ensures |d.recentUsers| == if |users| < RecentLimit then |users| else RecentLimit
    ensures d.orders == orders && d.users == users && d.products == products
  {
    var stats := OverviewStats(|users|, Count(users, IsActiveUser), |products|,
                               Count(products, IsActiveProduct), |orders|, Revenue(orders),
                               StatusCount(orders, "pending"), StatusCount(orders, "processing"),
                               StatusCount(orders, "shipped"), StatusCount(orders, "delivered"),
                               StatusCount(orders, "cancelled"));
    var d := OverviewData(stats, GetRecentItems(orders, OrderCreatedAt, RecentLimit),
                          GetRecentItems(users, UserCreatedAt, RecentLimit), orders, users, products);
    if forall i :: 0 <= i < |orders| ==> orders[i].status in OrderStatuses then
      StatusCountsSum(orders);
      d
    else
      d
  }

  /** The recent orders are the newest stored orders, newest first: nothing left
      out is newer than anything shown. */
  lemma RecentOrdersAreNewest(users: seq<User>, products: seq<Product>, orders: seq<Order>)
    ensures var r := Load(users, products, orders).recentOrders;
            && multiset(r) <= multiset(orders) && NewestFirst(r, OrderCreatedAt)
            && forall x, i | x in multiset(orders) - multiset(r) && 0 <= i < |r| ::
                 !StrLess(r[i].createdAt, x.createdAt)
  {
    var r := Load(users, products, orders).recentOrders;
    assert r == GetRecentItems(orders, OrderCreatedAt, RecentLimit);
  }

  /** The recent users are the newest stored users, newest first. */
  lemma RecentUsersAreNewest(users: seq<User>, products: seq<Product>, orders: seq<Order>)
    ensures var r := Load(users, products, orders).recentUsers;
            && multiset(r) <= multiset(users) && NewestFirst(r, UserCreatedAt)
            && forall x, i | x in multiset(users) - multiset(r) && 0 <= i < |r| ::
                 !StrLess(r[i].createdAt, x.createdAt)
  {
    var r := Load(users, products, orders).recentUsers;
    assert r == GetRecentItems(users, UserCreatedAt, RecentLimit);
  }

  /** Revenue over a filtered list never exceeds the revenue over the whole list
      when no amount is negative. */
  lemma {:induction false} FilteredRevenueAtMost(orders: seq<Order>, p: Order -> bool)
    requires forall i :: 0 <= i < |orders| ==> orders[i].totalAmount >= 0
    ensures Revenue(Filter(orders, p)) <= Revenue(orders)
    decreases |orders|
  {
    if orders != [] {
      var n := |orders|;
      var front, last := orders[..n - 1], orders[n - 1];
      assert orders == front + [last];
      FilterAppend(front, [last], p);
      SumOfAppend(Filter(front, p), Filter([last], p), OrderAmount);
      FilteredRevenueAtMost(front, p);
      assert Filter([last], p) == if p(last) then [last] else [] by {
        assert [last][1..] == [];
      }
      assert SumOf([last], OrderAmount) == OrderAmount(last) by {
        assert [last][..0] == [];
      }
    }
  }

  /** The overview and calculateDashboardStats agree on every count, and the
      overview's revenue (all orders) is at least the paid-only revenue when
      no amount is negative. */
  lemma AgreesWithDashboardStats(users: seq<User>, products: seq<Product>, orders: seq<Order>)
    requires forall i :: 0 <= i < |orders| ==> orders[i].totalAmount >= 0
    ensures var d, s := Load(users, products, orders), CalculateDashboardStats(users, products, orders);
            && d.stats.totalUsers == s.totalUsers && d.stats.activeUsers == s.activeUsers
            && d.stats.totalProducts == s.totalProducts && d.stats.activeProducts == s.activeProducts
            && d.stats.totalOrders == s.totalOrders && d.stats.pendingOrders == s.pendingOrders
            && s.totalRevenue <= d.stats.totalRevenue
  {
    FilteredRevenueAtMost(orders, IsPaid);
  }
}
