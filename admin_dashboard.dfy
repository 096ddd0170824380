/**
 * The admin dashboard: the statistics computed over the loaded order list,
 * the redirect of signed-in non-admins and the statuses the selector offers.
 */
module AdminDashboard {
  import opened Wrappers
  import opened Schema
  import Storage

  datatype Stats = Stats(totalOrders: nat, totalRevenue: int, pendingOrders: nat)

  /** `orders.reduce((sum, order) => sum + order.totalPrice, 0)`, folding from the left. */
  function Revenue(os: seq<Order>): int
    decreases |os|
  {
    if os == [] then 0 else Revenue(os[..|os| - 1]) + os[|os| - 1].totalPrice
  }

  /** Revenue is additive over concatenation. */
  lemma {:induction false} RevenueAppend(a: seq<Order>, b: seq<Order>)
    ensures Revenue(a + b) == Revenue(a) + Revenue(b)
    decreases |b|
  {
    if b == [] {
      assert a + b == a;
    } else {
      var c := a + b;
      assert c[..|c| - 1] == a + b[..|b| - 1];
      RevenueAppend(a, b[..|b| - 1]);
    }
  }

  /** With no negative price, the revenue is not negative. */
  lemma {:induction false} RevenueNonNegative(os: seq<Order>)
    requires forall i :: 0 <= i < |os| ==> os[i].totalPrice >= 0
    ensures Revenue(os) >= 0
    decreases |os|
  {
    if os != [] {
      RevenueNonNegative(os[..|os| - 1]);
    }
  }

  /** The revenue does not depend on the listing order: newest first gives the same sum. */
  lemma {:induction false} RevenueReverse(os: seq<Order>)
    ensures Revenue(Storage.Reverse(os)) == Revenue(os)
    decreases |os|
  {
    if os != [] {
      var init := os[..|os| - 1];
      var last := os[|os| - 1];
      assert Storage.Reverse(os) == [last] + Storage.Reverse(init);
      RevenueAppend([last], Storage.Reverse(init));
      assert Revenue([last]) == last.totalPrice by {
        assert [last][..0] == [];
      }
      RevenueReverse(init);
    }
  }

  /** `orders.filter(o => o.status === 'pending')` */
  function Pending(os: seq<Order>): (r: seq<Order>)
    ensures |r| <= |os|
    ensures forall o :: o in r <==> o in os && o.status == DefaultStatus
  {
    if os == [] then []
    else (if os[0].status == "pending" then [os[0]] else []) + Pending(os[1..])
  }

  /** `stats`: null while the orders are not loaded. */
  function ComputeStats(orders: Option<seq<Order>>): (r: Option<Stats>)
    ensures r.None? <==> orders.None?
    ensures r.Some? ==> r.value.totalOrders == |orders.value|
    ensures r.Some? ==> r.value.totalRevenue == Revenue(orders.value)
    ensures r.Some? ==> r.value.pendingOrders == |Pending(orders.value)| <= r.value.totalOrders
  {
    match orders
    case None => None
    case Some(os) => Some(Stats(|os|, Revenue(os), |Pending(os)|))
  }

  /** The counts of a concatenation are the sums of the counts. */
  lemma {:induction false} StatsAppend(a: seq<Order>, b: seq<Order>)
    ensures ComputeStats(Some(a + b)).value.totalOrders
      == ComputeStats(Some(a)).value.totalOrders + ComputeStats(Some(b)).value.totalOrders
    ensures ComputeStats(Some(a + b)).value.totalRevenue
      == ComputeStats(Some(a)).value.totalRevenue + ComputeStats(Some(b)).value.totalRevenue
    ensures ComputeStats(Some(a + b)).value.pendingOrders
      == ComputeStats(Some(a)).value.pendingOrders + ComputeStats(Some(b)).value.pendingOrders
  {
    RevenueAppend(a, b);
    PendingAppend(a, b);
  }

  lemma {:induction false} PendingAppend(a: seq<Order>, b: seq<Order>)
    ensures Pending(a + b) == Pending(a) + Pending(b)
    decreases |a|
  {
    if a == [] {
      assert a + b == b;
    } else {
      assert (a + b)[1..] == a[1..] + b;
      PendingAppend(a[1..], b);
    }
  }

  // ---------------------------------------------------------------------
  // The page guard and the status selector

  datatype PageView = Redirect(to: string) | Dashboard

  /** A signed-in user who is not an admin is sent home; a guest is not redirected here. */
  function View(user: Option<User>): (r: PageView)
    ensures r.Redirect? <==> user.Some? && !user.value.isAdmin
    ensures r.Redirect? ==> r.to == "/"
  {
    if user.Some? && !user.value.isAdmin then Redirect("/") else Dashboard
  }

  /** The values of the status selector, in the order shown. */
  const StatusOptions: seq<string> := ["pending", "processing", "ready", "delivered"]

  /** The selector offers exactly the four order statuses, starting with the default one. */
  lemma StatusOptionsAreOrderStatuses()
    ensures StatusOptions == OrderStatuses && StatusOptions[0] == DefaultStatus
    ensures |StatusOptions| == 4
  {
  }
}
