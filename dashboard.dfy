/** The overview page: the summary figures derived from the working set on
    every render, and the recent-activity list. */
module Dashboard {
  import opened Types
  import opened WorkingSet
  import opened Finance

  predicate IsActive(o: Order)
  {
    o.status == Pending || o.status == Processing
  }

  /** Number of orders that are PENDING or PROCESSING. */
  function ActiveOrders(os: seq<Order>): (n: nat)
    ensures n <= |os|
  {
    if os == [] then 0 else (if IsActive(os[0]) then 1 else 0) + ActiveOrders(os[1..])
  }

  /** Number of orders in a given status. */
  function CountStatus(os: seq<Order>, s: OrderStatus): (n: nat)
    ensures n <= |os|
  {
    if os == [] then 0 else (if os[0].status == s then 1 else 0) + CountStatus(os[1..], s)
  }

  /** Number of orders whose message status is `read`. */
  function ReadMessages(os: seq<Order>): (n: nat)
    ensures n <= |os|
  {
    if os == [] then 0 else (if os[0].waStatus == Some("read") then 1 else 0) + ReadMessages(os[1..])
  }

  datatype Stats = Stats(
    totalRevenue: real, totalExpenses: real, netProfit: real, activeOrders: nat, readMessages: nat)

  /** The summary card figures. Revenue and expenses are the same folds the
      finance page shows. */
  function ComputeStats(os: seq<Order>, es: seq<Expense>): (st: Stats)
    ensures st.netProfit == st.totalRevenue - st.totalExpenses
    ensures st.totalRevenue == TotalRevenue(os) && st.totalExpenses == TotalExpenses(es)
    ensures st.netProfit == NetProfit(os, es)
    ensures st.activeOrders <= |os| && st.readMessages <= |os|
  {
    var revenue := TotalRevenue(os);
    var exp := TotalExpenses(es);
    Stats(revenue, exp, revenue - exp, ActiveOrders(os), ReadMessages(os))
  }

  /** Every order is either active, COMPLETED or PICKED_UP. */
  lemma {:induction false} StatusPartition(os: seq<Order>)
    ensures ActiveOrders(os) + CountStatus(os, Completed) + CountStatus(os, PickedUp) == |os|
    ensures ActiveOrders(os) == CountStatus(os, Pending) + CountStatus(os, Processing)
  {
    if os != [] {
      StatusPartition(os[1..]);
    }
  }

  /** An order placed through the app counts as active and adds its price to
      the revenue card. */
  lemma AddOrderCounts(o: Order, os: seq<Order>, es: seq<Expense>)
    requires o.status == Pending
    ensures ActiveOrders([o] + os) == ActiveOrders(os) + 1
    ensures ComputeStats([o] + os, es).totalRevenue == o.totalPrice + ComputeStats(os, es).totalRevenue
  {
    assert ([o] + os)[1..] == os;
    RevenuePrepend(o, os);
  }

  /** A status rewrite leaves the number of read messages as it was. */
  lemma {:induction false} ReadMessagesIgnoreStatus(os: seq<Order>, id: string, s: OrderStatus)
    ensures ReadMessages(SetStatusById(os, id, s)) == ReadMessages(os)
  {
    if os != [] {
      var r := SetStatusById(os, id, s);
      assert r[1..] == SetStatusById(os[1..], id, s);
      ReadMessagesIgnoreStatus(os[1..], id, s);
    }
  }

  /** Nothing in the app ever records a message status, so while no order
      carries one the read counter stays at zero. */
  lemma {:induction false} NoWaStatusNoReads(os: seq<Order>)
    requires NoWaStatus(os)
    ensures ReadMessages(os) == 0
  {
    if os != [] {
      NoWaStatusNoReads(os[1..]);
    }
  }

  /** The recent-activity panel: the first five orders of the list. */
  function RecentActivity(os: seq<Order>): (r: seq<Order>)
    ensures |r| == if |os| < 5 then |os| else 5
    ensures forall i :: 0 <= i < |r| ==> r[i] == os[i]
  {
    if |os| < 5 then os else os[..5]
  }

  /** A new order placed through the app heads the recent-activity panel. */
  lemma NewOrderHeadsRecent(o: Order, os: seq<Order>)
    ensures RecentActivity([o] + os)[0] == o
    ensures RecentActivity([o] + os)[1..] == RecentActivity(os)[..|RecentActivity([o] + os)| - 1]
  {
    var r := RecentActivity([o] + os);
    var q := RecentActivity(os);
    assert |r| - 1 <= |q|;
    assert forall i :: 0 <= i < |r| - 1 ==> r[1..][i] == q[i];
  }
}
