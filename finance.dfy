/** The finance page: revenue, expense and profit totals recomputed from the
    working set, and the expense form with its guard and reset. */
module Finance {
  import opened Types
  import opened WorkingSet
  import opened App

  /** Sum of `totalPrice` over all orders, whatever their status, folded from
      the first order to the last. */
  function TotalRevenue(os: seq<Order>): real
  {
    if os == [] then 0.0 else TotalRevenue(os[..|os| - 1]) + os[|os| - 1].totalPrice
  }

  /** Sum of `amount` over all expenses, folded from the first to the last. */
  function TotalExpenses(es: seq<Expense>): real
  {
    if es == [] then 0.0 else TotalExpenses(es[..|es| - 1]) + es[|es| - 1].amount
  }

  function NetProfit(os: seq<Order>, es: seq<Expense>): (p: real)
    ensures os == [] && es == [] ==> p == 0.0
  {
    TotalRevenue(os) - TotalExpenses(es)
  }

  /** Revenue is additive over concatenation. */
  lemma {:induction false} RevenueAppend(a: seq<Order>, b: seq<Order>)
    ensures TotalRevenue(a + b) == TotalRevenue(a) + TotalRevenue(b)
  {
    if b == [] {
      assert a + b == a;
    } else {
      var b' := b[..|b| - 1];
      assert (a + b)[..|a + b| - 1] == a + b';
      RevenueAppend(a, b');
    }
  }

  lemma {:induction false} ExpensesAppend(a: seq<Expense>, b: seq<Expense>)
    ensures TotalExpenses(a + b) == TotalExpenses(a) + TotalExpenses(b)
  {
    if b == [] {
      assert a + b == a;
    } else {
      var b' := b[..|b| - 1];
      assert (a + b)[..|a + b| - 1] == a + b';
      ExpensesAppend(a, b');
    }
  }

  /** A new order at the front adds exactly its price to the revenue. */
  lemma RevenuePrepend(o: Order, os: seq<Order>)
    ensures TotalRevenue([o] + os) == o.totalPrice + TotalRevenue(os)
  {
    RevenueAppend([o], os);
    assert [o][..0] == [];
  }

  /** A new expense at the front adds exactly its amount to the expenses and
      takes it off the profit. */
  lemma ExpensePrepend(os: seq<Order>, e: Expense, es: seq<Expense>)
    ensures TotalExpenses([e] + es) == e.amount + TotalExpenses(es)
    ensures NetProfit(os, [e] + es) == NetProfit(os, es) - e.amount
  {
    ExpensesAppend([e], es);
    assert [e][..0] == [];
  }

  /** Two lists with the same prices, position by position, have the same
      revenue. */
  lemma {:induction false} RevenueSamePrices(a: seq<Order>, b: seq<Order>)
    requires |a| == |b|
    requires forall i :: 0 <= i < |a| ==> a[i].totalPrice == b[i].totalPrice
    ensures TotalRevenue(a) == TotalRevenue(b)
  {
    if a != [] {
      RevenueSamePrices(a[..|a| - 1], b[..|b| - 1]);
    }
  }

  /** Changing an order's status never changes the revenue. */
  lemma RevenueIgnoresStatus(os: seq<Order>, id: string, s: OrderStatus)
    ensures TotalRevenue(SetStatusById(os, id, s)) == TotalRevenue(os)
  {
    RevenueSamePrices(SetStatusById(os, id, s), os);
  }

  /** With no negative prices the revenue is not negative. */
  lemma {:induction false} RevenueNonNegative(os: seq<Order>)
    requires forall i :: 0 <= i < |os| ==> os[i].totalPrice >= 0.0
    ensures TotalRevenue(os) >= 0.0
  {
    if os != [] {
      RevenueNonNegative(os[..|os| - 1]);
    }
  }

  /** Two expenses of 10000 and 15000 and no orders: a loss of 25000. */
  lemma SampleTwoExpenses(e1: Expense, e2: Expense)
    requires e1.amount == 10000.0 && e2.amount == 15000.0
    ensures TotalExpenses([e1, e2]) == 25000.0
    ensures TotalRevenue([]) == 0.0
    ensures NetProfit([], [e1, e2]) == -25000.0
  {
    assert [e1, e2][..1] == [e1];
    assert [e1][..0] == [];
    assert TotalExpenses([e1]) == 10000.0;
  }

  const EmptyExpenseForm := ExpenseDraft("", 0.0, "")

  /** The expense form: its fields and whether the add panel is open. */
  class FinancePanel {
    var form: ExpenseDraft
    var isAdding: bool

    constructor ()
      ensures form == EmptyExpenseForm && !isAdding
    {
      form := EmptyExpenseForm;
      isAdding := false;
    }

    method Open()
      modifies this
      ensures isAdding && form == old(form)
    {
      isAdding := true;
    }

    method Cancel()
      modifies this
      ensures !isAdding && form == old(form)
    {
      isAdding := false;
    }

    method Edit(f: ExpenseDraft)
      modifies this
      ensures form == f && isAdding == old(isAdding)
    {
      form := f;
    }

    predicate CanSubmit()
      reads this
    {
      form.amount > 0.0 && form.category != ""
    }

    /** Submit at time `now`: a positive amount and a category hand the form
        to the app's expense callback under `id`, close the panel and clear
        the form; anything else does nothing. */
    method Submit(shop: Shop, id: string, now: int) returns (submitted: bool)
      requires shop.Valid()
      modifies this, shop, shop.store
      ensures shop.Valid()
      ensures submitted == old(CanSubmit())
      ensures !submitted ==> unchanged(this) && unchanged(shop) && unchanged(shop.store)
      ensures submitted ==>
                shop.expenses == [ExpenseFromDraft(old(form), id, now)] + old(shop.expenses) &&
                shop.store.transaksi == old(shop.store.transaksi)[id := ExpenseFromDraft(old(form), id, now)] &&
                shop.store.orders == old(shop.store.orders) &&
                shop.store.users == old(shop.store.users) &&
                shop.store.settings == old(shop.store.settings) &&
                shop.orders == old(shop.orders) && shop.fonnteToken == old(shop.fonnteToken) &&
                shop.outbox == old(shop.outbox) && shop.isNewOrderOpen == old(shop.isNewOrderOpen) &&
                shop.notification == Some(ExpenseSaved) &&
                !isAdding && form == EmptyExpenseForm
    {
      submitted := CanSubmit();
      if submitted {
        shop.AddExpense(form, id, now);
        isAdding := false;
        form := EmptyExpenseForm;
      }
    }
  }
}
