/** The application shell: the in-memory working set of orders and expenses,
    the gateway token, the transient toast, and the operations that change
    them (start-up load, adding an order, changing an order's status, adding
    an expense, saving the token). Every change is written to the store. */
module App {
  import opened Types
  import opened Constants
  import opened Store
  import opened WorkingSet
  import opened Notification

  datatype ToastKind = Success | Info | Failure

  /** The transient notification shown in the corner of the screen. */
  datatype Toast = Toast(message: string, kind: ToastKind)

  const TokenKey := "fonnte_token"
  const DefaultAdmin := UserRecord("admin", "password123", Admin)
  const TokenMissing := Toast("API Token Fonnte belum diatur.", Failure)
  const ExpenseSaved := Toast("Catatan pengeluaran berhasil disimpan", Success)

  function OrderCreated(id: string): Toast
  {
    Toast("Pesanan " + id + " berhasil dibuat!", Success)
  }

  /** An expense from its form draft, with the caller's id and date. */
  function ExpenseFromDraft(d: ExpenseDraft, id: string, now: int): (e: Expense)
    ensures e.id == id && e.date == now
    ensures e.category == d.category && e.amount == d.amount && e.description == d.description
  {
    Expense(id, d.category, d.amount, d.description, now)
  }

  /** Lists every stored order exactly once. */
  ghost predicate ListsStoredOrders(os: seq<Order>, m: map<string, Order>)
  {
    |os| == |m| &&
    (forall k :: k in m ==> m[k] in os) &&
    (forall i :: 0 <= i < |os| ==> os[i].id in m && m[os[i].id] == os[i])
  }

  /** Lists every stored expense exactly once. */
  ghost predicate ListsStoredExpenses(es: seq<Expense>, m: map<string, Expense>)
  {
    |es| == |m| &&
    (forall k :: k in m ==> m[k] in es) &&
    (forall i :: 0 <= i < |es| ==> es[i].id in m && m[es[i].id] == es[i])
  }

  /** Sorting the loaded orders keeps them an exact listing of the store. */
  lemma SortKeepsStoredOrders(m: map<string, Order>, loaded: seq<Order>)
    requires ListsStoredOrders(loaded, m)
    ensures ListsStoredOrders(SortNewestFirst(loaded), m)
  {
    var r := SortNewestFirst(loaded);
    forall i | 0 <= i < |r| ensures r[i].id in m && m[r[i].id] == r[i] {
      assert r[i] in multiset(loaded);
    }
    forall k | k in m ensures m[k] in r {
      assert m[k] in multiset(r);
    }
  }

  /** Start-up seeding: the default administrator is stored when no user
      named `admin` exists. */
  method SeedAdmin(db: Store)
    requires db.Valid()
    modifies db
    ensures db.Valid()
    ensures db.users == if "admin" in old(db.users) then old(db.users)
                        else old(db.users)["admin" := DefaultAdmin]
    ensures db.orders == old(db.orders) && db.transaksi == old(db.transaksi)
    ensures db.settings == old(db.settings)
  {
    if db.GetUser("admin").None? {
      db.PutUser(DefaultAdmin);
    }
  }

  /** The start-up load: seed the administrator, read both collections,
      order the orders newest first, and read the stored token. */
  method Load(db: Store) returns (os: seq<Order>, es: seq<Expense>, token: string)
    requires db.Valid()
    modifies db
    ensures db.Valid()
    ensures db.users == if "admin" in old(db.users) then old(db.users)
                        else old(db.users)["admin" := DefaultAdmin]
    ensures db.orders == old(db.orders) && db.transaksi == old(db.transaksi)
    ensures db.settings == old(db.settings)
    ensures NewestFirst(os) && ListsStoredOrders(os, db.orders)
    ensures ListsStoredExpenses(es, db.transaksi)
    ensures token == if TokenKey in db.settings then db.settings[TokenKey] else ""
  {
    SeedAdmin(db);
    var loaded := db.GetAllOrders();
    es := db.GetAllExpenses();
    var tokenSetting := db.GetSetting(TokenKey);
    os := SortNewestFirst(loaded);
    SortKeepsStoredOrders(db.orders, loaded);
    token := if tokenSetting.Some? then tokenSetting.value else "";
  }

  class Shop {
    const store: Store
    /** The locale currency formatter, treated as an opaque function. */
    const localeFormat: real -> string

    var orders: seq<Order>
    var expenses: seq<Expense>
    var fonnteToken: string
    var isNewOrderOpen: bool
    var notification: Option<Toast>
    /** Every invocation of the notification sender, in call order. */
    var outbox: seq<Dispatch>

    ghost predicate Valid()
      reads this, store
    {
      store.Valid()
    }

    /** Start-up: seed the default administrator when absent, load both
        collections, order the orders newest first, and read the token. */
    constructor Init(db: Store, localeFormat: real -> string)
      requires db.Valid()
      modifies db
      ensures store == db && this.localeFormat == localeFormat && Valid()
      ensures store.users == if "admin" in old(db.users) then old(db.users)
                             else old(db.users)["admin" := DefaultAdmin]
      ensures store.orders == old(db.orders) && store.transaksi == old(db.transaksi)
      ensures store.settings == old(db.settings)
      ensures NewestFirst(orders) && ListsStoredOrders(orders, store.orders)
      ensures ListsStoredExpenses(expenses, store.transaksi)
      ensures fonnteToken == if TokenKey in store.settings then store.settings[TokenKey] else ""
      ensures !isNewOrderOpen && notification == None && outbox == []
    {
      var os, es, token := Load(db);
      store := db;
      this.localeFormat := localeFormat;
      orders, expenses, fonnteToken := os, es, token;
      isNewOrderOpen, notification, outbox := false, None, [];
    }

    /** The intake callback: a new PENDING order goes to the front of the
        list and into the store; the intake form closes. */
    method AddOrder(draft: OrderDraft, id: string, now: int)
      requires Valid()
      modifies this, store
      ensures Valid()
      ensures orders == [FromDraft(draft, id, now)] + old(orders)
      ensures store.orders == old(store.orders)[id := FromDraft(draft, id, now)]
      ensures store.users == old(store.users) && store.transaksi == old(store.transaksi)
      ensures store.settings == old(store.settings)
      ensures expenses == old(expenses) && fonnteToken == old(fonnteToken) && outbox == old(outbox)
      ensures !isNewOrderOpen && notification == Some(OrderCreated(id))
      ensures NoWaStatus(old(orders)) ==> NoWaStatus(orders)
    {
      var order := FromDraft(draft, id, now);
      store.PutOrder(order);
      orders := [order] + orders;
      isNewOrderOpen := false;
      notification := Some(OrderCreated(id));
    }

    /** Sends, or fails to send for want of a token, the notification for an
        order entering `status`. The gateway's reply is not modelled. */
    method SendFonnteNotification(order: Order, status: OrderStatus)
      modifies this
      ensures outbox == old(outbox) + [SendNotification(fonnteToken, order, status, localeFormat(order.totalPrice))]
      ensures notification == if fonnteToken == "" then Some(TokenMissing) else old(notification)
      ensures orders == old(orders) && expenses == old(expenses) && fonnteToken == old(fonnteToken)
      ensures isNewOrderOpen == old(isNewOrderOpen)
    {
      var d := SendNotification(fonnteToken, order, status, localeFormat(order.totalPrice));
      outbox := outbox + [d];
      if d.NotConfigured? {
        notification := Some(TokenMissing);
      }
    }

    /** Rewrites the status of the orders carrying `id`. When one exists, the
        first such order is written back to the store, and a notification is
        attempted when the new status is PROCESSING or COMPLETED. An unknown
        id changes nothing and reports nothing. */
    method UpdateOrderStatus(id: string, newStatus: OrderStatus)
      requires Valid()
      modifies this, store
      ensures Valid()
      ensures orders == SetStatusById(old(orders), id, newStatus)
      ensures expenses == old(expenses) && fonnteToken == old(fonnteToken)
      ensures isNewOrderOpen == old(isNewOrderOpen)
      ensures store.users == old(store.users) && store.transaksi == old(store.transaksi)
      ensures store.settings == old(store.settings)
      ensures FindById(old(orders), id).None? ==>
                store.orders == old(store.orders) && outbox == old(outbox) &&
                notification == old(notification)
      ensures FindById(old(orders), id).Some? ==>
                var target := FindById(old(orders), id).value.(status := newStatus);
                store.orders == old(store.orders)[id := target] &&
                if Notifies(newStatus) then
                  outbox == old(outbox) + [SendNotification(fonnteToken, target, newStatus, localeFormat(target.totalPrice))] &&
                  notification == (if fonnteToken == "" then Some(TokenMissing) else old(notification))
                else
                  outbox == old(outbox) && notification == old(notification)
      ensures NoWaStatus(old(orders)) ==> NoWaStatus(orders)
    {
      var before := orders;
      if NoWaStatus(before) {
        SetStatusKeepsNoWaStatus(before, id, newStatus);
      }
      FindAfterSetStatus(before, id, newStatus);
      var updated := SetStatusById(before, id, newStatus);
      var target := FindById(updated, id);
      orders := updated;
      if target.Some? {
        store.PutOrder(target.value);
        if Notifies(newStatus) {
          SendFonnteNotification(target.value, newStatus);
        }
      }
    }

    /** The expense callback: the new expense goes to the front of the list
        and into the store. */
    method AddExpense(draft: ExpenseDraft, id: string, now: int)
      requires Valid()
      modifies this, store
      ensures Valid()
      ensures expenses == [ExpenseFromDraft(draft, id, now)] + old(expenses)
      ensures store.transaksi == old(store.transaksi)[id := ExpenseFromDraft(draft, id, now)]
      ensures store.users == old(store.users) && store.orders == old(store.orders)
      ensures store.settings == old(store.settings)
      ensures orders == old(orders) && fonnteToken == old(fonnteToken) && outbox == old(outbox)
      ensures isNewOrderOpen == old(isNewOrderOpen)
      ensures notification == Some(ExpenseSaved)
    {
      var expense := ExpenseFromDraft(draft, id, now);
      store.PutExpense(expense);
      expenses := [expense] + expenses;
      notification := Some(ExpenseSaved);
    }

    /** Settings callback: the token is kept in memory and in the store. */
    method SaveFonnteToken(newToken: string)
      requires Valid()
      modifies this, store
      ensures Valid()
      ensures fonnteToken == newToken
      ensures store.settings == old(store.settings)[TokenKey := newToken]
      ensures store.users == old(store.users) && store.orders == old(store.orders)
      ensures store.transaksi == old(store.transaksi)
      ensures orders == old(orders) && expenses == old(expenses) && outbox == old(outbox)
      ensures isNewOrderOpen == old(isNewOrderOpen) && notification == old(notification)
    {
      fonnteToken := newToken;
      store.PutSetting(TokenKey, newToken);
    }

    /** The header button opens the intake form. */
    method OpenNewOrder()
      modifies this`isNewOrderOpen
      ensures isNewOrderOpen
    {
      isNewOrderOpen := true;
    }
  }

  /** Only an order entering PROCESSING or COMPLETED is ever notified about:
      reaching PICKED_UP, or staying PENDING, never reaches the sender. */
  lemma PickedUpNeverNotifies(s: OrderStatus)
    ensures Notifies(s) <==> Rank(s) == 1 || Rank(s) == 2
    ensures !Notifies(PickedUp) && !Notifies(Pending)
  {
  }
}
