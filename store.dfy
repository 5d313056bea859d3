/** The persistent store, kept abstract: four independent collections, each
    a map from a record's own key to the record (`users` keyed by username,
    `orders` and `transaksi` by id, `settings` by key), with upsert, get by
    key and get-all. */
module Store {
  import opened Types

  datatype UserRecord = UserRecord(username: string, password: string, role: Role)

  /** Lists the values of a map, one per key, in an unspecified order. The
      ghost `ks` names the key each listed value was read from. */
  method ListValues<V(==)>(m: map<string, V>) returns (vs: seq<V>, ghost ks: seq<string>)
    ensures |vs| == |m| && |ks| == |vs|
    ensures forall i, j :: 0 <= i < j < |ks| ==> ks[i] != ks[j]
    ensures forall i :: 0 <= i < |ks| ==> ks[i] in m && vs[i] == m[ks[i]]
    ensures forall k :: k in m ==> k in ks && m[k] in vs
    ensures forall i :: 0 <= i < |vs| ==> vs[i] in m.Values
  {
    var rest := m.Keys;
    vs, ks := [], [];
    while rest != {}
      invariant rest <= m.Keys
      invariant |vs| == |ks| && |ks| + |rest| == |m.Keys|
      invariant forall i, j :: 0 <= i < j < |ks| ==> ks[i] != ks[j]
      invariant forall i :: 0 <= i < |ks| ==> ks[i] in m && ks[i] !in rest && vs[i] == m[ks[i]]
      invariant forall k :: k in m && k !in rest ==> k in ks
      decreases |rest|
    {
      var k :| k in rest;
      vs, ks := vs + [m[k]], ks + [k];
      rest := rest - {k};
    }
    forall k | k in m ensures m[k] in vs {
      var i :| 0 <= i < |ks| && ks[i] == k;
      assert vs[i] == m[k];
    }
  }

  class Store {
    var users: map<string, UserRecord>
    var orders: map<string, Order>
    var transaksi: map<string, Expense>
    var settings: map<string, string>

    /** Every record sits under its own key. */
    ghost predicate Valid()
      reads this
    {
      (forall k :: k in users ==> users[k].username == k) &&
      (forall k :: k in orders ==> orders[k].id == k) &&
      (forall k :: k in transaksi ==> transaksi[k].id == k)
    }

    constructor ()
      ensures Valid()
      ensures users == map[] && orders == map[] && transaksi == map[] && settings == map[]
    {
      users, orders, transaksi, settings := map[], map[], map[], map[];
    }

    function GetUser(username: string): (r: Option<UserRecord>)
      reads this
      requires Valid()
      ensures r.Some? <==> username in users
      ensures r.Some? ==> r.value == users[username] && r.value.username == username
    {
      if username in users then Some(users[username]) else None
    }

    function GetSetting(key: string): (r: Option<string>)
      reads this
      ensures r.Some? <==> key in settings
      ensures r.Some? ==> r.value == settings[key]
    {
      if key in settings then Some(settings[key]) else None
    }

    method PutUser(u: UserRecord)
      requires Valid()
      modifies this
      ensures Valid()
      ensures users == old(users)[u.username := u]
      ensures orders == old(orders) && transaksi == old(transaksi) && settings == old(settings)
    {
      users := users[u.username := u];
    }

    method PutOrder(o: Order)
      requires Valid()
      modifies this
      ensures Valid()
      ensures orders == old(orders)[o.id := o]
      ensures users == old(users) && transaksi == old(transaksi) && settings == old(settings)
    {
      orders := orders[o.id := o];
    }

    method PutExpense(e: Expense)
      requires Valid()
      modifies this
      ensures Valid()
      ensures transaksi == old(transaksi)[e.id := e]
      ensures users == old(users) && orders == old(orders) && settings == old(settings)
    {
      transaksi := transaksi[e.id := e];
    }

    method PutSetting(key: string, value: string)
      requires Valid()
      modifies this
      ensures Valid()
      ensures settings == old(settings)[key := value]
      ensures users == old(users) && orders == old(orders) && transaksi == old(transaksi)
    {
      settings := settings[key := value];
    }

    /** All stored orders, one per id, in an unspecified order. */
    method GetAllOrders() returns (os: seq<Order>)
      requires Valid()
      ensures |os| == |orders|
      ensures forall k :: k in orders ==> orders[k] in os
      ensures forall i :: 0 <= i < |os| ==> os[i].id in orders && orders[os[i].id] == os[i]
    {
      ghost var ks;
      os, ks := ListValues(orders);
    }

    /** All stored expenses, one per id, in an unspecified order. */
    method GetAllExpenses() returns (es: seq<Expense>)
      requires Valid()
      ensures |es| == |transaksi|
      ensures forall k :: k in transaksi ==> transaksi[k] in es
      ensures forall i :: 0 <= i < |es| ==> es[i].id in transaksi && transaksi[es[i].id] == es[i]
    {
      ghost var ks;
      es, ks := ListValues(transaksi);
    }
  }
}
