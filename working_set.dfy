/** The in-memory order list the app keeps: building an order from an intake
    draft, rewriting the status of the orders with a given id, finding the
    first order with an id, and the newest-first ordering applied on load. */
module WorkingSet {
  import opened Types

  /** A fresh order from an intake draft: the caller supplies the id and the
      creation time, the status is PENDING and no message status is set. */
  function FromDraft(d: OrderDraft, id: string, now: int): (o: Order)
    ensures o.id == id && o.createdAt == now && o.status == Pending && o.waStatus == None
    ensures o.customerName == d.customerName && o.phoneNumber == d.phoneNumber
    ensures o.weight == d.weight && o.serviceType == d.serviceType
    ensures o.totalPrice == d.totalPrice && o.estimatedCompletion == d.estimatedCompletion
  {
    Order(id, d.customerName, d.phoneNumber, d.weight, d.serviceType, d.totalPrice,
          Pending, now, d.estimatedCompletion, None)
  }

  /** Every order carrying the id gets the new status; the others, and the
      order of the list, are kept. */
  function SetStatusById(os: seq<Order>, id: string, s: OrderStatus): (r: seq<Order>)
    ensures |r| == |os|
    ensures forall i :: 0 <= i < |os| ==>
              r[i] == if os[i].id == id then os[i].(status := s) else os[i]
  {
    if os == [] then []
    else [if os[0].id == id then os[0].(status := s) else os[0]] + SetStatusById(os[1..], id, s)
  }

  /** The first order carrying the id, if any. */
  function FindById(os: seq<Order>, id: string): (r: Option<Order>)
    ensures r.None? <==> forall i :: 0 <= i < |os| ==> os[i].id != id
    ensures r.Some? ==> exists i :: 0 <= i < |os| && os[i] == r.value && os[i].id == id &&
                                   forall j :: 0 <= j < i ==> os[j].id != id
  {
    if os == [] then None
    else if os[0].id == id then Some(os[0])
    else
      var r := FindById(os[1..], id);
      if r.Some? then
        ghost var i :| 0 <= i < |os| - 1 && os[1..][i] == r.value && os[1..][i].id == id &&
                      forall j :: 0 <= j < i ==> os[1..][j].id != id;
        assert os[i + 1] == r.value;
        assert forall j :: 0 <= j < i + 1 ==> os[j].id != id by {
          forall j | 0 <= j < i + 1 ensures os[j].id != id {
            if j > 0 { assert os[j] == os[1..][j - 1]; }
          }
        }
        r
      else
        assert forall i :: 0 <= i < |os| ==> os[i].id != id by {
          forall i | 0 <= i < |os| ensures os[i].id != id {
            if i > 0 { assert os[i] == os[1..][i - 1]; }
          }
        }
        r
  }

  /** After a status rewrite, the order found under the id is the order found
      before, now carrying the new status. */
  lemma {:induction false} FindAfterSetStatus(os: seq<Order>, id: string, s: OrderStatus)
    ensures FindById(SetStatusById(os, id, s), id) ==
              match FindById(os, id)
              case None => None
              case Some(o) => Some(o.(status := s))
  {
    if os != [] {
      var r := SetStatusById(os, id, s);
      assert r[1..] == SetStatusById(os[1..], id, s);
      FindAfterSetStatus(os[1..], id, s);
    }
  }

  /** No order with the id: the list is left as it is. */
  lemma SetStatusUnknownId(os: seq<Order>, id: string, s: OrderStatus)
    requires forall i :: 0 <= i < |os| ==> os[i].id != id
    ensures SetStatusById(os, id, s) == os
  {
  }

  /** No order in the list carries a message status. */
  predicate NoWaStatus(os: seq<Order>)
  {
    forall i :: 0 <= i < |os| ==> os[i].waStatus == None
  }

  /** A status rewrite never touches message statuses. */
  lemma SetStatusKeepsNoWaStatus(os: seq<Order>, id: string, s: OrderStatus)
    requires NoWaStatus(os)
    ensures NoWaStatus(SetStatusById(os, id, s))
  {
  }

  /** Orders are listed newest first. */
  predicate NewestFirst(os: seq<Order>)
  {
    forall i, j :: 0 <= i < j < |os| ==> os[i].createdAt >= os[j].createdAt
  }

  /** Places an order in a list ahead of the first order that is not newer,
      so equal creation times keep their existing order. */
  function Insert(o: Order, os: seq<Order>): (r: seq<Order>)
    ensures multiset(r) == multiset(os) + multiset{o}
  {
    if os == [] then [o]
    else if o.createdAt >= os[0].createdAt then [o] + os
    else
      assert os == [os[0]] + os[1..];
      [os[0]] + Insert(o, os[1..])
  }

  /** Every order of an insertion is no newer than a bound that the new
      order and every listed order respect. */
  lemma InsertKeepsBound(o: Order, os: seq<Order>, b: int)
    requires o.createdAt <= b
    requires forall i :: 0 <= i < |os| ==> os[i].createdAt <= b
    ensures forall j :: 0 <= j < |Insert(o, os)| ==> Insert(o, os)[j].createdAt <= b
  {
    var r := Insert(o, os);
    forall j | 0 <= j < |r| ensures r[j].createdAt <= b {
      assert r[j] in multiset(r);
      if r[j] != o {
        assert r[j] in multiset(os);
        var k :| 0 <= k < |os| && os[k] == r[j];
      }
    }
  }

  /** An order at least as new as every order of a newest-first list can
      head it. */
  lemma ConsNewestFirst(x: Order, t: seq<Order>)
    requires NewestFirst(t)
    requires forall j :: 0 <= j < |t| ==> t[j].createdAt <= x.createdAt
    ensures NewestFirst([x] + t)
  {
    var r := [x] + t;
    forall i, j | 0 <= i < j < |r| ensures r[i].createdAt >= r[j].createdAt {
      assert r[j] == t[j - 1];
      if i > 0 {
        assert r[i] == t[i - 1];
      }
    }
  }

  lemma {:induction false} InsertNewestFirst(o: Order, os: seq<Order>)
    requires NewestFirst(os)
    ensures NewestFirst(Insert(o, os))
  {
    if os == [] {
    } else if o.createdAt >= os[0].createdAt {
      ConsNewestFirst(o, os);
    } else {
      var tail := os[1..];
      assert NewestFirst(tail);
      InsertNewestFirst(o, tail);
      InsertKeepsBound(o, tail, os[0].createdAt);
      ConsNewestFirst(os[0], Insert(o, tail));
    }
  }

  /** The ordering applied to the orders loaded at start-up: by creation
      time, newest first (an insertion sort; the result is a newest-first
      permutation of its input). */
  function SortNewestFirst(os: seq<Order>): (r: seq<Order>)
    ensures multiset(r) == multiset(os)
    ensures |r| == |os|
    ensures NewestFirst(r)
  {
    if os == [] then []
    else
      assert os == [os[0]] + os[1..];
      var rest := SortNewestFirst(os[1..]);
      InsertNewestFirst(os[0], rest);
      Insert(os[0], rest)
  }
}
