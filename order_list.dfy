/** The order table's row logic: which status button a row offers, and the
    label shown for an order's message status. These buttons are the only
    way the app changes an order's status; nothing else checks transitions. */
module OrderList {
  import opened Types
  import opened WorkingSet

  /** The lifecycle successor of a status; PICKED_UP has none. */
  function NextStatus(s: OrderStatus): (r: Option<OrderStatus>)
    ensures r.None? <==> s == PickedUp
    ensures r.Some? ==> Rank(r.value) == Rank(s) + 1
  {
    match s
    case Pending => Some(Processing)
    case Processing => Some(Completed)
    case Completed => Some(PickedUp)
    case PickedUp => None
  }

  /** A status button: the order it acts on and the status it requests. */
  datatype StatusAction = StatusAction(orderId: string, newStatus: OrderStatus)

  /** The status buttons a row renders: three independent conditionals on the
      row's status, each bound to the row's own id. */
  function RowActions(o: Order): seq<StatusAction>
  {
    (if o.status == Pending then [StatusAction(o.id, Processing)] else []) +
    (if o.status == Processing then [StatusAction(o.id, Completed)] else []) +
    (if o.status == Completed then [StatusAction(o.id, PickedUp)] else [])
  }

  /** A row offers exactly one button, for its own order and the next status,
      except a PICKED_UP row, which offers none. */
  lemma RowActionsFollowLifecycle(o: Order)
    ensures RowActions(o) == match NextStatus(o.status)
                             case None => []
                             case Some(t) => [StatusAction(o.id, t)]
    ensures o.status == PickedUp <==> RowActions(o) == []
    ensures forall a :: a in RowActions(o) ==>
              a.orderId == o.id && Rank(a.newStatus) == Rank(o.status) + 1
  {
  }

  /** The status after `n` presses of the offered button (stopping at the
      terminal state). */
  function Advance(s: OrderStatus, n: nat): OrderStatus
    decreases n
  {
    if n == 0 then s
    else match NextStatus(s)
         case None => s
         case Some(t) => Advance(t, n - 1)
  }

  /** Each press moves one step forward until PICKED_UP: after `n` presses
      the rank is `min(3, rank + n)`. */
  lemma {:induction false} AdvanceRank(s: OrderStatus, n: nat)
    ensures Rank(Advance(s, n)) == if Rank(s) + n <= 3 then Rank(s) + n else 3
    decreases n
  {
    if n > 0 && NextStatus(s).Some? {
      AdvanceRank(NextStatus(s).value, n - 1);
    }
  }

  /** A new order reaches PICKED_UP after exactly three presses, and not
      before. */
  lemma ThreeStepsToPickUp(n: nat)
    ensures Advance(Pending, n) == PickedUp <==> n >= 3
  {
    AdvanceRank(Pending, n);
    RankInjective(Advance(Pending, n), PickedUp);
  }

  /** Ids in the list are pairwise distinct. */
  predicate UniqueIds(os: seq<Order>)
  {
    forall i, j :: 0 <= i < j < |os| ==> os[i].id != os[j].id
  }

  /** Pressing a row's button, with distinct ids, advances that row by one
      step and leaves every other row as it was; no row moves backward. */
  lemma PressAdvancesOnlyItsRow(os: seq<Order>, k: nat, a: StatusAction)
    requires UniqueIds(os) && k < |os| && a in RowActions(os[k])
    ensures var r := SetStatusById(os, a.orderId, a.newStatus);
            |r| == |os| &&
            Rank(r[k].status) == Rank(os[k].status) + 1 &&
            r[k] == os[k].(status := a.newStatus) &&
            (forall i :: 0 <= i < |os| && i != k ==> r[i] == os[i]) &&
            (forall i :: 0 <= i < |os| ==> Rank(r[i].status) >= Rank(os[i].status))
  {
    RowActionsFollowLifecycle(os[k]);
  }

  /** Without distinct ids the forward-only rule fails: one press rewrites
      every order sharing the id, moving a COMPLETED order back. */
  lemma SharedIdMovesBackward(p: Order, c: Order)
    requires p.id == c.id && p.status == Pending && c.status == Completed
    ensures var r := SetStatusById([p, c], p.id, Processing);
            StatusAction(p.id, Processing) in RowActions(p) &&
            Rank(r[1].status) < Rank(c.status)
  {
  }

  /** The label of the message-status badge; no badge for a missing or empty
      status, fixed labels for the five known ones, and the raw string for
      anything else. */
  function WaLabel(w: Option<string>): (r: Option<string>)
    ensures r.None? <==> w == None || w == Some("")
    ensures r.Some? && w.value !in {"pending", "sent", "delivered", "read", "failed"} ==> r.value == w.value
  {
    match w
    case None => None
    case Some(s) =>
      if s == "" then None
      else if s == "pending" then Some("Pending")
      else if s == "sent" then Some("Terkirim")
      else if s == "delivered" then Some("Sampai")
      else if s == "read" then Some("Dibaca")
      else if s == "failed" then Some("Gagal")
      else Some(s)
  }

  lemma WaLabelKnown()
    ensures WaLabel(Some("pending")) == Some("Pending")
    ensures WaLabel(Some("sent")) == Some("Terkirim")
    ensures WaLabel(Some("delivered")) == Some("Sampai")
    ensures WaLabel(Some("read")) == Some("Dibaca")
    ensures WaLabel(Some("failed")) == Some("Gagal")
  {
  }
}
