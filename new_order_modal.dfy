/** The intake form: the price and completion estimate it previews, and its
    submit handler, which hands the order to the app and also writes a second
    order record of its own to the store before resetting the form. */
module NewOrderModal {
  import opened Types
  import opened Constants
  import opened WorkingSet
  import opened App

  /** Unit price times weight. */
  function PreviewPrice(st: ServiceType, weight: real): (p: real)
    ensures weight > 0.0 ==> p > 0.0
    ensures weight == 0.0 ==> p == 0.0
  {
    ServicePrice(st) as real * weight
  }

  /** The creation time plus the service's turnaround. */
  function Estimate(st: ServiceType, now: int): (e: int)
    ensures now < e <= now + EstimatedHours(DryClean)
  {
    now + EstimatedHours(st)
  }

  /** The preview price grows with the weight, and for the same weight dry
      cleaning costs the most. */
  lemma PreviewPriceOrder(st: ServiceType, w1: real, w2: real)
    requires 0.0 <= w1 <= w2
    ensures PreviewPrice(st, w1) <= PreviewPrice(st, w2)
    ensures PreviewPrice(st, w2) <= PreviewPrice(DryClean, w2)
  {
  }

  /** Five kilograms of wash-and-iron cost 50000. */
  lemma SampleWashIron()
    ensures PreviewPrice(WashIron, 5.0) == 50000.0
  {
  }

  datatype OrderForm = OrderForm(
    customerName: string, phoneNumber: string, weight: real, serviceType: ServiceType)

  const InitialForm := OrderForm("", "", 0.0, WashFold)

  class OrderModal {
    var form: OrderForm
    var totalPrice: real
    var estimation: int

    /** The previewed price always matches the form. */
    ghost predicate Valid()
      reads this
    {
      totalPrice == PreviewPrice(form.serviceType, form.weight)
    }

    /** Mounting computes the preview for the initial form at time `now`. */
    constructor (now: int)
      ensures Valid() && form == InitialForm
      ensures totalPrice == 0.0 && estimation == Estimate(WashFold, now)
    {
      form := InitialForm;
      totalPrice := PreviewPrice(WashFold, 0.0);
      estimation := Estimate(WashFold, now);
    }

    /** A field edit at time `now`. The preview is recomputed only when the
        weight or the service changed. */
    method Edit(f: OrderForm, now: int)
      requires Valid()
      modifies this
      ensures Valid() && form == f
      ensures if f.weight != old(form.weight) || f.serviceType != old(form.serviceType)
              then estimation == Estimate(f.serviceType, now)
              else estimation == old(estimation)
    {
      var recompute := f.weight != form.weight || f.serviceType != form.serviceType;
      form := f;
      if recompute {
        totalPrice := PreviewPrice(f.serviceType, f.weight);
        estimation := Estimate(f.serviceType, now);
      }
    }

    predicate CanSubmit()
      reads this
    {
      form.weight > 0.0 && form.customerName != ""
    }

    /** What the form hands to the app's intake callback. */
    function Draft(): (d: OrderDraft)
      reads this
      requires Valid()
      ensures d.totalPrice == PreviewPrice(d.serviceType, d.weight)
      ensures d.customerName == form.customerName && d.phoneNumber == form.phoneNumber
      ensures d.weight == form.weight && d.serviceType == form.serviceType
      ensures d.estimatedCompletion == estimation
    {
      OrderDraft(form.customerName, form.phoneNumber, form.weight, form.serviceType,
                 totalPrice, estimation)
    }

    /** The record the form writes itself, under `order-<suffix>`. */
    function OwnRecord(suffix: string, now: int): (o: Order)
      reads this
      requires Valid()
      ensures o.id == "order-" + suffix && o.status == Pending && o.createdAt == now
      ensures o.totalPrice == totalPrice && o.estimatedCompletion == estimation
      ensures o == FromDraft(Draft(), "order-" + suffix, now)
    {
      Order("order-" + suffix, form.customerName, form.phoneNumber, form.weight,
            form.serviceType, totalPrice, Pending, now, estimation, None)
    }

    /** Submit at time `now`. An invalid form does nothing. A valid one hands
        its draft to the app under `appId`, writes a second PENDING record
        under `order-<suffix>`, and resets the form (which recomputes the
        preview for the empty form). */
    method Submit(shop: Shop, appId: string, suffix: string, now: int) returns (submitted: bool)
      requires Valid() && shop.Valid()
      modifies this, shop, shop.store
      ensures Valid() && shop.Valid()
      ensures submitted == old(CanSubmit())
      ensures !submitted ==> unchanged(this) && unchanged(shop) && unchanged(shop.store)
      ensures submitted ==>
                var placed := FromDraft(old(Draft()), appId, now);
                var own := old(OwnRecord(suffix, now));
                shop.orders == [placed] + old(shop.orders) &&
                shop.store.orders == old(shop.store.orders)[appId := placed][own.id := own] &&
                shop.store.users == old(shop.store.users) &&
                shop.store.transaksi == old(shop.store.transaksi) &&
                shop.store.settings == old(shop.store.settings) &&
                shop.expenses == old(shop.expenses) && shop.outbox == old(shop.outbox) &&
                shop.fonnteToken == old(shop.fonnteToken) &&
                !shop.isNewOrderOpen && shop.notification == Some(OrderCreated(appId)) &&
                form == InitialForm && totalPrice == 0.0 &&
                estimation == Estimate(WashFold, now)
    {
      submitted := CanSubmit();
      if submitted {
        var draft := Draft();
        var own := OwnRecord(suffix, now);
        shop.AddOrder(draft, appId, now);
        shop.store.PutOrder(own);
        Edit(InitialForm, now);
      }
    }
  }

  /** The two writes of a valid submit land under two different keys: the
      app's ids are at most six characters, the form's are longer. So the
      store gains two records for one order, while the app's list gains one. */
  lemma SubmitWritesTwoRecords(
    before: map<string, Order>, placed: Order, own: Order, appId: string, suffix: string)
    requires |appId| <= 6 && suffix != "" && placed.id == appId && own.id == "order-" + suffix
    ensures var after := before[appId := placed][own.id := own];
            appId != own.id && appId in after && own.id in after &&
            after[appId] == placed && after[own.id] == own &&
            after.Keys == before.Keys + {appId, own.id}
  {
    assert |own.id| == 6 + |suffix|;
  }
}
