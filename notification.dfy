/** The WhatsApp notification the app prepares when an order changes status:
    the guard on the gateway token and the choice of message template. The
    network call itself is not modelled; a prepared request is a value. */
module Notification {
  import opened Types
  import opened Phone

  /** Only these two target states trigger a notification. */
  predicate Notifies(s: OrderStatus)
  {
    s == Processing || s == Completed
  }

  /** `t` occurs in `s` as a contiguous piece. */
  ghost predicate Contains(s: string, t: string)
  {
    exists pre, post :: s == pre + t + post
  }

  lemma ContainsEnd(a: string, t: string)
    ensures Contains(a + t, t)
  {
    assert a + t == a + t + [];
  }

  lemma ContainsExtend(s: string, t: string, u: string)
    requires Contains(s, t)
    ensures Contains(s + u, t)
  {
    var pre, post :| s == pre + t + post;
    assert s + u == pre + t + (post + u);
  }

  /** The message text for an order entering `status`. `priceText` is the
      locale-formatted total price, which this model treats as opaque. Only
      PROCESSING and COMPLETED have a template; every other status gives the
      empty message. */
  function MessageFor(o: Order, status: OrderStatus, priceText: string): string
  {
    var greeting := "*Smart Laundry Pro*\n\nHalo " + o.customerName + ",\n\n";
    if status == Processing then
      greeting + "Pesanan Anda *" + ("#" + o.id) + "* sedang *DIPROSES*.\nLayanan: "
        + ServiceTag(o.serviceType) + "\nTotal: " + ("Rp " + priceText) + "\n\nTerima kasih!"
    else if status == Completed then
      greeting + "Kabar baik! Pesanan Anda *" + ("#" + o.id)
        + "* sudah *SELESAI* dan siap diambil.\n\nTotal Bayar: *" + ("Rp " + priceText) + "*"
    else ""
  }

  /** A message is produced exactly for the two notifying states. */
  lemma MessageOnlyWhenNotifying(o: Order, status: OrderStatus, priceText: string)
    ensures MessageFor(o, status, priceText) != [] <==> Notifies(status)
  {
  }

  /** The PROCESSING message names the order as `#<id>`, the service and the
      price. */
  lemma ProcessingMessageMentions(o: Order, priceText: string)
    ensures Contains(MessageFor(o, Processing, priceText), "#" + o.id)
    ensures Contains(MessageFor(o, Processing, priceText), ServiceTag(o.serviceType))
    ensures Contains(MessageFor(o, Processing, priceText), "Rp " + priceText)
  {
    var hash, tag, price := "#" + o.id, ServiceTag(o.serviceType), "Rp " + priceText;
    var s1 := "*Smart Laundry Pro*\n\nHalo " + o.customerName + ",\n\n" + "Pesanan Anda *";
    var s2 := s1 + hash;
    var s3 := s2 + "* sedang *DIPROSES*.\nLayanan: ";
    var s4 := s3 + tag;
    var s5 := s4 + "\nTotal: ";
    var s6 := s5 + price;
    var m := s6 + "\n\nTerima kasih!";
    assert m == MessageFor(o, Processing, priceText);
    ContainsEnd(s1, hash);
    ContainsExtend(s2, hash, "* sedang *DIPROSES*.\nLayanan: ");
    ContainsExtend(s3, hash, tag);
    ContainsExtend(s4, hash, "\nTotal: ");
    ContainsExtend(s5, hash, price);
    ContainsExtend(s6, hash, "\n\nTerima kasih!");
    ContainsEnd(s3, tag);
    ContainsExtend(s4, tag, "\nTotal: ");
    ContainsExtend(s5, tag, price);
    ContainsExtend(s6, tag, "\n\nTerima kasih!");
    ContainsEnd(s5, price);
    ContainsExtend(s6, price, "\n\nTerima kasih!");
  }

  /** The COMPLETED message names the order as `#<id>` and the price. */
  lemma CompletedMessageMentions(o: Order, priceText: string)
    ensures Contains(MessageFor(o, Completed, priceText), "#" + o.id)
    ensures Contains(MessageFor(o, Completed, priceText), "Rp " + priceText)
  {
    var hash, price := "#" + o.id, "Rp " + priceText;
    var s1 := "*Smart Laundry Pro*\n\nHalo " + o.customerName + ",\n\n" + "Kabar baik! Pesanan Anda *";
    var s2 := s1 + hash;
    var s3 := s2 + "* sudah *SELESAI* dan siap diambil.\n\nTotal Bayar: *";
    var s4 := s3 + price;
    var m := s4 + "*";
    assert m == MessageFor(o, Completed, priceText);
    ContainsEnd(s1, hash);
    ContainsExtend(s2, hash, "* sudah *SELESAI* dan siap diambil.\n\nTotal Bayar: *");
    ContainsExtend(s3, hash, price);
    ContainsExtend(s4, hash, "*");
    ContainsEnd(s3, price);
    ContainsExtend(s4, price, "*");
  }

  /** The outcome of one call to send a notification. */
  datatype Dispatch =
    | NotConfigured
      // no token: nothing is sent and an error is shown
    | Send(authorization: string, target: string, message: string)
      // a request to the gateway's send endpoint

  /** Prepares the gateway request for an order entering `status`, or stops
      when no token has been configured. */
  function SendNotification(token: string, o: Order, status: OrderStatus, priceText: string): (d: Dispatch)
    ensures d.NotConfigured? <==> token == ""
    ensures d.Send? ==> d.authorization == token
    ensures d.Send? ==> AllDigits(d.target) && (d.target == [] || d.target[0] != '0')
  {
    if token == "" then NotConfigured
    else Send(token, FormatPhoneNumber(o.phoneNumber), MessageFor(o, status, priceText))
  }

  /** A request made on entry to PROCESSING or COMPLETED goes to the normalised
      number and carries a non-empty message that names the order. */
  lemma SendCarriesOrder(token: string, o: Order, status: OrderStatus, priceText: string)
    requires token != "" && Notifies(status)
    ensures var d := SendNotification(token, o, status, priceText);
            d.Send? && d.target == FormatPhoneNumber(o.phoneNumber) &&
            d.message != [] && Contains(d.message, "#" + o.id)
  {
    MessageOnlyWhenNotifying(o, status, priceText);
    if status == Processing {
      ProcessingMessageMentions(o, priceText);
    } else {
      CompletedMessageMentions(o, priceText);
    }
  }
}
