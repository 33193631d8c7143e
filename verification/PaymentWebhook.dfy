/**
 Webhook deliveries, each processed whole: the event id is claimed first, and only the request that
 claims it acts on the booking its order belongs to.
 */
module PaymentWebhook {
  import opened Common
  import opened BookingTypes
  import opened BookingStore
  import opened BookingProtocol
  import opened BookingInvariant

  datatype Delivery = Delivery(at: int, event: string, payload: PaymentEvent)

  datatype Tables = Tables(bookings: map<Id, Booking>, events: set<string>)

  // An event that can settle the payment of an order.
  predicate Names(payload: PaymentEvent, order: Option<Id>) {
    order.Some? &&
    match payload
    case PaymentCaptured(o, payment) => o == order && payment.Some?
    case PaymentFailure(o) => o == order
    case OtherEvent => false
  }

  function Settled(b: Booking, payload: PaymentEvent, at: int): Booking
    requires Names(payload, b.order)
  {
    if payload.PaymentCaptured? then
      b.(status := Confirmed, payment := payload.payment, confirmedAt := Some(at))
    else
      b.(status := PaymentFailed)
  }

  // The effect of a claimed event on the booking table.
  ghost function Settle(bookings: map<Id, Booking>, payload: PaymentEvent, at: int): map<Id, Booking> {
    if payload.OtherEvent? || !Names(payload, payload.order) then
      bookings
    else
      match FindByOrder(bookings, payload.order)
      case None => bookings
      case Some(id) =>
        if bookings[id].status == PendingPayment then
          bookings[id := Settled(bookings[id], payload, at)]
        else
          bookings
  }

  ghost function Deliver(t: Tables, d: Delivery): Tables {
    if d.event in t.events then
      t
    else
      Tables(Settle(t.bookings, d.payload, d.at), t.events + {d.event})
  }

  ghost function DeliverAll(t: Tables, ds: seq<Delivery>): Tables
    decreases ds
  {
    if ds == [] then t else DeliverAll(Deliver(t, ds[0]), ds[1..])
  }

  // The deliveries whose event id is in no earlier delivery and not in seen.
  function Distinct(ds: seq<Delivery>, seen: set<string>): seq<Delivery> {
    if ds == [] then
      []
    else if ds[0].event in seen then
      Distinct(ds[1..], seen)
    else
      [ds[0]] + Distinct(ds[1..], seen + {ds[0].event})
  }

  // Redelivered events change nothing: the tables end up as if each event had arrived once.
  lemma {:induction false} RedeliveriesChangeNothing(t: Tables, ds: seq<Delivery>)
    ensures DeliverAll(t, ds) == DeliverAll(t, Distinct(ds, t.events))
    decreases ds
  {
    if ds == [] {
    } else {
      RedeliveriesChangeNothing(Deliver(t, ds[0]), ds[1..]);
      if ds[0].event !in t.events {
        var rest := Distinct(ds[1..], t.events + {ds[0].event});
        assert ([ds[0]] + rest)[1..] == rest;
      }
    }
  }

  // The first delivery that claims its event and names the order.
  function First(ds: seq<Delivery>, seen: set<string>, order: Option<Id>): (first: Option<Delivery>)
    ensures first.Some? ==> first.value in ds && first.value.event !in seen && Names(first.value.payload, order)
  {
    if ds == [] then
      None
    else if ds[0].event !in seen && Names(ds[0].payload, order) then
      Some(ds[0])
    else
      First(ds[1..], seen + {ds[0].event}, order)
  }

  lemma SettleKeepsOthers(t: Tables, d: Delivery, id: Id)
    requires OrdersUnique(t.bookings) && id in t.bookings
    ensures OrdersUnique(Deliver(t, d).bookings) && id in Deliver(t, d).bookings
    ensures Deliver(t, d).bookings[id].order == t.bookings[id].order
    ensures t.bookings[id].status != PendingPayment || d.event in t.events || !Names(d.payload, t.bookings[id].order) ==>
              Deliver(t, d).bookings[id] == t.bookings[id]
    ensures t.bookings[id].status == PendingPayment && d.event !in t.events && Names(d.payload, t.bookings[id].order) ==>
              Deliver(t, d).bookings[id] == Settled(t.bookings[id], d.payload, d.at)
  {
  }

  lemma {:induction false} SettledStays(t: Tables, ds: seq<Delivery>, id: Id)
    requires OrdersUnique(t.bookings) && id in t.bookings && t.bookings[id].status != PendingPayment
    ensures id in DeliverAll(t, ds).bookings && DeliverAll(t, ds).bookings[id] == t.bookings[id]
    decreases ds
  {
    if ds == [] {
    } else {
      SettleKeepsOthers(t, ds[0], id);
      SettledStays(Deliver(t, ds[0]), ds[1..], id);
    }
  }

  // The first captured or failed event for its order decides a pending booking's status and payment,
  // and nothing delivered later changes them; without such an event the booking stays as it is.
  lemma {:induction false} FirstEventWins(t: Tables, ds: seq<Delivery>, id: Id)
    requires OrdersUnique(t.bookings) && id in t.bookings && t.bookings[id].status == PendingPayment
    ensures id in DeliverAll(t, ds).bookings
    ensures var first := First(ds, t.events, t.bookings[id].order);
            DeliverAll(t, ds).bookings[id] ==
              if first.Some? then Settled(t.bookings[id], first.value.payload, first.value.at) else t.bookings[id]
    decreases ds
  {
    if ds == [] {
    } else {
      var d := ds[0];
      SettleKeepsOthers(t, d, id);
      if d.event !in t.events && Names(d.payload, t.bookings[id].order) {
        SettledStays(Deliver(t, d), ds[1..], id);
      } else {
        FirstEventWins(Deliver(t, d), ds[1..], id);
        assert d.event in t.events ==> t.events + {d.event} == t.events;
      }
    }
  }
}
