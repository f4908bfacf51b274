/** The store as its handlers are written, one request at a time: order records, the
    payment stub and the tables are updated in place. */
module FlashStore {
  import opened Prelude
  import opened FlashModel
  import opened FlashAtomic

  /** An order's dictionary: the terms never change, the other fields are written in place. */
  class OrderRecord {
    const terms: Order
    var chargeId: Option<nat>
    var status: Status
    var released: bool
    var failureStatus: Option<int>

    constructor (order: Order)
      ensures terms == order && View() == order
    {
      terms := order;
      chargeId, status, released, failureStatus := order.chargeId, order.status, order.released, order.failureStatus;
    }

    function View(): Order
      reads this
    {
      terms.(chargeId := chargeId, status := status, released := released, failureStatus := failureStatus)
    }
  }

  class PaymentStub {
    var charges: map<PaymentKey, Charge>
    var timeoutKeys: set<PaymentKey>

    constructor ()
      ensures charges == map[] && timeoutKeys == {}
    {
      charges, timeoutKeys := map[], {};
    }

    method Charge(key: PaymentKey, amount: int, token: Token) returns (result: ChargeResult)
      modifies this
      ensures (charges, timeoutKeys, result) == ChargeLedger(old(charges), old(timeoutKeys), key, amount, token)
    {
      if key in charges { return Charged(charges[key].number); }
      if token == Decline { return Declined; }
      var charge := FlashModel.Charge(|charges| + 1, amount);
      charges := charges[key := charge];
      if token == TimeoutOnce && key !in timeoutKeys {
        timeoutKeys := timeoutKeys + {key};
        return TimedOut;
      }
      return Charged(charge.number);
    }
  }

  class Store {
    var stock: int
    var price: nat
    var orders: map<OrderId, OrderRecord>
    var idempotency: map<Identity, OrderId>
    var processed: set<EventId>
    var effects: map<EventId, nat>
    const payment: PaymentStub

    ghost predicate Valid()
      reads this, orders.Values
    {
      && (forall oid :: oid in orders ==> orders[oid].terms.id == oid)
      && (forall i :: i in idempotency ==> idempotency[i] in orders)
    }

    /** The tables as plain data. */
    ghost function View(): (d: Data)
      reads this, payment, orders.Values
      requires Valid()
      ensures WellFormed(d)
    {
      Data(stock, price, map oid | oid in orders :: orders[oid].View(), idempotency,
           processed, effects, payment.charges, payment.timeoutKeys)
    }

    constructor (initialStock: nat, catalogPrice: nat)
      ensures Valid() && View() == Init(initialStock, catalogPrice).sh.d
      ensures fresh(payment)
    {
      stock, price := initialStock, catalogPrice;
      orders, idempotency, processed, effects := map[], map[], {}, map[];
      payment := new PaymentStub();
    }

    method ReserveInventory(quantity: Quantity) returns (ok: bool)
      requires Valid()
      modifies this`stock
      ensures ok == (old(stock) >= quantity)
      ensures Valid() && View() == old(View()).(stock := if ok then old(stock) - quantity else old(stock))
    {
      if stock < quantity { return false; }
      stock := stock - quantity;
      return true;
    }

    ghost predicate Knows(order: OrderRecord)
      reads this
    {
      order.terms.id in orders && orders[order.terms.id] == order
    }

    method ReleaseInventoryOnce(order: OrderRecord)
      requires Valid() && Knows(order)
      modifies this`stock, order`released
      ensures Valid() && View() == GiveBack(old(View()), order.terms.id)
    {
      if order.released { return; }
      stock := stock + order.terms.quantity;
      order.released := true;
      assert View().orders == GiveBack(old(View()), order.terms.id).orders;
    }

    /** The charge-and-record half of order creation. */
    method SettleOrder(order: OrderRecord) returns (reply: Reply)
      requires Valid() && Knows(order)
      modifies this`stock, payment, order
      ensures Valid() && (View(), reply) == Settle(old(View()), order.terms.id)
    {
      ghost var before := View();
      var oid := order.terms.id;
      var result := payment.Charge(Checkout(oid), order.terms.total, order.terms.token);
      match result {
        case Charged(number) =>
          order.chargeId := Some(number);
          order.status := Paid;
          assert View().orders == before.orders[oid := order.View()];
          return Reply(Some(201), Some(oid));
        case Declined =>
          order.status := Failed;
          order.failureStatus := Some(402);
          assert View().orders == before.orders[oid := order.View()];
          ReleaseInventoryOnce(order);
          return Reply(Some(402), Some(oid));
        case TimedOut =>
          assert View().orders == before.orders;
          return Reply(Some(504), Some(oid));
      }
    }

    /** Builds the order and enters it under its id and its identity. */
    method PublishOrder(identity: Identity, payload: Payload, drawn: OrderId) returns (order: OrderRecord)
      requires Valid() && drawn !in orders
      modifies this`orders, this`idempotency
      ensures Valid() && fresh(order) && orders == old(orders)[drawn := order] && order.terms.id == drawn
      ensures var o := NewOrder(drawn, identity.user, price, payload);
              View() == Update(old(View()), o).(idempotency := old(idempotency)[identity := drawn])
    {
      order := new OrderRecord(NewOrder(drawn, identity.user, price, payload));
      orders := orders[drawn := order];
      idempotency := idempotency[identity := drawn];
      assert View().orders == old(View()).orders[drawn := order.View()];
    }

    /** A new order, from the reservation to the answer. */
    method PlaceOrder(identity: Identity, payload: Payload, drawn: OrderId) returns (reply: Reply)
      requires Valid() && drawn !in orders && identity !in idempotency && payload.productId == 1
      modifies this`stock, this`orders, this`idempotency, payment
      ensures Valid() && (View(), reply) == CreateAtomic(old(View()), identity, payload, drawn)
      ensures fresh(orders.Values - old(orders.Values))
    {
      hide Settle;
      var ok := ReserveInventory(payload.quantity);
      if !ok { return Reply(Some(409), None); }
      var order := PublishOrder(identity, payload, drawn);
      reply := SettleOrder(order);
    }

    /** Order creation for an admitted identity; `drawn` is the id uuid4 gives. */
    method CreateOrderCore(identity: Identity, payload: Payload, drawn: OrderId) returns (reply: Reply)
      requires Valid() && drawn !in orders
      modifies this`stock, this`orders, this`idempotency, payment, orders.Values
      ensures Valid() && (View(), reply) == CreateAtomic(old(View()), identity, payload, drawn)
      ensures fresh(orders.Values - old(orders.Values))
    {
      hide Settle;
      if identity in idempotency {
        var order := orders[idempotency[identity]];
        if order.terms.fingerprint != payload { return Reply(Some(409), Some(order.terms.id)); }
        if order.status == Failed { return Reply(order.failureStatus, Some(order.terms.id)); }
        if order.status != Pending { return Reply(Some(201), Some(order.terms.id)); }
        reply := SettleOrder(order);
      } else {
        if payload.productId != 1 { return Reply(Some(404), None); }
        reply := PlaceOrder(identity, payload, drawn);
      }
    }

    method CreateOrder(auth: Option<User>, key: Option<string>, payload: Payload, drawn: OrderId) returns (reply: Reply)
      requires Valid() && drawn !in orders
      modifies this`stock, this`orders, this`idempotency, payment, orders.Values
      ensures Valid()
      ensures auth.None? ==> View() == old(View()) && reply == Reply(Some(401), None)
      ensures auth.Some? && (key.None? || key.value == "") ==> View() == old(View()) && reply == Reply(Some(400), None)
      ensures auth.Some? && key.Some? && key.value != "" ==>
                (View(), reply) == CreateAtomic(old(View()), Identity(auth.value, key.value), payload, drawn)
      ensures fresh(orders.Values - old(orders.Values))
    {
      if auth.None? { return Reply(Some(401), None); }
      if key.None? || key.value == "" { return Reply(Some(400), None); }
      reply := CreateOrderCore(Identity(auth.value, key.value), payload, drawn);
    }

    method CancelOrder(auth: Option<User>, oid: OrderId) returns (reply: Reply)
      requires Valid()
      modifies this`stock, orders.Values
      ensures Valid()
      ensures auth.None? ==> View() == old(View()) && reply == Reply(Some(401), None)
      ensures auth.Some? ==> (View(), reply) == CancelAtomic(old(View()), auth.value, oid)
    {
      if auth.None? { return Reply(Some(401), None); }
      if oid !in orders { return Reply(Some(404), None); }
      var order := orders[oid];
      if auth.value != Admin && order.terms.owner != auth.value { return Reply(Some(403), Some(oid)); }
      if order.status == Cancelled { return Reply(Some(200), Some(oid)); }
      if order.status != Paid { return Reply(Some(409), Some(oid)); }
      order.status := Cancelled;
      assert View().orders == old(View()).orders[oid := order.View()];
      ReleaseInventoryOnce(order);
      return Reply(Some(200), Some(oid));
    }

    /** What a webhook does to the order it names. */
    method ApplyEvent(order: OrderRecord, succeeded: bool)
      requires Valid() && Knows(order)
      modifies this`stock, order
      ensures Valid() && View() == Apply(old(View()), succeeded, order.terms.id)
    {
      ghost var before := View();
      var oid := order.terms.id;
      if order.status == Pending {
        if succeeded {
          order.status := Paid;
          if Checkout(oid) in payment.charges {
            order.chargeId := Some(payment.charges[Checkout(oid)].number);
          }
          assert View().orders == before.orders[oid := order.View()];
        } else {
          order.status := Failed;
          order.failureStatus := Some(402);
          assert View().orders == before.orders[oid := order.View()];
          ReleaseInventoryOnce(order);
        }
      }
    }

    method PaymentWebhook(signed: bool, event: EventId, succeeded: bool, oid: OrderId) returns (reply: Reply)
      requires Valid()
      modifies this`stock, this`effects, this`processed, orders.Values
      ensures Valid()
      ensures !signed ==> View() == old(View()) && reply == Reply(Some(401), None)
      ensures signed ==> (View(), reply) == WebhookAtomic(old(View()), event, succeeded, oid)
    {
      if !signed { return Reply(Some(401), None); }
      if event in processed { return Reply(Some(200), None); }
      hide Apply;
      if oid !in orders { return Reply(Some(404), None); }
      ApplyEvent(orders[oid], succeeded);
      RecordEvent(event);
      return Reply(Some(200), Some(oid));
    }

    /** Counts an event's effect and marks the event processed. */
    method RecordEvent(event: EventId)
      requires Valid()
      modifies this`effects, this`processed
      ensures Valid()
      ensures View() == old(View()).(effects := old(effects)[event := (if event in old(effects) then old(effects)[event] else 0) + 1],
                                     processed := old(processed) + {event})
    {
      var before := if event in effects then effects[event] else 0;
      effects := effects[event := before + 1];
      processed := processed + {event};
      assert View().orders == old(View()).orders;
    }
  }
}
