/** The order aggregate of the example service: Draft, Placed, Shipped. */
module Order {
  import opened Wrappers
  import opened OutboxTables

  type OrderId = string

  datatype Status = Draft | Placed | Shipped

  datatype Item = Item(sku: string, quantity: int, priceCents: int)

  datatype Violation = NotDraft | EmptyOrder | InvalidQuantity | AlreadyShipped | NotPlaced

  function Total(items: seq<Item>): int {
    if items == [] then 0
    else Total(items[..|items| - 1]) + items[|items| - 1].priceCents * items[|items| - 1].quantity
  }

  /** One line costs quantity times price, and lists of lines add up. */
  lemma {:induction false} TotalIsAdditive(a: seq<Item>, b: seq<Item>)
    ensures Total(a + b) == Total(a) + Total(b)
    ensures forall item: Item :: Total([item]) == item.quantity * item.priceCents
  {
    assert forall item: Item :: [item][..0] == [] && Total([item]) == Total([]) + item.priceCents * item.quantity;
    if b == [] {
      assert a + b == a;
    } else {
      assert (a + b)[..|a + b| - 1] == a + b[..|b| - 1];
      TotalIsAdditive(a, b[..|b| - 1]);
    }
  }

  predicate ValidItems(items: seq<Item>) {
    items != [] && forall i :: 0 <= i < |items| ==> items[i].quantity > 0
  }

  /** What a sequence of an order's events amounts to; None if they could not have happened in this order. */
  function Replay(events: seq<Event>): Option<Status> {
    if events == [] then Some(Draft) else
      match (Replay(events[..|events| - 1]), events[|events| - 1].name)
      case (Some(Draft), OrderPlaced) => Some(Placed)
      case (Some(Placed), OrderShipped) => Some(Shipped)
      case _ => None
  }

  /** Only nothing, an OrderPlaced, and an OrderPlaced then an OrderShipped can have happened. */
  lemma ReplayInCases(events: seq<Event>)
    ensures Replay(events) == Some(Draft) <==> events == []
    ensures Replay(events) == Some(Placed) <==> |events| == 1 && events[0].name == OrderPlaced
    ensures Replay(events) == Some(Shipped) <==>
            |events| == 2 && events[0].name == OrderPlaced && events[1].name == OrderShipped
  {
    if |events| >= 1 {
      var one := events[..|events| - 1];
      if |events| >= 2 {
        var two := one[..|one| - 1];
        if |events| >= 3 {
          ReplayInCases(one);
        }
      }
    }
  }

  class Aggregate {
    const id: OrderId
    const customerId: string
    var items: seq<Item>
    var status: Status
    var totalCents: int
    var version: nat
    var events: seq<Event>

    constructor (id: OrderId, customerId: string)
      ensures this.id == id && this.customerId == customerId
      ensures items == [] && status == Draft && totalCents == 0 && version == 0 && events == []
    {
      this.id, this.customerId := id, customerId;
      items, status, totalCents, version, events := [], Draft, 0, 0, [];
    }

    /** Rebuilds a stored order; no event is recorded. */
    constructor Hydrate(id: OrderId, customerId: string, status: Status, version: nat, totalCents: int, items: seq<Item>)
      ensures this.id == id && this.customerId == customerId && this.items == items
      ensures this.status == status && this.totalCents == totalCents && this.version == version && events == []
    {
      this.id, this.customerId := id, customerId;
      this.items, this.status, this.totalCents, this.version, events := items, status, totalCents, version, [];
    }

    /** Accepted exactly for a draft and a non-empty list of positive quantities; refused calls change nothing. */
    method Place(items: seq<Item>, eventId: string) returns (r: Result<(), Violation>)
      modifies this
      ensures r.Ok? <==> old(status) == Draft && items != [] && forall i :: 0 <= i < |items| ==> items[i].quantity > 0
      ensures r.Err? ==> r.error == if old(status) != Draft then NotDraft
                                    else if items == [] then EmptyOrder else InvalidQuantity
      ensures r.Err? ==> status == old(status) && this.items == old(this.items) && totalCents == old(totalCents)
                         && version == old(version) && events == old(events)
      ensures r.Ok? ==> status == Placed && this.items == items && totalCents == Total(items)
                        && version == old(version) + 1
                        && events == old(events) + [Event(eventId, OrderPlaced, id, version)]
    {
      if status != Draft {
        return Err(NotDraft);
      }
      if |items| == 0 {
        return Err(EmptyOrder);
      }
      var total := 0;
      var i := 0;
      while i < |items|
        invariant 0 <= i <= |items|
        invariant forall k :: 0 <= k < i ==> items[k].quantity > 0
        invariant total == Total(items[..i])
      {
        if items[i].quantity <= 0 {
          return Err(InvalidQuantity);
        }
        assert items[..i + 1][..i] == items[..i];
        total := total + items[i].priceCents * items[i].quantity;
        i := i + 1;
      }
      assert items[..i] == items;
      this.items := items;
      totalCents := total;
      status := Placed;
      version := version + 1;
      events := events + [Event(eventId, OrderPlaced, id, version)];
      return Ok(());
    }

    method Ship(eventId: string) returns (r: Result<(), Violation>)
      modifies this
      ensures r == match old(status)
                   case Shipped => Err(AlreadyShipped) case Draft => Err(NotPlaced) case Placed => Ok(())
      ensures items == old(items) && totalCents == old(totalCents)
      ensures r.Err? ==> status == old(status) && version == old(version) && events == old(events)
      ensures r.Ok? ==> status == Shipped && version == old(version) + 1
                        && events == old(events) + [Event(eventId, OrderShipped, id, version)]
    {
      if status == Shipped {
        return Err(AlreadyShipped);
      }
      if status != Placed {
        return Err(NotPlaced);
      }
      status := Shipped;
      version := version + 1;
      events := events + [Event(eventId, OrderShipped, id, version)];
      return Ok(());
    }

    method ClearEvents()
      modifies this`events
      ensures events == []
    {
      events := [];
    }
  }
}
