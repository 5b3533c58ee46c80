/**
 * The orders service as a whole: any number of api and worker handlers over one orders table, writing the
 * outbox in the same transaction, with any number of relays draining it. Place is one transaction; Ship
 * reads outside its transaction, so other handlers may run between the two.
 */
module OrderSystem {
  import opened Wrappers
  import opened OutboxTables
  import opened OutboxProtocol
  import opened OutboxSafety
  import opened Order

  type HandlerId = int

  datatype OrderRow = OrderRow(customerId: string, status: Status, version: nat, totalCents: int, items: seq<Item>)

  /** A Ship handler between its read and its transaction: the row to save and the event to stage. */
  datatype Pending = Pending(id: OrderId, row: OrderRow, event: Event)

  datatype System = System(box: State, orders: map<OrderId, OrderRow>, ships: map<HandlerId, Pending>)

  datatype Move =
    | Outbox(step: Step)
    | PlaceOrder(id: OrderId, customerId: string, items: seq<Item>, eventId: string,
                 rowId: RowId, availableAt: int, commits: bool)
    | ShipRead(h: HandlerId, placed: Event, eventId: string)
    | ShipWrite(h: HandlerId, rowId: RowId, availableAt: int, commits: bool)
    | Abandon(h: HandlerId)

  const Start := System(OutboxProtocol.Init, map[], map[])

  /** Save: insert, or update under `orders.version = EXCLUDED.version - 1`; None when no row is affected. */
  function Save(orders: map<OrderId, OrderRow>, id: OrderId, row: OrderRow): Option<map<OrderId, OrderRow>> {
    if id !in orders || orders[id].version == row.version - 1 then Some(orders[id := row]) else None
  }

  /** The row a Place command writes: a new order at version 1, or None if the command breaks a rule. */
  function PlacedRow(customerId: string, items: seq<Item>): Option<OrderRow> {
    if ValidItems(items) then Some(OrderRow(customerId, Placed, 1, Total(items), items)) else None
  }

  function PlacedEvent(id: OrderId, eventId: string): Event {
    Event(eventId, OrderPlaced, id, 1)
  }

  /** What Ship makes of a loaded row; None unless it is placed. */
  function ShippedRow(row: OrderRow): Option<OrderRow> {
    if row.status == Placed then Some(row.(status := Shipped, version := row.version + 1)) else None
  }

  /** The broker delivered this OrderPlaced: some relay published it. */
  ghost predicate Delivered(log: seq<Effect>, event: Event) {
    exists e :: e in log && e.Published? && e.rec.event == event
  }

  ghost predicate CanMove(s: System, m: Move) {
    match m
    case Outbox(step) => !step.Stage? && Enabled(s.box, step)
    case PlaceOrder(id, _, _, eventId, rowId, availableAt, _) =>
      Enabled(s.box, Stage(rowId, PlacedEvent(id, eventId), availableAt))
    case ShipRead(h, placed, _) => h !in s.ships && placed.name == OrderPlaced && Delivered(s.box.log, placed)
    case ShipWrite(h, rowId, availableAt, _) =>
      h in s.ships && Enabled(s.box, Stage(rowId, s.ships[h].event, availableAt))
    case Abandon(h) => h in s.ships
  }

  /** Save and Stage commit together or not at all. */
  ghost function Commit(cap: int, s: System, id: OrderId, row: OrderRow, event: Event, rowId: RowId, availableAt: int,
                        commits: bool): System
    requires Enabled(s.box, Stage(rowId, event, availableAt))
  {
    match Save(s.orders, id, row)
    case Some(orders) =>
      if commits then s.(orders := orders, box := Apply(cap, s.box, Stage(rowId, event, availableAt))) else s
    case None => s
  }

  ghost function Next(cap: int, s: System, m: Move): System
    requires CanMove(s, m)
  {
    match m
    case Outbox(step) => s.(box := Apply(cap, s.box, step))
    case PlaceOrder(id, customerId, items, eventId, rowId, availableAt, commits) =>
      (match PlacedRow(customerId, items)
       case Some(row) => Commit(cap, s, id, row, PlacedEvent(id, eventId), rowId, availableAt, commits)
       case None => s)
    case ShipRead(h, placed, eventId) =>
      var id := placed.aggregateId;
      if id !in s.orders then s else
        (match ShippedRow(s.orders[id])
         case Some(row) => s.(ships := s.ships[h := Pending(id, row, Event(eventId, OrderShipped, id, row.version))])
         case None => s)
    case ShipWrite(h, rowId, availableAt, commits) =>
      var p := s.ships[h];
      Commit(cap, s, p.id, p.row, p.event, rowId, availableAt, commits).(ships := s.ships - {h})
    case Abandon(h) => s.(ships := s.ships - {h})
  }

  ghost predicate ValidMoves(cap: int, s: System, moves: seq<Move>)
    decreases |moves|
  {
    moves == [] || (CanMove(s, moves[0]) && ValidMoves(cap, Next(cap, s, moves[0]), moves[1..]))
  }

  ghost function Play(cap: int, s: System, moves: seq<Move>): System
    requires ValidMoves(cap, s, moves)
    decreases |moves|
  {
    if moves == [] then s else Play(cap, Next(cap, s, moves[0]), moves[1..])
  }

  // ----- The commands, in columns -----

  /** A Place that may and does commit stores the new order at version 1 and stages its OrderPlaced. */
  lemma PlaceInColumns(cap: int, s: System, m: Move)
    requires m.PlaceOrder? && CanMove(s, m)
    ensures var refused := m.items == [] || exists i :: 0 <= i < |m.items| && m.items[i].quantity <= 0;
            var event := Event(m.eventId, OrderPlaced, m.id, 1);
            Next(cap, s, m) ==
            if refused || !m.commits || (m.id in s.orders && s.orders[m.id].version != 0) then s
            else s.(orders := s.orders[m.id := OrderRow(m.customerId, Placed, 1, Total(m.items), m.items)],
                    box := Apply(cap, s.box, Stage(m.rowId, event, m.availableAt)))
  {
  }

  /** A Ship that nobody gets in the way of turns the placed row into a shipped one and stages its OrderShipped. */
  lemma UndisturbedShip(cap: int, s: System, read: Move, rowId: RowId, availableAt: int)
    requires read.ShipRead? && CanMove(s, read) && read.placed.aggregateId in s.orders
    requires s.orders[read.placed.aggregateId].status == Placed
    requires var id := read.placed.aggregateId;
             Enabled(s.box, Stage(rowId, Event(read.eventId, OrderShipped, id, s.orders[id].version + 1), availableAt))
    ensures var id, write := read.placed.aggregateId, ShipWrite(read.h, rowId, availableAt, true);
            var row, s1 := s.orders[id], Next(cap, s, read);
            var event := Event(read.eventId, OrderShipped, id, row.version + 1);
            && CanMove(s1, write) && s1.orders == s.orders && s1.box == s.box
            && var s2 := Next(cap, s1, write);
               && s2.orders == s.orders[id := OrderRow(row.customerId, Shipped, row.version + 1, row.totalCents, row.items)]
               && s2.box == Apply(cap, s.box, Stage(rowId, event, availableAt)) && s2.ships == s.ships
  {
  }

  // ----- The invariant -----

  /** The events ever staged for an order, in commit order. */
  function History(log: seq<Effect>, id: OrderId): seq<Event> {
    if log == [] then [] else
      var before, e := History(log[..|log| - 1], id), log[|log| - 1];
      if e.Staged? && e.event.aggregateId == id then before + [e.event] else before
  }

  /** The two lives an order can have, and the row each one leaves. */
  predicate Lived(events: seq<Event>, id: OrderId, row: OrderRow) {
    && 1 <= |events| <= 2 && row.version == |events|
    && events[0] == Event(events[0].eventId, OrderPlaced, id, 1)
    && (|events| == 1 ==> row.status == Placed)
    && (|events| == 2 ==> row.status == Shipped && events[1] == Event(events[1].eventId, OrderShipped, id, 2))
  }

  ghost predicate RowsMatchHistory(s: System) {
    forall id :: if id in s.orders then Lived(History(s.box.log, id), id, s.orders[id]) else History(s.box.log, id) == []
  }

  /** A pending Ship was loaded from a placed row, on account of a delivered OrderPlaced. */
  ghost predicate GoodPending(s: System, p: Pending) {
    && p.row.version == 2 && p.row.status == Shipped
    && p.event == Event(p.event.eventId, OrderShipped, p.id, 2)
    && p.id in s.orders
    && PlacedDelivered(s.box.log, p.id)
  }

  ghost predicate PlacedDelivered(log: seq<Effect>, id: OrderId) {
    exists e :: e in log && e.Published? && e.rec.event.name == OrderPlaced && e.rec.event.aggregateId == id
  }

  /** Every staged OrderShipped comes after its OrderPlaced was published. */
  ghost predicate ShippedAfterPlaced(log: seq<Effect>) {
    log == [] ||
    (var before, e := log[..|log| - 1], log[|log| - 1];
     && ShippedAfterPlaced(before)
     && (e.Staged? && e.event.name == OrderShipped ==> PlacedDelivered(before, e.event.aggregateId)))
  }

  ghost predicate SysInv(cap: int, s: System) {
    && Inv(cap, s.box)
    && RowsMatchHistory(s)
    && ShippedAfterPlaced(s.box.log)
    && (forall h :: h in s.ships ==> GoodPending(s, s.ships[h]))
  }

  lemma HistoryAppend(log: seq<Effect>, e: Effect, id: OrderId)
    ensures History(log + [e], id) == History(log, id) + if e.Staged? && e.event.aggregateId == id then [e.event] else []
  {
    assert (log + [e])[..|log|] == log;
  }

  /** Only a Stage adds to a history. */
  lemma OutboxKeepsHistories(cap: int, s: State, step: Step)
    requires !step.Stage? && Enabled(s, step) && ShippedAfterPlaced(s.log)
    ensures var log := Apply(cap, s, step).log;
            ShippedAfterPlaced(log) && forall id :: History(log, id) == History(s.log, id)
  {
    var log := Apply(cap, s, step).log;
    LogGrows(cap, s, step);
    if e :| log == s.log + [e] {
      assert log[..|s.log|] == s.log && log[|s.log|] == e;
      assert !e.Staged?;
      forall id ensures History(log, id) == History(s.log, id) {
        HistoryAppend(s.log, e, id);
      }
    }
  }

  lemma OutboxMoveKeeps(cap: int, s: System, step: Step)
    requires SysInv(cap, s) && !step.Stage? && Enabled(s.box, step)
    ensures SysInv(cap, Next(cap, s, Outbox(step)))
  {
    var s' := Next(cap, s, Outbox(step));
    InvStep(cap, s.box, step);
    LogGrows(cap, s.box, step);
    OutboxKeepsHistories(cap, s.box, step);
    forall h | h in s'.ships ensures GoodPending(s', s'.ships[h]) {
      assert GoodPending(s, s.ships[h]);
    }
  }

  /** The event that may follow a history: OrderPlaced at version 1 first, OrderShipped at version 2 after it. */
  ghost predicate Follows(s: System, id: OrderId, row: OrderRow, event: Event) {
    || (row.version == 1 && row.status == Placed && event == Event(event.eventId, OrderPlaced, id, 1))
    || (row.version == 2 && row.status == Shipped && event == Event(event.eventId, OrderShipped, id, 2)
        && id in s.orders && PlacedDelivered(s.box.log, id))
  }

  /** A save that the version guard lets through extends the order's history by exactly its own event. */
  lemma GuardAdmitsNextOnly(s: System, id: OrderId, row: OrderRow, event: Event)
    requires RowsMatchHistory(s) && Follows(s, id, row, event) && Save(s.orders, id, row).Some?
    ensures Lived(History(s.box.log, id) + [event], id, row)
  {
    assert id in s.orders ==> Lived(History(s.box.log, id), id, s.orders[id]);
  }

  lemma CommitRows(cap: int, s: System, id: OrderId, row: OrderRow, event: Event, rowId: RowId, availableAt: int)
    requires SysInv(cap, s) && Enabled(s.box, Stage(rowId, event, availableAt)) && Follows(s, id, row, event)
    requires Save(s.orders, id, row).Some?
    ensures RowsMatchHistory(Commit(cap, s, id, row, event, rowId, availableAt, true))
  {
    var s' := Commit(cap, s, id, row, event, rowId, availableAt, true);
    assert s'.box.log == s.box.log + [Staged(rowId, event)];
    GuardAdmitsNextOnly(s, id, row, event);
    forall k
      ensures if k in s'.orders then Lived(History(s'.box.log, k), k, s'.orders[k]) else History(s'.box.log, k) == []
    {
      HistoryAppend(s.box.log, Staged(rowId, event), k);
      if k in s.orders {
        assert Lived(History(s.box.log, k), k, s.orders[k]);
      }
    }
  }

  lemma CommitKeeps(cap: int, s: System, id: OrderId, row: OrderRow, event: Event, rowId: RowId, availableAt: int,
                    commits: bool)
    requires SysInv(cap, s) && Enabled(s.box, Stage(rowId, event, availableAt)) && Follows(s, id, row, event)
    ensures SysInv(cap, Commit(cap, s, id, row, event, rowId, availableAt, commits))
  {
    var s' := Commit(cap, s, id, row, event, rowId, availableAt, commits);
    if commits && Save(s.orders, id, row).Some? {
      CommitRows(cap, s, id, row, event, rowId, availableAt);
      InvStep(cap, s.box, Stage(rowId, event, availableAt));
      assert s'.box.log == s.box.log + [Staged(rowId, event)];
      assert s'.box.log[..|s.box.log|] == s.box.log;
      forall h | h in s'.ships ensures GoodPending(s', s'.ships[h]) {
        assert GoodPending(s, s.ships[h]);
      }
    }
  }

  lemma {:induction false} PublishedWasStaged(log: seq<Effect>, e: Effect)
    requires Justified(log) && e in log && e.Published?
    ensures Staged(e.rec.id, e.rec.event) in log
  {
    if e != log[|log| - 1] {
      PublishedWasStaged(log[..|log| - 1], e);
    }
  }

  lemma {:induction false} StagedInHistory(log: seq<Effect>, rowId: RowId, event: Event)
    requires Staged(rowId, event) in log
    ensures event in History(log, event.aggregateId)
  {
    if Staged(rowId, event) != log[|log| - 1] {
      StagedInHistory(log[..|log| - 1], rowId, event);
    }
  }

  /** A delivered OrderPlaced always finds its order. */
  lemma DeliveredHasRow(cap: int, s: System, placed: Event)
    requires SysInv(cap, s) && Delivered(s.box.log, placed)
    ensures placed.aggregateId in s.orders
  {
    var e :| e in s.box.log && e.Published? && e.rec.event == placed;
    PublishedWasStaged(s.box.log, e);
    StagedInHistory(s.box.log, e.rec.id, placed);
  }

  lemma MoveKeeps(cap: int, s: System, m: Move)
    requires SysInv(cap, s) && CanMove(s, m)
    ensures SysInv(cap, Next(cap, s, m))
  {
    match m {
      case Outbox(step) => OutboxMoveKeeps(cap, s, step);
      case PlaceOrder(_, _, _, _, _, _, _) => PlaceKeeps(cap, s, m);
      case ShipRead(h, placed, _) =>
        DeliveredHasRow(cap, s, placed);
        assert Lived(History(s.box.log, placed.aggregateId), placed.aggregateId, s.orders[placed.aggregateId]);
        ShipReadKeeps(cap, s, m);
      case ShipWrite(_, _, _, _) => ShipWriteKeeps(cap, s, m);
      case Abandon(h) => AbandonKeeps(cap, s, h);
    }
  }

  lemma PlaceKeeps(cap: int, s: System, m: Move)
    requires SysInv(cap, s) && CanMove(s, m) && m.PlaceOrder?
    ensures SysInv(cap, Next(cap, s, m))
  {
    if PlacedRow(m.customerId, m.items).Some? {
      var row := PlacedRow(m.customerId, m.items).value;
      CommitKeeps(cap, s, m.id, row, PlacedEvent(m.id, m.eventId), m.rowId, m.availableAt, m.commits);
    }
  }

  lemma ShipWriteKeeps(cap: int, s: System, m: Move)
    requires SysInv(cap, s) && CanMove(s, m) && m.ShipWrite?
    ensures SysInv(cap, Next(cap, s, m))
  {
    var p := s.ships[m.h];
    assert GoodPending(s, p);
    CommitKeeps(cap, s, p.id, p.row, p.event, m.rowId, m.availableAt, m.commits);
    AbandonKeeps(cap, Commit(cap, s, p.id, p.row, p.event, m.rowId, m.availableAt, m.commits), m.h);
  }

  lemma AbandonKeeps(cap: int, s: System, h: HandlerId)
    requires SysInv(cap, s)
    ensures SysInv(cap, s.(ships := s.ships - {h}))
  {
    var s' := s.(ships := s.ships - {h});
    forall g | g in s'.ships ensures GoodPending(s', s'.ships[g]) {
      assert GoodPending(s, s.ships[g]);
    }
  }

  lemma ShipReadKeeps(cap: int, s: System, m: Move)
    requires SysInv(cap, s) && CanMove(s, m) && m.ShipRead?
    requires m.placed.aggregateId in s.orders
    requires Lived(History(s.box.log, m.placed.aggregateId), m.placed.aggregateId, s.orders[m.placed.aggregateId])
    ensures SysInv(cap, Next(cap, s, m))
  {
    var s' := Next(cap, s, m);
    assert s'.box == s.box && s'.orders == s.orders;
    forall h | h in s'.ships ensures GoodPending(s', s'.ships[h]) {
      if h in s.ships && s'.ships[h] == s.ships[h] {
        assert GoodPending(s, s.ships[h]);
      }
    }
  }

  lemma {:induction false} PlayKeeps(cap: int, s: System, moves: seq<Move>)
    requires SysInv(cap, s) && ValidMoves(cap, s, moves)
    ensures SysInv(cap, Play(cap, s, moves))
    decreases |moves|
  {
    if moves != [] {
      MoveKeeps(cap, s, moves[0]);
      PlayKeeps(cap, Next(cap, s, moves[0]), moves[1..]);
    }
  }

  lemma SysAlways(cap: int, moves: seq<Move>)
    requires ValidMoves(cap, Start, moves)
    ensures SysInv(cap, Play(cap, Start, moves))
  {
    InvInit(cap);
    PlayKeeps(cap, Start, moves);
  }

  // ----- Theorems about every run of the service -----

  lemma LivedReplays(events: seq<Event>, id: OrderId, row: OrderRow)
    requires Lived(events, id, row)
    ensures row.version == |events| && Replay(events) == Some(row.status)
    ensures forall i :: 0 <= i < |events| ==> events[i].version == i + 1
  {
    var first := events[..1];
    assert first == [events[0]] && first[..0] == [];
    assert Replay(first) == Some(Placed);
    assert |events| == 2 ==> events[..|events| - 1] == first;
  }

  /**
   * The row version counts the events ever staged for the order, their versions are 1..n, and replaying
   * them gives the row's status; an order without a row has no events.
   */
  lemma VersionCountsEvents(cap: int, moves: seq<Move>, id: OrderId)
    requires ValidMoves(cap, Start, moves)
    ensures var s := Play(cap, Start, moves);
            var events := History(s.box.log, id);
            && (id !in s.orders ==> events == [])
            && (id in s.orders ==> s.orders[id].version == |events| && Replay(events) == Some(s.orders[id].status))
            && (forall i :: 0 <= i < |events| ==> events[i].version == i + 1)
  {
    var s := Play(cap, Start, moves);
    SysAlways(cap, moves);
    if id in s.orders {
      LivedReplays(History(s.box.log, id), id, s.orders[id]);
    }
  }

  /** Under any interleaving and any rollbacks an order is placed at most once and shipped at most once. */
  lemma AtMostOnePlacedOneShipped(cap: int, moves: seq<Move>, id: OrderId, i: nat, j: nat)
    requires ValidMoves(cap, Start, moves)
    requires i < j < |History(Play(cap, Start, moves).box.log, id)|
    ensures var events := History(Play(cap, Start, moves).box.log, id);
            i == 0 && j == 1 && events[i].name == OrderPlaced && events[j].name == OrderShipped
  {
    var s := Play(cap, Start, moves);
    SysAlways(cap, moves);
    assert id in s.orders && Lived(History(s.box.log, id), id, s.orders[id]);
  }

  lemma {:induction false} ShippedAfterPlacedAt(log: seq<Effect>, i: nat)
    requires ShippedAfterPlaced(log) && i < |log| && log[i].Staged? && log[i].event.name == OrderShipped
    ensures PlacedDelivered(log[..i], log[i].event.aggregateId)
  {
    if i < |log| - 1 {
      ShippedAfterPlacedAt(log[..|log| - 1], i);
      assert log[..|log| - 1][..i] == log[..i];
    }
  }

  /** OrderShipped is staged only after a relay published the order's OrderPlaced. */
  lemma ShippedImpliesPlacedPublished(cap: int, moves: seq<Move>, i: nat)
    requires ValidMoves(cap, Start, moves)
    requires i < |Play(cap, Start, moves).box.log| && Play(cap, Start, moves).box.log[i].Staged?
    requires Play(cap, Start, moves).box.log[i].event.name == OrderShipped
    ensures var log := Play(cap, Start, moves).box.log;
            exists j :: 0 <= j < i && log[j].Published? && log[j].rec.event.name == OrderPlaced
                        && log[j].rec.event.aggregateId == log[i].event.aggregateId
  {
    var log := Play(cap, Start, moves).box.log;
    SysAlways(cap, moves);
    ShippedAfterPlacedAt(log, i);
    var e :| e in log[..i] && e.Published? && e.rec.event.name == OrderPlaced
             && e.rec.event.aggregateId == log[i].event.aggregateId;
    var j :| 0 <= j < i && log[..i][j] == e;
    assert log[j] == e;
  }

  /** The broker redelivers the message to a handler that is free. */
  ghost predicate Redelivery(s: System, m: Move, id: OrderId) {
    m.ShipRead? && m.placed.aggregateId == id && CanMove(s, m)
  }

  predicate IsShipped(s: System, id: OrderId) {
    id in s.orders && s.orders[id].status == Shipped
  }

  /** No save gets past the version guard of a shipped order: it is at version 2, and saves carry 1 or 2. */
  lemma ShippedRowIsFinal(cap: int, s: System, id: OrderId, row: OrderRow, event: Event)
    requires SysInv(cap, s) && IsShipped(s, id) && Follows(s, id, row, event)
    ensures Save(s.orders, id, row) == None
  {
    assert Lived(History(s.box.log, id), id, s.orders[id]);
  }

  lemma ShippedStep(cap: int, s: System, m: Move, id: OrderId)
    requires SysInv(cap, s) && CanMove(s, m) && IsShipped(s, id)
    ensures id in Next(cap, s, m).orders && Next(cap, s, m).orders[id] == s.orders[id]
  {
    if m.PlaceOrder? && m.id == id && PlacedRow(m.customerId, m.items).Some? {
      ShippedRowIsFinal(cap, s, id, PlacedRow(m.customerId, m.items).value, PlacedEvent(id, m.eventId));
    } else if m.ShipWrite? && s.ships[m.h].id == id {
      assert GoodPending(s, s.ships[m.h]);
      ShippedRowIsFinal(cap, s, id, s.ships[m.h].row, s.ships[m.h].event);
    }
  }

  /** A shipped order never changes again, whatever the api, the workers and the relays go on to do. */
  lemma {:induction false} ShippedForever(cap: int, s: System, more: seq<Move>, id: OrderId)
    requires SysInv(cap, s) && ValidMoves(cap, s, more) && IsShipped(s, id)
    ensures IsShipped(Play(cap, s, more), id) && Play(cap, s, more).orders[id] == s.orders[id]
    decreases |more|
  {
    if more != [] {
      ShippedStep(cap, s, more[0], id);
      MoveKeeps(cap, s, more[0]);
      ShippedForever(cap, Next(cap, s, more[0]), more[1..], id);
    }
  }

  /** From here on every delivery for the order is accepted without a change, whatever happens in between. */
  ghost predicate DeliveriesAreIdle(cap: int, s: System, id: OrderId) {
    forall more: seq<Move>, m :: ValidMoves(cap, s, more) && Redelivery(Play(cap, s, more), m, id) ==>
      Next(cap, Play(cap, s, more), m) == Play(cap, s, more)
  }

  /**
   * A Ship that loses the version race found its order already shipped: its transaction changes neither
   * the orders nor the outbox, and after any further moves of any api handler, worker or relay a delivery
   * for the order still changes nothing.
   */
  lemma LostRaceIsHarmless(cap: int, moves: seq<Move>, h: HandlerId, rowId: RowId, availableAt: int, commits: bool)
    requires ValidMoves(cap, Start, moves)
    requires CanMove(Play(cap, Start, moves), ShipWrite(h, rowId, availableAt, commits))
    requires var s := Play(cap, Start, moves); Save(s.orders, s.ships[h].id, s.ships[h].row) == None
    ensures var s := Play(cap, Start, moves);
            var id, s' := s.ships[h].id, Next(cap, s, ShipWrite(h, rowId, availableAt, commits));
            && s'.orders == s.orders && s'.box == s.box && IsShipped(s', id)
            && DeliveriesAreIdle(cap, s', id)
  {
    var s := Play(cap, Start, moves);
    var id, s' := s.ships[h].id, Next(cap, s, ShipWrite(h, rowId, availableAt, commits));
    SysAlways(cap, moves);
    assert GoodPending(s, s.ships[h]);
    assert Lived(History(s.box.log, id), id, s.orders[id]);
    MoveKeeps(cap, s, ShipWrite(h, rowId, availableAt, commits));
    forall more: seq<Move>, m | ValidMoves(cap, s', more) && Redelivery(Play(cap, s', more), m, id)
      ensures Next(cap, Play(cap, s', more), m) == Play(cap, s', more)
    {
      ShippedForever(cap, s', more, id);
    }
  }
}
