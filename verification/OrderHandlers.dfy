/**
 * The order handlers as they are written: aggregate, repository, outbox and transaction manager. What they
 * leave in the database is what the moves of OrderSystem say, under every failure of every call.
 */
module OrderHandlers {
  import opened Wrappers
  import opened OutboxTables
  import opened OutboxProtocol
  import opened Order
  import opened OrderSystem

  datatype Error =
    | NotFound | ReadFailed | Rule(v: Violation)
    | BeginFailed | SaveFailed | ConcurrencyConflict | NoTx | StageFailed | CommitFailed

  /** How a transaction ends for its caller; a panic in the body is passed on. */
  datatype Outcome = Committed | Failed(e: Error) | Panicked

  /** The fate of COMMIT: it may take effect although the caller sees an error. */
  datatype CommitFate = CommitOk | CommitLost(landed: bool)

  /** Where the body of a transaction panics. */
  datatype Panic = Never | BeforeSave | AfterSave | AfterStage

  /** What the outside world does to one transaction: every call in it may fail, and its body may panic anywhere. */
  datatype World = World(beginOk: bool, saveOk: bool, stageOk: bool, panic: Panic, commit: CommitFate, now: int)

  datatype Content = Content(orders: map<OrderId, OrderRow>, outbox: map<RowId, Row>, nextId: RowId)

  /** The rows a Stage call inserts, with ids from the identity column. */
  function Inserted(outbox: map<RowId, Row>, nextId: RowId, events: seq<Event>, now: int): map<RowId, Row>
    decreases |events|
  {
    if events == [] then outbox
    else Inserted(outbox[nextId := NewRow(events[0], now)], nextId + 1, events[1..], now)
  }

  /** Save and Stage together: None when the version guard refuses. */
  function SaveAndStage(c: Content, id: OrderId, row: OrderRow, events: seq<Event>, now: int): Option<Content> {
    match Save(c.orders, id, row)
    case None => None
    case Some(orders) => Some(Content(orders, Inserted(c.outbox, c.nextId, events, now), c.nextId + |events|))
  }

  /** How Save and Stage end together; `after` is what they would leave behind. */
  function BodyEnd(after: Option<Content>, events: seq<Event>, w: World): Outcome {
    if w.panic.BeforeSave? then Panicked
    else if !w.saveOk then Failed(SaveFailed)
    else if after.None? then Failed(ConcurrencyConflict)
    else if w.panic.AfterSave? then Panicked
    else if !w.stageOk && events != [] then Failed(StageFailed)
    else if w.panic.AfterStage? then Panicked
    else Committed
  }

  /** What the caller of the transaction sees. */
  function TxEnd(after: Option<Content>, events: seq<Event>, w: World): Outcome {
    if !w.beginOk then Failed(BeginFailed)
    else if BodyEnd(after, events, w) != Committed then BodyEnd(after, events, w)
    else if w.commit.CommitOk? then Committed else Failed(CommitFailed)
  }

  /** Whether the transaction takes effect. */
  predicate Lands(after: Option<Content>, events: seq<Event>, w: World) {
    w.beginOk && BodyEnd(after, events, w) == Committed && (w.commit.CommitOk? || w.commit.landed)
  }

  /** The committed content afterwards: all of the transaction or nothing of it. */
  function AfterTx(c: Content, id: OrderId, row: OrderRow, events: seq<Event>, w: World): Content {
    var after := SaveAndStage(c, id, row, events, w.now);
    if Lands(after, events, w) then after.value else c
  }

  predicate HasRow(outbox: map<RowId, Row>, id: RowId, event: Event, now: int) {
    id in outbox && outbox[id] == NewRow(event, now)
  }

  lemma {:induction false} EarlierRowKept(outbox: map<RowId, Row>, nextId: RowId, events: seq<Event>, now: int, id: RowId)
    requires id in outbox && id < nextId
    ensures id in Inserted(outbox, nextId, events, now) && Inserted(outbox, nextId, events, now)[id] == outbox[id]
    decreases |events|
  {
    if events != [] {
      EarlierRowKept(outbox[nextId := NewRow(events[0], now)], nextId + 1, events[1..], now, id);
    }
  }

  lemma {:induction false} InsertedRow(outbox: map<RowId, Row>, nextId: RowId, events: seq<Event>, now: int, i: nat)
    requires i < |events|
    ensures HasRow(Inserted(outbox, nextId, events, now), nextId + i, events[i], now)
    decreases i
  {
    var one := outbox[nextId := NewRow(events[0], now)];
    if i == 0 {
      EarlierRowKept(one, nextId + 1, events[1..], now, nextId);
    } else {
      InsertedRow(one, nextId + 1, events[1..], now, i - 1);
    }
  }

  /** Ids outside the new ones keep what they had. */
  lemma {:induction false} NothingElseInserted(outbox: map<RowId, Row>, nextId: RowId, events: seq<Event>, now: int,
                                               id: RowId)
    requires id < nextId || nextId + |events| <= id
    ensures id in Inserted(outbox, nextId, events, now) <==> id in outbox
    ensures id in outbox ==> Inserted(outbox, nextId, events, now)[id] == outbox[id]
    decreases |events|
  {
    if events != [] {
      NothingElseInserted(outbox[nextId := NewRow(events[0], now)], nextId + 1, events[1..], now, id);
    }
  }

  /**
   * A transaction that takes effect leaves the row and every one of its events, one that does not leaves
   * nothing; its caller sees success if and only if it took effect and the commit was answered.
   */
  lemma AllOrNothing(c: Content, id: OrderId, row: OrderRow, events: seq<Event>, w: World)
    ensures var after, c' := SaveAndStage(c, id, row, events, w.now), AfterTx(c, id, row, events, w);
            && (TxEnd(after, events, w) == Committed <==> Lands(after, events, w) && w.commit.CommitOk?)
            && (!Lands(after, events, w) ==> c' == c)
            && (Lands(after, events, w) ==>
                  && id in c'.orders && c'.orders[id] == row
                  && forall i :: 0 <= i < |events| ==> HasRow(c'.outbox, c.nextId + i, events[i], w.now))
  {
    forall i | 0 <= i < |events|
      ensures HasRow(Inserted(c.outbox, c.nextId, events, w.now), c.nextId + i, events[i], w.now)
    {
      InsertedRow(c.outbox, c.nextId, events, w.now, i);
    }
  }

  /** A committed handler transaction is the Commit of the system protocol, row for row. */
  lemma TransactionIsCommit(cap: int, s: System, c: Content, id: OrderId, row: OrderRow, event: Event, now: int)
    requires s.orders == c.orders && s.box.tables.active == c.outbox
    requires Enabled(s.box, Stage(c.nextId, event, now))
    ensures var s' := Commit(cap, s, id, row, event, c.nextId, now, true);
            match SaveAndStage(c, id, row, [event], now)
            case None => s' == s
            case Some(after) => s'.orders == after.orders && s'.box.tables.active == after.outbox
  {
    assert Inserted(c.outbox[c.nextId := NewRow(event, now)], c.nextId + 1, [event][1..], now)
           == c.outbox[c.nextId := NewRow(event, now)];
  }

  /** What the caller of a command gets; None when a panic passes through. */
  function Answer<T>(end: Outcome, value: T): Option<Result<T, Error>> {
    match end
    case Panicked => None
    case Failed(e) => Some(Err(e))
    case Committed => Some(Ok(value))
  }

  /** Another writer has stored a version that this row does not follow. */
  predicate Overtaken(orders: map<OrderId, OrderRow>, id: OrderId, row: OrderRow) {
    id in orders && orders[id].version + 1 != row.version
  }

  /**
   * What the caller of a command with one event is told, call by call: the first call that fails gives its
   * own error, a panic reached before it passes through, and success takes every call.
   */
  lemma AnswerInCases<T>(c: Content, id: OrderId, row: OrderRow, event: Event, w: World, value: T)
    ensures var r := Answer(TxEnd(SaveAndStage(c, id, row, [event], w.now), [event], w), value);
            var written := w.beginOk && !w.panic.BeforeSave? && w.saveOk && !Overtaken(c.orders, id, row);
            var staged := written && !w.panic.AfterSave? && w.stageOk;
            && (r == Some(Err(BeginFailed)) <==> !w.beginOk)
            && (r == Some(Err(SaveFailed)) <==> w.beginOk && !w.panic.BeforeSave? && !w.saveOk)
            && (r == Some(Err(ConcurrencyConflict)) <==>
                  w.beginOk && !w.panic.BeforeSave? && w.saveOk && Overtaken(c.orders, id, row))
            && (r == Some(Err(StageFailed)) <==> written && !w.panic.AfterSave? && !w.stageOk)
            && (r == Some(Err(CommitFailed)) <==> staged && !w.panic.AfterStage? && w.commit.CommitLost?)
            && (r == Some(Ok(value)) <==> staged && w.panic.Never? && w.commit.CommitOk?)
            && (r == None <==> (w.beginOk && w.panic.BeforeSave?) || (written && w.panic.AfterSave?)
                               || (staged && w.panic.AfterStage?))
  {
  }

  /** What it leaves in the database: the row and the event's row under the next id, or everything as it was. */
  lemma ContentInCases(c: Content, id: OrderId, row: OrderRow, event: Event, w: World)
    ensures AfterTx(c, id, row, [event], w) ==
            if w.beginOk && w.saveOk && !Overtaken(c.orders, id, row) && w.stageOk && w.panic.Never?
               && w.commit != CommitLost(false)
            then Content(c.orders[id := row], c.outbox[c.nextId := Row(event, w.now, 0, None, None, None)],
                         c.nextId + 1)
            else c
  {
    var outbox := c.outbox[c.nextId := NewRow(event, w.now)];
    assert [event][1..] == [] && Inserted(outbox, c.nextId + 1, [], w.now) == outbox;
    assert Inserted(c.outbox, c.nextId, [event], w.now) == outbox;
  }

  ghost function RowOf(o: Aggregate): OrderRow
    reads o
  {
    OrderRow(o.customerId, o.status, o.version, o.totalCents, o.items)
  }

  /** Postgres: the committed content and at most one open transaction of this connection. */
  class Database {
    var committed: Content
    var tx: Option<Content>

    constructor ()
      ensures committed == Content(map[], map[], 1) && tx == None
    {
      committed, tx := Content(map[], map[], 1), None;
    }

    method Begin()
      requires tx == None
      modifies this`tx
      ensures tx == Some(committed)
    {
      tx := Some(committed);
    }

    /** A closed transaction is left alone (pgx.ErrTxClosed). */
    method Rollback()
      modifies this`tx
      ensures tx == None
    {
      tx := None;
    }

    method Commit(fate: CommitFate) returns (ok: bool)
      requires tx.Some?
      modifies this
      ensures ok <==> fate.CommitOk?
      ensures committed == if fate.CommitOk? || fate.landed then old(tx).value else old(committed)
      ensures tx == if fate.CommitOk? || fate.landed then None else old(tx)
    {
      if fate.CommitOk? || fate.landed {
        committed, tx := tx.value, None;
      }
      return fate.CommitOk?;
    }
  }

  class Repository {
    const db: Database

    constructor (db: Database)
      ensures this.db == db
    {
      this.db := db;
    }

    /** `readOk`: the query and the decoding of the items succeed. */
    method FindById(id: OrderId, readOk: bool) returns (r: Result<Aggregate, Error>)
      ensures r.Err? <==> !readOk || id !in db.committed.orders
      ensures r.Err? ==> r.error == if readOk then NotFound else ReadFailed
      ensures r.Ok? ==> fresh(r.value) && r.value.id == id
                        && RowOf(r.value) == db.committed.orders[id] && r.value.events == []
    {
      if !readOk {
        return Err(ReadFailed);
      }
      if id !in db.committed.orders {
        return Err(NotFound);
      }
      var row := db.committed.orders[id];
      var o := new Aggregate.Hydrate(id, row.customerId, row.status, row.version, row.totalCents, row.items);
      return Ok(o);
    }

    /**
     * The upsert, inside the open transaction, or on its own if there is none; no affected row is a
     * concurrency conflict. `ok`: encoding the items and the statement itself succeed.
     */
    method Save(o: Aggregate, ok: bool) returns (r: Result<(), Error>)
      modifies db
      ensures var before := if old(db.tx).Some? then old(db.tx).value else old(db.committed);
              var overtaken := o.id in before.orders && before.orders[o.id].version + 1 != o.version;
              var after := if ok && !overtaken then before.(orders := before.orders[o.id := RowOf(o)]) else before;
              var saved := if overtaken then None else Some(before.orders[o.id := RowOf(o)]);
              && OrderSystem.Save(before.orders, o.id, RowOf(o)) == saved
              && r == (if !ok then Err(SaveFailed) else if overtaken then Err(ConcurrencyConflict) else Ok(()))
              && db.tx == (if old(db.tx).Some? then Some(after) else None)
              && db.committed == (if old(db.tx).Some? then old(db.committed) else after)
    {
      if !ok {
        return Err(SaveFailed);
      }
      var c := if db.tx.Some? then db.tx.value else db.committed;
      var row := OrderRow(o.customerId, o.status, o.version, o.totalCents, o.items);
      if o.id in c.orders && c.orders[o.id].version != row.version - 1 {
        return Err(ConcurrencyConflict);
      }
      var saved := c.(orders := c.orders[o.id := row]);
      if db.tx.Some? {
        db.tx := Some(saved);
      } else {
        db.committed := saved;
      }
      return Ok(());
    }
  }

  class Outbox {
    const db: Database

    constructor (db: Database)
      ensures this.db == db
    {
      this.db := db;
    }

    /** One INSERT for the whole batch: all rows or none. It insists on an open transaction. */
    method Stage(events: seq<Event>, ok: bool, now: int) returns (r: Result<(), Error>)
      modifies db`tx
      ensures r == if events == [] then Ok(()) else if old(db.tx).None? then Err(NoTx)
                   else if ok then Ok(()) else Err(StageFailed)
      ensures r.Err? || events == [] ==> db.tx == old(db.tx)
      ensures r.Ok? && events != [] ==>
                var c := old(db.tx).value;
                db.tx == Some(Content(c.orders, Inserted(c.outbox, c.nextId, events, now), c.nextId + |events|))
    {
      if |events| == 0 {
        return Ok(());
      }
      if db.tx.None? {
        return Err(NoTx);
      }
      if !ok {
        return Err(StageFailed);
      }
      var c := db.tx.value;
      var outbox, i := c.outbox, 0;
      while i < |events|
        invariant 0 <= i <= |events|
        invariant Inserted(outbox, c.nextId + i, events[i..], now) == Inserted(c.outbox, c.nextId, events, now)
      {
        assert events[i..][1..] == events[i + 1..];
        outbox := outbox[c.nextId + i := NewRow(events[i], now)];
        i := i + 1;
      }
      db.tx := Some(Content(c.orders, outbox, c.nextId + |events|));
      return Ok(());
    }
  }

  class TxManager {
    const db: Database
    const repo: Repository
    const outbox: Outbox

    constructor (db: Database, repo: Repository, outbox: Outbox)
      requires repo.db == db && outbox.db == db
      ensures this.db == db && this.repo == repo && this.outbox == outbox
    {
      this.db, this.repo, this.outbox := db, repo, outbox;
    }

    /** The body both handlers run inside the transaction: Save, then Stage; it may panic anywhere. */
    method Body(o: Aggregate, w: World) returns (r: Outcome)
      requires repo.db == db && outbox.db == db && db.tx.Some?
      modifies db
      ensures db.tx.Some? && db.committed == old(db.committed)
      ensures var after := SaveAndStage(old(db.tx).value, o.id, RowOf(o), o.events, w.now);
              r == BodyEnd(after, o.events, w) && (r == Committed ==> db.tx == after)
    {
      if w.panic.BeforeSave? {
        return Panicked;
      }
      var saved := repo.Save(o, w.saveOk);
      if saved.Err? {
        return Failed(saved.error);
      }
      if w.panic.AfterSave? {
        return Panicked;
      }
      var staged := outbox.Stage(o.events, w.stageOk, w.now);
      if staged.Err? {
        return Failed(staged.error);
      }
      return if w.panic.AfterStage? then Panicked else Committed;
    }

    /**
     * How WithinTx ends, whatever function it was given, whatever that function did to the open transaction and
     * however it ended: all of it is committed, or none, and nothing stays open.
     */
    method Close(end: Outcome, fate: CommitFate) returns (r: Outcome)
      requires db.tx.Some?
      modifies db
      ensures db.tx == None
      ensures db.committed == if end == Committed && (fate.CommitOk? || fate.landed) then old(db.tx).value
                              else old(db.committed)
      ensures r == if end != Committed then end else if fate.CommitOk? then Committed else Failed(CommitFailed)
    {
      var committed := false;
      r := end;
      if end == Committed {
        committed := db.Commit(fate);
        if !committed {
          r := Failed(CommitFailed);
        }
      }
      // The deferred function, and the rollback of a failed body.
      if !committed {
        db.Rollback();
      }
    }

    /**
     * The row and its events are committed together or not at all, however the body, a panic or the commit
     * ends; success is reported only if they are.
     */
    method WithinTx(o: Aggregate, w: World) returns (r: Outcome)
      requires repo.db == db && outbox.db == db && db.tx == None
      modifies db
      ensures db.tx == None && db.committed == AfterTx(old(db.committed), o.id, RowOf(o), o.events, w)
      ensures r == TxEnd(SaveAndStage(old(db.committed), o.id, RowOf(o), o.events, w.now), o.events, w)
    {
      if !w.beginOk {
        return Failed(BeginFailed);
      }
      db.Begin();
      var end := Body(o, w);
      r := Close(end, w.commit);
    }
  }

  class PlaceOrderHandler {
    const txManager: TxManager

    constructor (txManager: TxManager)
      ensures this.txManager == txManager
    {
      this.txManager := txManager;
    }

    /** A broken rule touches nothing; otherwise the row at version 1 and its OrderPlaced go in together. */
    method Handle(id: OrderId, customerId: string, items: seq<Item>, eventId: string, w: World)
      returns (r: Option<Result<int, Error>>)
      requires txManager.repo.db == txManager.db && txManager.outbox.db == txManager.db && txManager.db.tx == None
      modifies txManager.db
      ensures txManager.db.tx == None
      ensures if items == [] || exists i :: 0 <= i < |items| && items[i].quantity <= 0
              then r == Some(Err(Rule(if items == [] then EmptyOrder else InvalidQuantity)))
                   && txManager.db.committed == old(txManager.db.committed) && PlacedRow(customerId, items) == None
              else var row := OrderRow(customerId, Placed, 1, Total(items), items);
                   var event := Event(eventId, OrderPlaced, id, 1);
                   var before := old(txManager.db.committed);
                   && PlacedRow(customerId, items) == Some(row) && PlacedEvent(id, eventId) == event
                   && txManager.db.committed == AfterTx(before, id, row, [event], w)
                   && r == Answer(TxEnd(SaveAndStage(before, id, row, [event], w.now), [event], w), Total(items))
                   && (r == Some(Ok(Total(items))) <==> txManager.db.committed != before && w.commit.CommitOk?)
    {
      var o := new Aggregate(id, customerId);
      var placed := o.Place(items, eventId);
      if placed.Err? {
        return Some(Err(Rule(placed.error)));
      }
      assert RowOf(o) == PlacedRow(customerId, items).value && o.events == [PlacedEvent(id, eventId)];
      ghost var row, event, before := RowOf(o), PlacedEvent(id, eventId), txManager.db.committed;
      var ended := txManager.WithinTx(o, w);
      var total := o.totalCents;
      AnswerInCases(before, id, row, event, w, total);
      ContentInCases(before, id, row, event, w);
      if ended == Committed {
        o.ClearEvents();
      }
      return Answer(ended, total);
    }
  }

  class ShipOrderHandler {
    const txManager: TxManager
    /** The order between the read and the transaction. */
    var o: Aggregate?

    constructor (txManager: TxManager)
      ensures this.txManager == txManager && o == null
    {
      this.txManager, o := txManager, null;
    }

    /**
     * Before the transaction: read and ship in memory. Some(reply) ends the command here (not readable, not
     * found, or already shipped, which is success); None leaves the order to be saved.
     */
    method Load(id: OrderId, eventId: string, readOk: bool) returns (r: Option<Result<(), Error>>)
      requires txManager.repo.db == txManager.db
      modifies this`o
      ensures var orders := txManager.db.committed.orders;
              if !readOk then r == Some(Err(ReadFailed))
              else if id !in orders then r == Some(Err(NotFound))
              else if orders[id].status == Shipped then r == Some(Ok(()))
              else if orders[id].status == Draft then r == Some(Err(Rule(NotPlaced)))
              else r == None && o != null && fresh(o) && o.id == id
                   && RowOf(o) == orders[id].(status := Shipped, version := orders[id].version + 1)
                   && ShippedRow(orders[id]) == Some(RowOf(o))
                   && o.events == [Event(eventId, OrderShipped, id, orders[id].version + 1)]
    {
      var found := txManager.repo.FindById(id, readOk);
      if found.Err? {
        return Some(Err(found.error));
      }
      o := found.value;
      var shipped := found.value.Ship(eventId);
      if shipped == Err(AlreadyShipped) {
        return Some(Ok(()));
      }
      if shipped.Err? {
        return Some(Err(Rule(shipped.error)));
      }
      return None;
    }

    /** The transaction, over whatever the database holds by now; a lost version race changes nothing. */
    method Write(w: World) returns (r: Option<Result<(), Error>>)
      requires o != null
      requires txManager.repo.db == txManager.db && txManager.outbox.db == txManager.db && txManager.db.tx == None
      modifies txManager.db, o
      ensures txManager.db.tx == None
      ensures var before, row, events := old(txManager.db.committed), old(RowOf(o)), old(o.events);
              && txManager.db.committed == AfterTx(before, o.id, row, events, w)
              && r == Answer(TxEnd(SaveAndStage(before, o.id, row, events, w.now), events, w), ())
              && (|events| == 1 ==> (r == Some(Ok(())) <==> txManager.db.committed != before && w.commit.CommitOk?))
    {
      ghost var before, row, events := txManager.db.committed, RowOf(o), o.events;
      if |events| == 1 {
        AnswerInCases(before, o.id, row, events[0], w, ());
        ContentInCases(before, o.id, row, events[0], w);
      }
      var ended := txManager.WithinTx(o, w);
      if ended == Committed {
        o.ClearEvents();
      }
      return Answer(ended, ());
    }
  }
}
