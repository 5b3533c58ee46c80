/**
 * The relay over the in-process outbox: every drain spends retry budget, so with a cap and no new records
 * draining ends, and everything ends up sent or dead-lettered.
 */
module MemoryRelay {
  import opened Wrappers
  import opened Backoff
  import opened RelayJournal
  import opened MemoryOutbox

  datatype RelayError = AlreadyRunning | Cancelled

  /** What one record meets; an error and a recovered panic both go to Fail. */
  datatype World = World(progress: Progress, appNow: int, draw: nat, reason: string)

  /** One tick of the poll ticker: the store clock at Fetch, and what the records of that drain meet. */
  datatype Tick = Tick(now: int, ws: seq<World>)

  // ----- The retry budget -----

  function Budget(cap: int, s: seq<Record>): int {
    if s == [] then 0 else cap - s[0].attempts + Budget(cap, s[1..])
  }

  /** With a cap, no active record has spent all of its attempts. */
  ghost predicate Budgeted(cap: int, s: seq<Record>) {
    cap > 0 ==> forall k :: 0 <= k < |s| ==> s[k].attempts < cap
  }

  function Ids(s: seq<Record>): set<string> {
    set rec | rec in s :: rec.id
  }

  lemma {:induction false} BudgetCoversAll(cap: int, s: seq<Record>)
    requires cap > 0 && Budgeted(cap, s)
    ensures Budget(cap, s) >= |s|
  {
    if s != [] {
      BudgetCoversAll(cap, s[1..]);
    }
  }

  lemma {:induction false} RemoveFacts(cap: int, s: seq<Record>, rec: Record)
    requires DistinctIds(s) && rec in s
    ensures Budget(cap, Remove(s, rec.id)) == Budget(cap, s) - (cap - rec.attempts)
    ensures forall r :: r in Remove(s, rec.id) <==> r in s && r.id != rec.id
    ensures DistinctIds(Remove(s, rec.id)) && |Remove(s, rec.id)| == |s| - 1
  {
    if s[0] != rec {
      RemoveFacts(cap, s[1..], rec);
      var rest := Remove(s[1..], rec.id);
      forall k | 0 <= k < |rest| ensures rest[k].id != s[0].id {
        assert rest[k] in s[1..];
      }
    }
  }

  function Delayed(rec: Record, nextAt: int): Record {
    rec.(attempts := rec.attempts + 1, availableAt := nextAt)
  }

  lemma {:induction false} PostponeBudget(cap: int, s: seq<Record>, rec: Record, nextAt: int)
    requires DistinctIds(s) && rec in s
    ensures Budget(cap, Postpone(s, rec.id, nextAt)) == Budget(cap, s) - 1
  {
    if s[0] == rec {
      assert Postpone(s, rec.id, nextAt)[1..] == s[1..];
    } else {
      PostponeBudget(cap, s[1..], rec, nextAt);
    }
  }

  lemma {:induction false} PostponeFacts(s: seq<Record>, rec: Record, nextAt: int)
    requires DistinctIds(s) && rec in s
    ensures forall r :: r in Postpone(s, rec.id, nextAt) <==> (r in s && r.id != rec.id) || r == Delayed(rec, nextAt)
    ensures DistinctIds(Postpone(s, rec.id, nextAt)) && |Postpone(s, rec.id, nextAt)| == |s|
  {
    if s[0] == rec {
      assert forall x :: x in s[1..] ==> x.id != rec.id;
    } else {
      PostponeFacts(s[1..], rec, nextAt);
      var rest := Postpone(s[1..], rec.id, nextAt);
      forall k | 0 <= k < |rest| ensures rest[k].id != s[0].id {
        assert rest[k] in rest;
      }
    }
  }

  // ----- What one record's processing does -----

  /** Active records, dead letters, and what the relay has published and settled, in program order. */
  datatype View = View(records: seq<Record>, dlq: map<string, DeadLetter>, journal: seq<Entry>)

  /** The ids of the records taken out as sent. */
  function SentIds(journal: seq<Entry>): set<string> {
    set e | e in journal && e.Removed? :: e.recordId
  }

  lemma SentIdsAppend(journal: seq<Entry>, e: Entry)
    ensures SentIds(journal + [e]) == SentIds(journal) + if e.Removed? then {e.recordId} else {}
  {
    if e.Removed? {
      assert e in journal + [e];
    }
  }

  /** Every staged record is in one place, budgets are unspent, and dead letters failed exactly `cap` times. */
  ghost predicate Sound(cap: int, v: View) {
    && DistinctIds(v.records) && Budgeted(cap, v.records)
    && Ids(v.records) !! v.dlq.Keys && Ids(v.records) !! SentIds(v.journal) && v.dlq.Keys !! SentIds(v.journal)
    && (forall id :: id in v.dlq ==> v.dlq[id].attempts == cap)
  }

  function All(v: View): set<string> {
    Ids(v.records) + v.dlq.Keys + SentIds(v.journal)
  }

  /** A jittered delay after the relay's own clock: not in the past, and within a minute. */
  function NextAt(rec: Record, w: World): (at: int)
    ensures w.appNow <= at < w.appNow + 60_000_000_000
  {
    ShiftThenClampIsCurve(rec.attempts + 1);
    w.appNow + w.draw % Curve(rec.attempts + 1)
  }

  function If(b: bool, e: Entry): seq<Entry> {
    if b then [e] else []
  }

  function AfterFail(cap: int, v: View, rec: Record, w: World): View {
    var found := Find(v.records, rec.id);
    if cap > 0 && rec.attempts + 1 >= cap then
      match found
      case None => v
      case Some(r) =>
        View(Remove(v.records, rec.id), v.dlq[rec.id := DeadLetter(r, w.reason, w.appNow, r.attempts + 1)],
             v.journal + [Buried(rec.id)])
    else View(Postpone(v.records, rec.id, NextAt(rec, w)), v.dlq, v.journal + If(found.Some?, Postponed(rec.id)))
  }

  function AfterPublish(v: View, rec: Record, fate: Delivery): View {
    v.(journal := v.journal + If(!fate.Dropped?, Delivered(rec.event)))
  }

  function AfterSent(v: View, rec: Record): View {
    View(Remove(v.records, rec.id), v.dlq, v.journal + If(Find(v.records, rec.id).Some?, Removed(rec.id)))
  }

  function AfterProcess(cap: int, v: View, rec: Record, w: World): View {
    match w.progress
    case FailsEarly => AfterFail(cap, v, rec, w)
    case PublishFails(_) => AfterFail(cap, AfterPublish(v, rec, Fate(w.progress)), rec, w)
    case Publishes => AfterSent(AfterPublish(v, rec, Acknowledged), rec)
    case PublishesThenPanics => AfterFail(cap, AfterSent(AfterPublish(v, rec, Acknowledged), rec), rec, w)
  }

  /**
   * What a record's processing tells the world: at most one publication, of its own event, and then exactly
   * one settlement, which removes it only after an acknowledged publication.
   */
  function Told(cap: int, rec: Record, w: World): seq<Entry> {
    If(!w.progress.FailsEarly? && !Fate(w.progress).Dropped?, Delivered(rec.event))
    + [if w.progress.Publishes? || w.progress.PublishesThenPanics? then Removed(rec.id)
       else if cap > 0 && rec.attempts + 1 >= cap then Buried(rec.id) else Postponed(rec.id)]
  }

  /** Record by record what the relay tells: an unacknowledged publication is published and settled as failed. */
  lemma ToldInCases(cap: int, rec: Record, w: World)
    ensures var failed := if cap > 0 && rec.attempts + 1 >= cap then Buried(rec.id) else Postponed(rec.id);
            Told(cap, rec, w) ==
            match w.progress
            case FailsEarly => [failed]
            case PublishFails(false) => [failed]
            case PublishFails(true) => [Delivered(rec.event), failed]
            case Publishes => [Delivered(rec.event), Removed(rec.id)]
            case PublishesThenPanics => [Delivered(rec.event), Removed(rec.id)]
  {
  }

  /** Only record `rec` changes hands; the others stay as they are. */
  ghost predicate OthersStay(v: View, v2: View, rec: Record) {
    && (forall r: Record :: r.id != rec.id ==> (r in v.records <==> r in v2.records))
    && (forall id :: id != rec.id ==> (id in v.dlq <==> id in v2.dlq))
    && (forall id :: id != rec.id && id in v.dlq && id in v2.dlq ==> v2.dlq[id] == v.dlq[id])
  }

  /**
   * Where a failed record ends up: one attempt short of the cap or uncapped, it waits for a time the jitter
   * picks below the curve; at the cap it is a dead letter that counts this attempt too.
   */
  lemma FailInColumns(cap: int, v: View, rec: Record, w: World)
    requires Sound(cap, v) && rec in v.records
    ensures var v2 := AfterFail(cap, v, rec, w);
            && OthersStay(v, v2, rec)
            && if cap > 0 && rec.attempts + 1 >= cap
               then (forall r :: r in v2.records ==> r.id != rec.id)
                    && rec.id in v2.dlq && v2.dlq[rec.id] == DeadLetter(rec, w.reason, w.appNow, rec.attempts + 1)
               else v2.dlq == v.dlq && |v2.records| == |v.records|
                    && var at := w.appNow + w.draw % Curve(rec.attempts + 1);
                       Record(rec.id, rec.event, rec.createdAt, at, rec.attempts + 1) in v2.records
  {
    FindRecord(v.records, rec);
    RemoveFacts(cap, v.records, rec);
    PostponeFacts(v.records, rec, NextAt(rec, w));
    assert Delayed(rec, NextAt(rec, w))
           == Record(rec.id, rec.event, rec.createdAt, NextAt(rec, w), rec.attempts + 1);
  }

  /** A sent record is gone and no other is. */
  lemma SentInColumns(cap: int, v: View, rec: Record)
    requires Sound(cap, v) && rec in v.records
    ensures var v2 := AfterSent(v, rec);
            OthersStay(v, v2, rec) && v2.dlq == v.dlq && forall r :: r in v2.records ==> r.id != rec.id
  {
    RemoveFacts(cap, v.records, rec);
  }

  /** From `v` to `v2` nothing was lost, and only `rec` changed: it is gone, or waits less than a minute. */
  ghost predicate Spends(cap: int, v: View, v2: View, rec: Record, w: World) {
    && Sound(cap, v2) && All(v2) == All(v)
    && (cap > 0 ==> Budget(cap, v2.records) < Budget(cap, v.records))
    && |v2.records| <= |v.records|
    && (forall r :: r in v.records && r.id != rec.id ==> r in v2.records)
    && (forall r :: r in v2.records ==> r in v.records || r.availableAt < w.appNow + MaxBackoff)
  }

  lemma {:induction false} FindRecord(s: seq<Record>, rec: Record)
    requires DistinctIds(s) && rec in s
    ensures Find(s, rec.id) == Some(rec)
  {
    if s[0] != rec {
      FindRecord(s[1..], rec);
    }
  }

  lemma IdsAfterRemove(cap: int, s: seq<Record>, rec: Record)
    requires DistinctIds(s) && rec in s
    ensures Ids(Remove(s, rec.id)) == Ids(s) - {rec.id}
  {
    RemoveFacts(cap, s, rec);
    assert rec.id in Ids(s);
  }

  lemma PublishSpendsNothing(cap: int, v: View, rec: Record, fate: Delivery)
    requires Sound(cap, v)
    ensures Sound(cap, AfterPublish(v, rec, fate)) && All(AfterPublish(v, rec, fate)) == All(v)
  {
    SentIdsAppend(v.journal, Delivered(rec.event));
    assert v.journal + [] == v.journal;
  }

  lemma SentSpends(cap: int, v: View, rec: Record, w: World)
    requires Sound(cap, v) && rec in v.records
    ensures Spends(cap, v, AfterSent(v, rec), rec, w)
    ensures AfterSent(v, rec).journal == v.journal + [Removed(rec.id)]
  {
    FindRecord(v.records, rec);
    RemoveFacts(cap, v.records, rec);
    IdsAfterRemove(cap, v.records, rec);
    SentIdsAppend(v.journal, Removed(rec.id));
    assert rec.id in Ids(v.records);
    var rest := Remove(v.records, rec.id);
    forall k | 0 <= k < |rest| && cap > 0 ensures rest[k].attempts < cap {
      assert rest[k] in v.records;
    }
  }

  lemma BurySpends(cap: int, v: View, rec: Record, w: World)
    requires Sound(cap, v) && rec in v.records && cap > 0 && rec.attempts + 1 >= cap
    ensures Spends(cap, v, AfterFail(cap, v, rec, w), rec, w)
    ensures AfterFail(cap, v, rec, w).journal == v.journal + [Buried(rec.id)]
  {
    FindRecord(v.records, rec);
    RemoveFacts(cap, v.records, rec);
    IdsAfterRemove(cap, v.records, rec);
    SentIdsAppend(v.journal, Buried(rec.id));
    assert rec.id in Ids(v.records);
    var rest := Remove(v.records, rec.id);
    forall k | 0 <= k < |rest| ensures rest[k].attempts < cap {
      assert rest[k] in v.records;
    }
  }

  lemma PostponeSpends(cap: int, v: View, rec: Record, w: World)
    requires Sound(cap, v) && rec in v.records && !(cap > 0 && rec.attempts + 1 >= cap)
    ensures Spends(cap, v, AfterFail(cap, v, rec, w), rec, w)
    ensures AfterFail(cap, v, rec, w).journal == v.journal + [Postponed(rec.id)]
  {
    var nextAt := NextAt(rec, w);
    FindRecord(v.records, rec);
    PostponeBudget(cap, v.records, rec, nextAt);
    PostponeFacts(v.records, rec, nextAt);
    SentIdsAppend(v.journal, Postponed(rec.id));
    var s := Postpone(v.records, rec.id, nextAt);
    forall k | 0 <= k < |s| && cap > 0 ensures s[k].attempts < cap {
      assert s[k] in s;
    }
    assert Delayed(rec, nextAt) in s;
    assert forall id :: id in Ids(v.records) ==> exists r :: r in v.records && r.id == id;
    assert Ids(s) == Ids(v.records);
  }

  lemma FailSpends(cap: int, v: View, rec: Record, w: World)
    requires Sound(cap, v) && rec in v.records
    ensures Spends(cap, v, AfterFail(cap, v, rec, w), rec, w)
    ensures AfterFail(cap, v, rec, w).journal
            == v.journal + [if cap > 0 && rec.attempts + 1 >= cap then Buried(rec.id) else Postponed(rec.id)]
  {
    if cap > 0 && rec.attempts + 1 >= cap {
      BurySpends(cap, v, rec, w);
    } else {
      PostponeSpends(cap, v, rec, w);
    }
  }

  lemma PanicAfterSentIsSent(cap: int, v: View, rec: Record, w: World)
    requires Sound(cap, v) && rec in v.records
    ensures AfterFail(cap, AfterSent(v, rec), rec, w) == AfterSent(v, rec)
  {
    RemoveFacts(cap, v.records, rec);
    var rest := Remove(v.records, rec.id);
    forall k | 0 <= k < |rest| ensures rest[k].id != rec.id {
      assert rest[k] in rest;
    }
    AbsentId(rest, rec.id, NextAt(rec, w));
    FindAt(rest, rec.id, |rest|);
    assert AfterSent(v, rec).journal + [] == AfterSent(v, rec).journal;
  }

  /** Success, error or panic: one processed record strictly shrinks the budget and loses nothing. */
  lemma ProcessSpends(cap: int, v: View, rec: Record, w: World)
    requires Sound(cap, v) && rec in v.records
    ensures Spends(cap, v, AfterProcess(cap, v, rec, w), rec, w)
    ensures AfterProcess(cap, v, rec, w).journal == v.journal + Told(cap, rec, w)
  {
    if w.progress.FailsEarly? {
      FailSpends(cap, v, rec, w);
    } else {
      var published := AfterPublish(v, rec, Fate(w.progress));
      PublishSpendsNothing(cap, v, rec, Fate(w.progress));
      if w.progress.PublishFails? {
        FailSpends(cap, published, rec, w);
      } else {
        SentSpends(cap, published, rec, w);
        PanicAfterSentIsSent(cap, published, rec, w);
      }
    }
  }

  // ----- A drain -----

  function AfterBatch(cap: int, v: View, batch: seq<Record>, ws: seq<World>): View
    requires |batch| <= |ws|
    decreases |batch|
  {
    if batch == [] then v else AfterBatch(cap, AfterProcess(cap, v, batch[0], ws[0]), batch[1..], ws[1..])
  }

  function ToldAll(cap: int, batch: seq<Record>, ws: seq<World>): seq<Entry>
    requires |batch| <= |ws|
    decreases |batch|
  {
    if batch == [] then [] else Told(cap, batch[0], ws[0]) + ToldAll(cap, batch[1..], ws[1..])
  }

  /** The record's wait began in this drain, so it is over within a minute of one of these instants. */
  ghost predicate Awaits(r: Record, ws: seq<World>) {
    exists k :: 0 <= k < |ws| && r.availableAt < ws[k].appNow + MaxBackoff
  }

  /** Every wait begun in the drain ends before `bound`. */
  ghost predicate WaitsEnd(ws: seq<World>, bound: int) {
    forall k :: 0 <= k < |ws| ==> ws[k].appNow + MaxBackoff <= bound
  }

  /** After the first record of a batch the others are still there. */
  lemma HeadSpends(cap: int, v: View, batch: seq<Record>, w: World)
    requires Sound(cap, v) && batch != [] && DistinctIds(batch) && forall r :: r in batch ==> r in v.records
    ensures var v1 := AfterProcess(cap, v, batch[0], w);
            && Sound(cap, v1) && v1.journal == v.journal + Told(cap, batch[0], w)
            && DistinctIds(batch[1..]) && forall r :: r in batch[1..] ==> r in v1.records
  {
    ProcessSpends(cap, v, batch[0], w);
    forall r | r in batch[1..] ensures r.id != batch[0].id {
      var k :| 0 <= k < |batch[1..]| && batch[1..][k] == r;
      assert batch[k + 1] == r;
    }
  }

  /** Draining a batch spends at least one unit of budget per record; waits it starts are bounded. */
  lemma {:induction false} BatchSpends(cap: int, v: View, batch: seq<Record>, ws: seq<World>)
    requires Sound(cap, v) && |batch| <= |ws| && DistinctIds(batch) && forall r :: r in batch ==> r in v.records
    ensures var v2 := AfterBatch(cap, v, batch, ws);
            && Sound(cap, v2) && All(v2) == All(v)
            && (cap > 0 ==> Budget(cap, v2.records) <= Budget(cap, v.records) - |batch|)
            && |v2.records| <= |v.records|
            && (forall r :: r in v2.records ==> r in v.records || Awaits(r, ws))
    decreases |batch|
  {
    if batch != [] {
      var v1 := AfterProcess(cap, v, batch[0], ws[0]);
      ProcessSpends(cap, v, batch[0], ws[0]);
      HeadSpends(cap, v, batch, ws[0]);
      BatchSpends(cap, v1, batch[1..], ws[1..]);
      var v2 := AfterBatch(cap, v, batch, ws);
      forall r | r in v2.records ensures r in v.records || Awaits(r, ws) {
        if Awaits(r, ws[1..]) {
          var k :| 0 <= k < |ws[1..]| && r.availableAt < ws[1..][k].appNow + MaxBackoff;
          assert ws[k + 1] == ws[1..][k];
        }
      }
    }
  }

  /** A batch tells of its records one after the other, in Fetch order. */
  lemma {:induction false} BatchTells(cap: int, v: View, batch: seq<Record>, ws: seq<World>)
    requires Sound(cap, v) && |batch| <= |ws| && DistinctIds(batch) && forall r :: r in batch ==> r in v.records
    ensures AfterBatch(cap, v, batch, ws).journal == v.journal + ToldAll(cap, batch, ws)
    decreases |batch|
  {
    if batch == [] {
      assert v.journal + [] == v.journal;
    } else {
      HeadSpends(cap, v, batch, ws[0]);
      BatchTells(cap, AfterProcess(cap, v, batch[0], ws[0]), batch[1..], ws[1..]);
      Join3(v.journal, Told(cap, batch[0], ws[0]), ToldAll(cap, batch[1..], ws[1..]));
    }
  }

  class Relay {
    const store: Memory
    const publisher: Publisher
    const maxAttempts: int
    const batchSize: int
    var running: bool

    constructor (store: Memory, publisher: Publisher, maxAttempts: int, batchSize: int)
      ensures this.store == store && this.publisher == publisher
      ensures this.maxAttempts == maxAttempts && this.batchSize == batchSize && !running
    {
      this.store, this.publisher, this.maxAttempts, this.batchSize := store, publisher, maxAttempts, batchSize;
      running := false;
    }

    /** Publisher and store report to one journal. */
    ghost predicate Wired() {
      publisher.journal == store.journal
    }

    ghost function Seen(): View
      reads store, store.journal
    {
      View(store.records, store.dlq, store.journal.entries)
    }

    method Fail(rec: Record, w: World)
      modifies store, store.journal
      ensures Seen() == AfterFail(maxAttempts, old(Seen()), rec, w)
    {
      var nextAttempt := rec.attempts + 1;
      if maxAttempts > 0 && nextAttempt >= maxAttempts {
        RemoveMissing(store.records, rec.id);
        store.Terminate(rec.id, w.reason, w.appNow);
        return;
      }
      var delay := DefaultBackoff(nextAttempt, w.draw);
      store.MarkFailed(rec.id, w.appNow + delay);
    }

    method Process(rec: Record, w: World)
      requires Wired()
      modifies store, store.journal
      ensures Seen() == AfterProcess(maxAttempts, old(Seen()), rec, w)
    {
      if w.progress.FailsEarly? {
        Fail(rec, w);
        return;
      }
      var ok := publisher.Publish(rec.event, Fate(w.progress));
      if !ok {
        Fail(rec, w);
        return;
      }
      store.MarkSent(rec.id);
      if w.progress.PublishesThenPanics? {
        Fail(rec, w);
      }
    }

    /**
     * Fetch one batch and process it in order: each record's event is published and the record settled before
     * the next one's. A record was processed exactly when one was due.
     */
    method DrainOnce(now: int, ws: seq<World>) returns (n: nat, ghost batch: seq<Record>)
      requires Wired() && Sound(maxAttempts, Seen()) && |store.records| <= |ws|
      modifies store, store.journal
      ensures Sound(maxAttempts, Seen()) && All(Seen()) == old(All(Seen()))
      ensures IsBatch(old(store.records), batchSize, now, batch) && n == |batch| <= |ws|
      ensures store.journal.entries == old(store.journal.entries) + ToldAll(maxAttempts, batch, ws)
      ensures n > 0 <==> batchSize > 0 && exists r :: r in old(store.records) && r.availableAt <= now
      ensures maxAttempts > 0 ==> Budget(maxAttempts, store.records) <= old(Budget(maxAttempts, store.records)) - n
      ensures |store.records| <= |old(store.records)|
      ensures forall r :: r in store.records ==> r in old(store.records) || Awaits(r, ws)
    {
      ghost var v := Seen();
      var fetched := store.Fetch(batchSize, now);
      BatchFits(store.records, batchSize, now, fetched);
      BatchSpends(maxAttempts, v, fetched, ws);
      BatchTells(maxAttempts, v, fetched, ws);
      ProcessAll(fetched, ws);
      return |fetched|, fetched;
    }

    method ProcessAll(batch: seq<Record>, ws: seq<World>)
      requires Wired() && |batch| <= |ws|
      modifies store, store.journal
      ensures Seen() == AfterBatch(maxAttempts, old(Seen()), batch, ws)
    {
      ghost var end := AfterBatch(maxAttempts, Seen(), batch, ws);
      var i := 0;
      while i < |batch|
        invariant 0 <= i <= |batch|
        invariant AfterBatch(maxAttempts, Seen(), batch[i..], ws[i..]) == end
      {
        assert batch[i..][1..] == batch[i + 1..] && ws[i..][1..] == ws[i + 1..];
        Process(batch[i], ws[i]);
        i := i + 1;
      }
    }

    /**
     * Run until cancelled, one drain per tick. `productive` counts the ticks that found a due record. With
     * a cap they number at most the budget left at the start; and when every tick comes a minute after the
     * waits before it began, a budget's worth of ticks leaves nothing active: all is sent or dead-lettered.
     */
    method Run(ticks: seq<Tick>) returns (productive: nat, r: Result<(), RelayError>)
      requires Wired() && Sound(maxAttempts, Seen()) && forall t :: t in ticks ==> |store.records| <= |t.ws|
      modifies this, store, store.journal
      ensures r == Err(if old(running) then AlreadyRunning else Cancelled) && running == old(running)
      ensures old(running) ==> Seen() == old(Seen())
      ensures Sound(maxAttempts, Seen()) && All(Seen()) == old(All(Seen()))
      ensures maxAttempts > 0 ==> 0 <= Budget(maxAttempts, store.records)
                                    <= old(Budget(maxAttempts, store.records)) - productive
      ensures maxAttempts > 0 && batchSize > 0 && !old(running) && Spaced(old(store.records), ticks)
              && |ticks| >= old(Budget(maxAttempts, store.records))
              ==> store.records == []
    {
      productive := 0;
      if running {
        BudgetAboveZero(maxAttempts, store.records);
        return productive, Err(AlreadyRunning);
      }
      running := true;
      ghost var start, all, budget := store.records, All(Seen()), Budget(maxAttempts, store.records);
      ghost var spaced := Spaced(start, ticks);
      var i := 0;
      while i < |ticks|
        invariant 0 <= i <= |ticks| && running
        invariant Sound(maxAttempts, Seen()) && All(Seen()) == all && |store.records| <= |start|
        invariant maxAttempts > 0 ==> Budget(maxAttempts, store.records) <= budget - productive
        invariant spaced ==> Ready(store.records, ticks, i)
        invariant spaced && batchSize > 0 ==> productive == i || store.records == []
      {
        var t := ticks[i];
        assert t in ticks;
        ghost var before := store.records;
        var n, _ := DrainOnce(t.now, t.ws);
        if n > 0 {
          productive := productive + 1;
        }
        if spaced {
          FirstIsDue(before, ticks, i);
          StillReady(start, before, store.records, ticks, i + 1);
        }
        i := i + 1;
      }
      running := false;
      BudgetAboveZero(maxAttempts, store.records);
      return productive, Err(Cancelled);
    }
  }

  /** Every record is due at every tick from `i` on. */
  ghost predicate Ready(s: seq<Record>, ticks: seq<Tick>, i: nat) {
    forall r, j :: r in s && i <= j < |ticks| ==> r.availableAt <= ticks[j].now
  }

  /** All records are due from the first tick on, and each tick comes after all waits begun before it. */
  ghost predicate Spaced(s: seq<Record>, ticks: seq<Tick>) {
    Ready(s, ticks, 0) && forall i, j :: 0 <= i < j < |ticks| ==> WaitsEnd(ticks[i].ws, ticks[j].now)
  }

  lemma FirstIsDue(s: seq<Record>, ticks: seq<Tick>, i: nat)
    requires Ready(s, ticks, i) && i < |ticks|
    ensures s != [] ==> exists r :: r in s && r.availableAt <= ticks[i].now
  {
    if s != [] {
      assert s[0] in s;
    }
  }

  lemma StillReady(start: seq<Record>, s: seq<Record>, s2: seq<Record>, ticks: seq<Tick>, i: nat)
    requires Spaced(start, ticks) && 0 < i <= |ticks| && Ready(s, ticks, i - 1)
    requires forall r :: r in s2 ==> r in s || Awaits(r, ticks[i - 1].ws)
    ensures Ready(s2, ticks, i)
  {
    forall r, j | r in s2 && i <= j < |ticks| ensures r.availableAt <= ticks[j].now {
      if r !in s {
        assert WaitsEnd(ticks[i - 1].ws, ticks[j].now);
      }
    }
  }

  lemma BudgetAboveZero(cap: int, s: seq<Record>)
    requires Budgeted(cap, s)
    ensures cap > 0 ==> Budget(cap, s) >= |s|
  {
    if cap > 0 {
      BudgetCoversAll(cap, s);
    }
  }

  lemma RemoveMissing(s: seq<Record>, id: string)
    ensures Find(s, id) == None ==> Remove(s, id) == s
  {
  }

  lemma {:induction false} DueCount(s: seq<Record>, now: int)
    ensures |MemoryOutbox.Due(s, now)| <= |s|
    ensures |MemoryOutbox.Due(s, now)| > 0 <==> exists r :: r in s && r.availableAt <= now
  {
    var due := MemoryOutbox.Due(s, now);
    assert |due| > 0 ==> due[0] in due;
    if s != [] {
      DueCount(s[..|s| - 1], now);
    }
  }

  lemma SameRecord(s: seq<Record>, a: Record, b: Record)
    requires DistinctIds(s) && a in s && b in s && a.id == b.id
    ensures a == b
  {
    var i :| 0 <= i < |s| && s[i] == a;
    var j :| 0 <= j < |s| && s[j] == b;
    assert i == j;
  }

  lemma PartOfDistinct(b: seq<Record>, s: seq<Record>)
    requires DistinctIds(s) && multiset(b) <= multiset(s)
    ensures DistinctIds(b) && forall r :: r in b ==> r in s
  {
    forall r | r in b ensures r in s {
      assert r in multiset(b) && r in multiset(s);
    }
    forall i, j | 0 <= i < j < |b| ensures b[i].id != b[j].id {
      if b[i].id == b[j].id {
        SameRecord(s, b[i], b[j]);
        var k :| 0 <= k < |s| && s[k] == b[i];
        Single(s, k);
        Repeated(b, i, j);
      }
    }
  }

  lemma BatchFits(s: seq<Record>, limit: int, now: int, batch: seq<Record>)
    requires IsBatch(s, limit, now, batch) && DistinctIds(s)
    ensures |batch| <= |s| && DistinctIds(batch) && forall r :: r in batch ==> r in s
    ensures |batch| > 0 <==> limit > 0 && exists r :: r in s && r.availableAt <= now
  {
    DueCount(s, now);
    DueDistinct(s, now);
    PartOfDistinct(batch, MemoryOutbox.Due(s, now));
  }
}
