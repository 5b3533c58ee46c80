/**
 * Fetch as Postgres runs it: the statement lists the due rows of its snapshot in order, then tries to lock
 * them one by one until it has enough. A row some other transaction has locked is skipped; a row that
 * changed since the snapshot is checked again. The rows locked are stamped later. Every interleaving of such
 * fetches with everything else behaves like a run of the protocol in which each Fetch is one atomic step,
 * and a due row is left out only for a cause.
 */
module OutboxSkipLocked {
  import opened OutboxTables
  import opened OutboxProtocol
  import opened OutboxSafety
  import opened Wrappers
  import OutboxProgress

  type FetchId = int

  /**
   * An open Fetch transaction: its now(), the rows its snapshot shows, the due ones among them in order, how
   * far down that list it is, and the rows it has locked.
   */
  datatype Open = Open(relay: RelayId, at: int, limit: int, seen: map<RowId, Row>, list: seq<RowId>, pos: nat,
                       held: seq<RowId>)

  /** `begun` are all transactions so far; `settling` are rows a settlement statement has locked and not yet let go. */
  datatype Fine = Fine(s: State, open: map<FetchId, Open>, begun: set<FetchId>, settling: set<RowId>)

  datatype FineStep =
    | Begin(f: FetchId, relay: RelayId, at: int, limit: int, list: seq<RowId>)
    | Scan(f: FetchId)
    | StampRows(f: FetchId, lease: int, picked: seq<RowId>, claims: map<RowId, Token>, replied: bool)
    | Abort(f: FetchId)
    | Seize(id: RowId)
    | Release(id: RowId)
    | Other(step: Step)

  const FineInit := Fine(Init, map[], {}, {})

  ghost predicate InOrder(active: map<RowId, Row>, ids: seq<RowId>) {
    && (forall i :: 0 <= i < |ids| ==> ids[i] in active)
    && (forall i, j :: 0 <= i < j < |ids| ==> Before(active, ids[i], ids[j]))
  }

  /** All due rows, ORDER BY available_at, id. */
  ghost predicate IsListing(rows: map<RowId, Row>, at: int, list: seq<RowId>) {
    && InOrder(rows, list)
    && (forall id :: id in list <==> id in rows && Due(rows[id], at))
  }

  ghost predicate HeldByOther(c: Fine, f: FetchId, id: RowId) {
    exists g :: g in c.open && g != f && id in c.open[g].held
  }

  ghost predicate LockedByOther(c: Fine, f: FetchId, id: RowId) {
    id in c.settling || HeldByOther(c, f, id)
  }

  ghost predicate Held(c: Fine, id: RowId) {
    exists g :: g in c.open && id in c.open[g].held
  }

  /** LIMIT is reached or the list is exhausted. */
  predicate ScanDone(o: Open) {
    o.pos >= |o.list| || |o.held| >= o.limit
  }

  /** The next row of the list can be locked: nobody else has it, and it is still due as it is now. */
  ghost predicate Lockable(c: Fine, f: FetchId, id: RowId)
    requires f in c.open
  {
    !LockedByOther(c, f, id) && id in c.s.tables.active && Due(c.s.tables.active[id], c.open[f].at)
  }

  ghost predicate FineEnabled(c: Fine, step: FineStep) {
    match step
    case Begin(f, relay, at, limit, list) =>
      && f !in c.begun && relay !in c.s.relays && (forall g :: g in c.open ==> c.open[g].relay != relay)
      && at <= c.s.now && IsListing(c.s.tables.active, at, list)
    case Scan(f) => f in c.open && !ScanDone(c.open[f])
    case StampRows(f, lease, picked, claims, _) =>
      // The outer SELECT sorts again, by the rows as they are now.
      && f in c.open && ScanDone(c.open[f]) && 0 < lease
      && InOrder(c.s.tables.active, picked) && (forall id :: id in picked <==> id in c.open[f].held)
      && FreshClaims(c.s, picked, claims)
    case Abort(f) => f in c.open
    case Seize(id) => id in c.s.tables.active && id !in c.settling && !Held(c, id)
    case Release(id) => id in c.settling
    case Other(step) =>
      && !step.Fetch? && Enabled(c.s, step)
      // A statement that would change a locked row waits for the lock.
      && (step.Land? && Matches(c.s.tables, step.cmd.rec.id, step.cmd.rec.token) ==> !Held(c, step.cmd.rec.id))
  }

  ghost function FineApply(cap: int, c: Fine, step: FineStep): Fine
    requires FineEnabled(c, step)
  {
    match step
    case Begin(f, relay, at, limit, list) =>
      c.(open := c.open[f := Open(relay, at, limit, c.s.tables.active, list, 0, [])], begun := c.begun + {f})
    case Scan(f) =>
      var o := c.open[f];
      var id := o.list[o.pos];
      c.(open := c.open[f := o.(pos := o.pos + 1, held := if Lockable(c, f, id) then o.held + [id] else o.held)])
    case StampRows(f, lease, picked, claims, replied) =>
      // The commit releases the locks.
      var o, s := c.open[f], c.s;
      var until, answer := o.at + lease, Snapshots(s.tables.active, picked, claims);
      c.(s := State(s.now,
                    Tables(Stamp(s.tables.active, claims, until), s.tables.dead),
                    s.used + claims.Values,
                    if replied && answer != [] then s.relays[o.relay := Work(answer, Fresh)] else s.relays,
                    s.issued,
                    s.log + [Claimed(o.relay, o.at, until, claims)]),
         open := c.open - {f})
    case Abort(f) => c.(open := c.open - {f})
    case Seize(id) => c.(settling := c.settling + {id})
    case Release(id) => c.(settling := c.settling - {id})
    case Other(step) => c.(s := Apply(cap, c.s, step))
  }

  /** A settlement statement can lock a row nobody holds; an open fetch that comes to it skips it until it lets go. */
  lemma SettlementLocks(cap: int, c: Fine, id: RowId, f: FetchId)
    requires id in c.s.tables.active && id !in c.settling && forall g :: g in c.open ==> id !in c.open[g].held
    ensures FineEnabled(c, Seize(id)) && FineEnabled(FineApply(cap, c, Seize(id)), Release(id))
    ensures FineApply(cap, FineApply(cap, c, Seize(id)), Release(id)) == c
    ensures f in c.open && c.open[f].pos < |c.open[f].list| && c.open[f].list[c.open[f].pos] == id
            && |c.open[f].held| < c.open[f].limit ==>
              var c1 := FineApply(cap, c, Seize(id));
              FineEnabled(c1, Scan(f)) && FineApply(cap, c1, Scan(f)).open[f] == c.open[f].(pos := c.open[f].pos + 1)
  {
    assert c.settling + {id} - {id} == c.settling;
  }

  /** Where a sequence of steps leads; None if one of them was not possible. */
  ghost function FineRun(cap: int, steps: seq<FineStep>): Option<Fine> {
    if steps == [] then Some(FineInit) else
      match FineRun(cap, steps[..|steps| - 1])
      case None => None
      case Some(c) =>
        var last := steps[|steps| - 1];
        if FineEnabled(c, last) then Some(FineApply(cap, c, last)) else None
  }

  // ----- The invariant -----

  /** What a fetch has locked: due rows from the part of its list already scanned, in list order. */
  ghost predicate HoldsRows(c: Fine, f: FetchId)
    requires f in c.open
  {
    var o, active := c.open[f], c.s.tables.active;
    && o.relay !in c.s.relays && o.at <= c.s.now && f in c.begun
    && IsListing(o.seen, o.at, o.list) && o.pos <= |o.list|
    && |o.held| <= (if o.limit <= 0 then 0 else o.limit)
    && (forall i :: 0 <= i < |o.held| ==> o.held[i] in o.list[..o.pos])
    && InOrder(o.seen, o.held)
    && (forall id :: id in o.held ==> id in active && Due(active[id], o.at))
  }

  /** No row is held twice, and a relay waits for one fetch at a time. */
  ghost predicate FineDisjoint(c: Fine) {
    && (forall f, g, id :: f in c.open && g in c.open && id in c.open[f].held && id in c.open[g].held ==> f == g)
    && (forall f, g :: f in c.open && g in c.open && c.open[f].relay == c.open[g].relay ==> f == g)
  }

  ghost predicate FineInv(cap: int, c: Fine) {
    Inv(cap, c.s) && FineDisjoint(c) && forall f :: f in c.open ==> HoldsRows(c, f)
  }

  /** A step that leaves the rows fetch `f` holds, and its relay, alone. */
  ghost predicate Spares(c: Fine, c': Fine, f: FetchId)
    requires f in c.open
  {
    var o, active, active' := c.open[f], c.s.tables.active, c'.s.tables.active;
    && o.relay !in c'.s.relays && c.s.now <= c'.s.now && c.begun <= c'.begun
    && forall id :: id in o.held && id in active ==> id in active' && active'[id] == active[id]
  }

  /** A row that is held stays as it is until its own fetch lets go. */
  lemma HeldRowKept(cap: int, c: Fine, step: Step, id: RowId)
    requires FineEnabled(c, Other(step)) && Held(c, id) && id in c.s.tables.active && WasStaged(c.s.log, id)
    ensures var active' := Apply(cap, c.s, step).tables.active; id in active' && active'[id] == c.s.tables.active[id]
  {
  }

  /** A relay that waits for its fetch takes no step of its own. */
  lemma WaitingRelay(cap: int, s: State, step: Step, r: RelayId)
    requires Enabled(s, step) && !step.Fetch? && r !in s.relays
    ensures r !in Apply(cap, s, step).relays && s.now <= Apply(cap, s, step).now
  {
  }

  lemma OtherSpares(cap: int, c: Fine, step: FineStep, f: FetchId)
    requires FineInv(cap, c) && FineEnabled(c, step) && step.Other? && f in c.open
    ensures Spares(c, FineApply(cap, c, step), f)
  {
    var active' := Apply(cap, c.s, step.step).tables.active;
    assert HoldsRows(c, f);
    WaitingRelay(cap, c.s, step.step, c.open[f].relay);
    forall id | id in c.open[f].held ensures id in active' && active'[id] == c.s.tables.active[id] {
      assert Staged(id, c.s.tables.active[id].event) in c.s.log;
      HeldRowKept(cap, c, step.step, id);
    }
  }

  lemma StampSpares(cap: int, c: Fine, step: FineStep, f: FetchId)
    requires FineInv(cap, c) && FineEnabled(c, step) && step.StampRows? && f in c.open && step.f != f
    ensures Spares(c, FineApply(cap, c, step), f)
  {
    assert HoldsRows(c, f);
    assert forall id :: id in step.claims ==> id in c.open[step.f].held;
  }

  lemma Spared(c: Fine, c': Fine, f: FetchId)
    requires f in c.open && HoldsRows(c, f) && Spares(c, c', f) && f in c'.open && c'.open[f] == c.open[f]
    ensures HoldsRows(c', f)
  {
  }

  /** The row a scan has come to comes after all those already scanned. */
  lemma NextIsLast(o: Open, id: RowId)
    requires IsListing(o.seen, o.at, o.list) && o.pos < |o.list| && id in o.list[..o.pos]
    ensures Before(o.seen, id, o.list[o.pos])
  {
    var i :| 0 <= i < o.pos && o.list[i] == id;
    assert Before(o.seen, o.list[i], o.list[o.pos]);
  }

  /** With the row the scan has come to, what is held stays in order and inside the part scanned. */
  lemma HeldExtends(o: Open)
    requires IsListing(o.seen, o.at, o.list) && o.pos < |o.list| && InOrder(o.seen, o.held)
    requires forall i :: 0 <= i < |o.held| ==> o.held[i] in o.list[..o.pos]
    ensures var held, scanned := o.held + [o.list[o.pos]], o.list[..o.pos + 1];
            InOrder(o.seen, held) && forall i :: 0 <= i < |held| ==> held[i] in scanned
  {
    assert o.list[..o.pos + 1] == o.list[..o.pos] + [o.list[o.pos]];
    forall i | 0 <= i < |o.held| ensures Before(o.seen, o.held[i], o.list[o.pos]) {
      NextIsLast(o, o.held[i]);
    }
  }

  lemma ScanHolds(cap: int, c: Fine, f: FetchId)
    requires FineEnabled(c, Scan(f)) && HoldsRows(c, f)
    ensures HoldsRows(FineApply(cap, c, Scan(f)), f)
  {
    HeldExtends(c.open[f]);
  }

  lemma HoldsKept(cap: int, c: Fine, step: FineStep, f: FetchId)
    requires FineInv(cap, c) && FineEnabled(c, step) && f in FineApply(cap, c, step).open
    ensures HoldsRows(FineApply(cap, c, step), f)
  {
    var c' := FineApply(cap, c, step);
    if f in c.open && !(step.Scan? && step.f == f) {
      assert HoldsRows(c, f);
      if step.Other? {
        OtherSpares(cap, c, step, f);
      } else if step.StampRows? {
        StampSpares(cap, c, step, f);
      }
      assert !(step.Begin? && step.f == f);
      Spared(c, c', f);
    } else if f in c.open {
      ScanHolds(cap, c, f);
    }
  }

  lemma DisjointKept(cap: int, c: Fine, step: FineStep)
    requires FineInv(cap, c) && FineEnabled(c, step)
    ensures FineDisjoint(FineApply(cap, c, step))
  {
    if step.Scan? {
      var o := c.open[step.f];
      var id := o.list[o.pos];
      assert Lockable(c, step.f, id) ==> forall g :: g in c.open && g != step.f ==> id !in c.open[g].held;
    }
  }

  // ----- The refinement -----

  lemma {:induction false} DistinctSize<T>(s: seq<T>)
    requires Distinct(s)
    ensures |set x | x in s| == |s|
  {
    if s != [] {
      var rest := s[..|s| - 1];
      DistinctSize(rest);
      assert (set x | x in s) == (set x | x in rest) + {s[|s| - 1]};
    }
  }

  lemma OrderedIsDistinct(active: map<RowId, Row>, ids: seq<RowId>)
    requires InOrder(active, ids)
    ensures Distinct(ids)
  {
    forall i, j | 0 <= i < j < |ids| ensures ids[i] != ids[j] {
      assert Before(active, ids[i], ids[j]);
    }
  }

  lemma SameSize(active: map<RowId, Row>, seen: map<RowId, Row>, picked: seq<RowId>, held: seq<RowId>)
    requires InOrder(active, picked) && InOrder(seen, held) && forall id :: id in picked <==> id in held
    ensures |picked| == |held|
  {
    OrderedIsDistinct(active, picked);
    OrderedIsDistinct(seen, held);
    DistinctSize(picked);
    DistinctSize(held);
    assert (set id | id in picked) == (set id | id in held);
  }

  /** The due rows an atomic Fetch with the same limit would have taken in preference to some row held. */
  ghost function PassedOver(c: Fine, f: FetchId): set<RowId>
    requires f in c.open
  {
    var o, active := c.open[f], c.s.tables.active;
    set id | id in active && Due(active[id], o.at) && id !in o.held
             && (|o.held| < o.limit || exists h :: h in o.held && h in active && !Before(active, h, id))
  }

  /** The atomic Fetch a stamping transaction stands for. */
  ghost function AsFetch(c: Fine, step: FineStep): Step
    requires step.StampRows? && step.f in c.open
  {
    var o := c.open[step.f];
    var until := o.at + step.lease;
    Fetch(o.relay, o.at, o.limit, until, PassedOver(c, step.f), step.picked, step.claims, step.replied)
  }

  lemma StampIsPick(c: Fine, step: FineStep)
    requires FineEnabled(c, step) && step.StampRows? && HoldsRows(c, step.f)
    ensures var o := c.open[step.f];
            IsPick(c.s.tables.active, o.at, o.limit, PassedOver(c, step.f), step.picked)
  {
    SameSize(c.s.tables.active, c.open[step.f].seen, step.picked, c.open[step.f].held);
  }

  /** A fine step is one protocol step, or none. */
  ghost function Project(c: Fine, step: FineStep): seq<Step>
    requires FineEnabled(c, step)
  {
    match step
    case StampRows(_, _, _, _, _) => [AsFetch(c, step)]
    case Other(step) => [step]
    case _ => []
  }

  lemma OneStep(cap: int, s: State, step: Step)
    requires Enabled(s, step)
    ensures ValidRun(cap, s, [step]) && Run(cap, s, [step]) == Apply(cap, s, step)
  {
    assert [step][1..] == [];
    assert ValidRun(cap, Apply(cap, s, step), []);
  }

  lemma StepRefines(cap: int, c: Fine, step: FineStep)
    requires FineInv(cap, c) && FineEnabled(c, step)
    ensures ValidRun(cap, c.s, Project(c, step))
    ensures Run(cap, c.s, Project(c, step)) == FineApply(cap, c, step).s
  {
    if step.StampRows? {
      assert HoldsRows(c, step.f);
      StampIsPick(c, step);
      OneStep(cap, c.s, AsFetch(c, step));
    } else if step.Other? {
      OneStep(cap, c.s, step.step);
    }
  }

  lemma FineInvStep(cap: int, c: Fine, step: FineStep)
    requires FineInv(cap, c) && FineEnabled(c, step)
    ensures FineInv(cap, FineApply(cap, c, step))
  {
    var c' := FineApply(cap, c, step);
    StepRefines(cap, c, step);
    InvRun(cap, c.s, Project(c, step));
    forall f | f in c'.open ensures HoldsRows(c', f) {
      HoldsKept(cap, c, step, f);
    }
    DisjointKept(cap, c, step);
  }

  lemma {:induction false} FineInvRun(cap: int, steps: seq<FineStep>)
    requires FineRun(cap, steps).Some?
    ensures FineInv(cap, FineRun(cap, steps).value)
  {
    if steps == [] {
      InvInit(cap);
    } else {
      var before := steps[..|steps| - 1];
      FineInvRun(cap, before);
      FineInvStep(cap, FineRun(cap, before).value, steps[|steps| - 1]);
    }
  }

  /**
   * Every run with row locks reaches a state of the atomic protocol, so all its theorems carry over; and
   * fetches that are open at the same time hold disjoint rows.
   */
  lemma {:induction false} SkipLockedRefinesAtomicFetch(cap: int, steps: seq<FineStep>) returns (run: seq<Step>)
    requires FineRun(cap, steps).Some?
    ensures var c := FineRun(cap, steps).value;
            && ValidRun(cap, Init, run) && Run(cap, Init, run) == c.s
            && forall f, g, id :: f in c.open && g in c.open && f != g && id in c.open[f].held ==> id !in c.open[g].held
    decreases |steps|
  {
    FineInvRun(cap, steps);
    if steps == [] {
      run := [];
    } else {
      var before, last := steps[..|steps| - 1], steps[|steps| - 1];
      var c := FineRun(cap, before).value;
      FineInvRun(cap, before);
      var first := SkipLockedRefinesAtomicFetch(cap, before);
      StepRefines(cap, c, last);
      RunConcat(cap, Init, first, Project(c, last));
      run := first + Project(c, last);
    }
  }

  /** No fetch ever waits: in every reachable state it can scan on, or it is done and can stamp what it holds. */
  lemma OpenFetchNeverWaits(cap: int, steps: seq<FineStep>, f: FetchId, lease: int) returns (step: FineStep)
    requires FineRun(cap, steps).Some? && f in FineRun(cap, steps).value.open && lease > 0
    ensures FineEnabled(FineRun(cap, steps).value, step)
    ensures step == Scan(f) || (step.StampRows? && step.f == f && step.lease == lease)
  {
    var c := FineRun(cap, steps).value;
    FineInvRun(cap, steps);
    assert HoldsRows(c, f);
    if !ScanDone(c.open[f]) {
      step := Scan(f);
    } else {
      var ids := set id | id in c.open[f].held;
      var picked := OutboxProgress.SortedListing(c.s.tables.active, ids);
      var claims := OutboxProgress.FreshTokens(c.s.used, picked);
      assert forall i :: 0 <= i < |picked| ==> picked[i] in ids;
      step := StampRows(f, lease, picked, claims, true);
    }
  }

  // ----- Why a row is left out -----

  /** The row is not what the snapshot of the fetch shows: changed, gone, or new. */
  ghost predicate ChangedSince(c: Fine, f: FetchId, id: RowId)
    requires f in c.open
  {
    var seen, active := c.open[f].seen, c.s.tables.active;
    if id in seen then id !in active || active[id] != seen[id] else id in active
  }

  /** At this moment another transaction had the row locked, or it had changed. */
  ghost predicate InTheWay(c: Fine, f: FetchId, id: RowId) {
    f in c.open && (LockedByOther(c, f, id) || ChangedSince(c, f, id))
  }

  /** At some moment of the run so far, while fetch `f` was open, something was in the way of this row. */
  ghost predicate HadCause(cap: int, steps: seq<FineStep>, f: FetchId, id: RowId) {
    exists n :: 0 <= n <= |steps| && FineRun(cap, steps[..n]).Some? && InTheWay(FineRun(cap, steps[..n]).value, f, id)
  }

  lemma CauseKept(cap: int, steps: seq<FineStep>, last: FineStep, f: FetchId, id: RowId)
    requires HadCause(cap, steps, f, id)
    ensures HadCause(cap, steps + [last], f, id)
  {
    var n :| 0 <= n <= |steps| && FineRun(cap, steps[..n]).Some? && InTheWay(FineRun(cap, steps[..n]).value, f, id);
    assert (steps + [last])[..n] == steps[..n];
  }

  lemma CauseNow(cap: int, steps: seq<FineStep>, f: FetchId, id: RowId)
    requires FineRun(cap, steps).Some? && InTheWay(FineRun(cap, steps).value, f, id)
    ensures HadCause(cap, steps, f, id)
  {
    assert steps[..|steps|] == steps;
  }

  /** The scan leaves a row unlocked only when something is in its way. */
  lemma ScanSkipsForCause(c: Fine, f: FetchId)
    requires FineEnabled(c, Scan(f)) && HoldsRows(c, f)
    ensures var o := c.open[f]; !Lockable(c, f, o.list[o.pos]) ==> InTheWay(c, f, o.list[o.pos])
  {
    var o := c.open[f];
    assert o.list[o.pos] in o.list;
  }

  /** A fetch that has scanned something was open before, and only a scan of its own has moved it. */
  lemma OpenStep(cap: int, c: Fine, step: FineStep, f: FetchId)
    requires FineEnabled(c, step) && f in FineApply(cap, c, step).open && FineApply(cap, c, step).open[f].pos > 0
    ensures f in c.open
    ensures var o, o' := c.open[f], FineApply(cap, c, step).open[f];
            if step == Scan(f)
            then o' == o.(pos := o.pos + 1, held := o'.held)
                 && o'.held == (if Lockable(c, f, o.list[o.pos]) then o.held + [o.list[o.pos]] else o.held)
            else o' == o
  {
  }

  /** Every row a fetch scanned and did not lock had something in its way. */
  lemma {:induction false} ScannedOrCause(cap: int, steps: seq<FineStep>, f: FetchId, p: nat)
    requires FineRun(cap, steps).Some? && f in FineRun(cap, steps).value.open
    requires var o := FineRun(cap, steps).value.open[f]; p < o.pos && p < |o.list| && o.list[p] !in o.held
    ensures HadCause(cap, steps, f, FineRun(cap, steps).value.open[f].list[p])
  {
    var before, last := steps[..|steps| - 1], steps[|steps| - 1];
    assert steps == before + [last];
    var c := FineRun(cap, before).value;
    OpenStep(cap, c, last, f);
    var id := c.open[f].list[p];
    if p < c.open[f].pos {
      ScannedOrCause(cap, before, f, p);
    } else {
      FineInvRun(cap, before);
      ScanSkipsForCause(c, f);
      CauseNow(cap, before, f, id);
    }
    CauseKept(cap, before, last, f, id);
  }

  /** Row `h`, held, has changed so much since the snapshot that row `id` now comes first. */
  ghost predicate Overtaken(c: Fine, f: FetchId, id: RowId) {
    && f in c.open && id in c.s.tables.active
    && exists h :: h in c.open[f].held && h in c.s.tables.active
                   && !Before(c.s.tables.active, h, id) && ChangedSince(c, f, h)
  }

  /**
   * Why a due row is passed over. In every run, when a fetch stamps its rows, each due row that an atomic
   * Fetch would have preferred was locked by another transaction, or had changed since the snapshot, at some
   * moment while the fetch was open; or a row the fetch did lock changed meanwhile and fell behind it.
   */
  lemma PassedOverForCause(cap: int, steps: seq<FineStep>, stamp: FineStep, id: RowId)
    requires FineRun(cap, steps).Some? && stamp.StampRows? && FineEnabled(FineRun(cap, steps).value, stamp)
    requires id in AsFetch(FineRun(cap, steps).value, stamp).skip
    ensures HadCause(cap, steps, stamp.f, id) || Overtaken(FineRun(cap, steps).value, stamp.f, id)
  {
    var c, f := FineRun(cap, steps).value, stamp.f;
    var o := c.open[f];
    FineInvRun(cap, steps);
    assert HoldsRows(c, f);
    if ChangedSince(c, f, id) {
      CauseNow(cap, steps, f, id);
    } else {
      var p :| 0 <= p < |o.list| && o.list[p] == id;
      if p < o.pos {
        ScannedOrCause(cap, steps, f, p);
      } else {
        UnscannedIsOvertaken(c, f, p);
      }
    }
  }

  /** The limit was reached before row `p` of the list, yet a held row no longer comes before it. */
  lemma UnscannedIsOvertaken(c: Fine, f: FetchId, p: nat)
    requires f in c.open && HoldsRows(c, f) && ScanDone(c.open[f])
    requires c.open[f].pos <= p < |c.open[f].list| && c.open[f].list[p] in PassedOver(c, f)
    requires !ChangedSince(c, f, c.open[f].list[p])
    ensures Overtaken(c, f, c.open[f].list[p])
  {
    var o, active := c.open[f], c.s.tables.active;
    var id := o.list[p];
    var h :| h in o.held && h in active && !Before(active, h, id);
    assert h in o.list[..o.pos];
    var q :| 0 <= q < o.pos && o.list[q] == h;
    assert Before(o.seen, o.list[q], o.list[p]);
  }

  /** A row that nothing was in the way of is passed over if and only if it is due and has been overtaken. */
  lemma WithoutCauseIffOvertaken(cap: int, steps: seq<FineStep>, stamp: FineStep, id: RowId)
    requires FineRun(cap, steps).Some? && stamp.StampRows? && FineEnabled(FineRun(cap, steps).value, stamp)
    requires !HadCause(cap, steps, stamp.f, id)
    ensures var c := FineRun(cap, steps).value;
            var o, active := c.open[stamp.f], c.s.tables.active;
            id in AsFetch(c, stamp).skip
            <==> id in active && Due(active[id], o.at) && id !in o.held && Overtaken(c, stamp.f, id)
  {
    var c := FineRun(cap, steps).value;
    if id in AsFetch(c, stamp).skip {
      PassedOverForCause(cap, steps, stamp, id);
    }
  }

  lemma SortedOnce(active: map<RowId, Row>, at: int, picked: seq<RowId>, held: seq<RowId>)
    requires InOrder(active, picked) && InOrder(active, held) && forall id :: id in picked <==> id in held
    requires forall id :: id in held ==> Due(active[id], at)
    ensures picked == held
  {
    SameSize(active, active, picked, held);
    var others := set id | id in active && id !in held;
    PickIsUnique(active, at, |held|, others, picked, held);
  }

  /** Of two held rows the one locked first has come to stand behind the other, and one of them has changed. */
  ghost predicate FellBehind(c: Fine, f: FetchId, i: nat, j: nat)
    requires f in c.open && HoldsRows(c, f)
  {
    var held, active := c.open[f].held, c.s.tables.active;
    && i < j < |held| && held[i] in active && held[j] in active && Before(active, held[j], held[i])
    && (ChangedSince(c, f, held[i]) || ChangedSince(c, f, held[j]))
  }

  /** Held rows are out of order exactly when some row that changed and another have traded places. */
  lemma OutOfOrderMeansFellBehind(c: Fine, f: FetchId)
    requires f in c.open && HoldsRows(c, f)
    ensures !InOrder(c.s.tables.active, c.open[f].held) <==> exists i, j :: FellBehind(c, f, i, j)
  {
    var o, active := c.open[f], c.s.tables.active;
    assert forall i :: 0 <= i < |o.held| ==> o.held[i] in active;
    OrderedIsDistinct(o.seen, o.held);
    forall i, j | 0 <= i < j < |o.held| && !Before(active, o.held[i], o.held[j]) ensures FellBehind(c, f, i, j) {
      assert Before(o.seen, o.held[i], o.held[j]);
    }
  }

  /**
   * The outer ORDER BY gives back the lock order if and only if no two locked rows, one of them changed since
   * the snapshot, have traded places by the time of the stamp.
   */
  lemma AnswerInLockOrder(cap: int, steps: seq<FineStep>, stamp: FineStep)
    requires FineRun(cap, steps).Some? && stamp.StampRows? && FineEnabled(FineRun(cap, steps).value, stamp)
    ensures var c := FineRun(cap, steps).value;
            && HoldsRows(c, stamp.f)
            && (stamp.picked == c.open[stamp.f].held <==> !exists i, j :: FellBehind(c, stamp.f, i, j))
  {
    var c, f := FineRun(cap, steps).value, stamp.f;
    FineInvRun(cap, steps);
    assert HoldsRows(c, f);
    OutOfOrderMeansFellBehind(c, f);
    if InOrder(c.s.tables.active, c.open[f].held) {
      SortedOnce(c.s.tables.active, c.open[f].at, stamp.picked, c.open[f].held);
    }
  }

  /** A row the snapshot shows as due, or that is due now. */
  predicate Concerns(c: Fine, f: FetchId, id: RowId)
    requires f in c.open
  {
    var o, active := c.open[f], c.s.tables.active;
    (id in o.seen && Due(o.seen[id], o.at)) || (id in active && Due(active[id], o.at))
  }

  /** Left in peace, a fetch takes exactly the first `limit` due rows of its snapshot. */
  lemma UndisturbedFetchTakesTheFirst(cap: int, steps: seq<FineStep>, stamp: FineStep)
    requires FineRun(cap, steps).Some? && stamp.StampRows? && FineEnabled(FineRun(cap, steps).value, stamp)
    requires forall id :: Concerns(FineRun(cap, steps).value, stamp.f, id) ==> !HadCause(cap, steps, stamp.f, id)
    ensures var o := FineRun(cap, steps).value.open[stamp.f]; IsPick(o.seen, o.at, o.limit, {}, stamp.picked)
  {
    var c, f := FineRun(cap, steps).value, stamp.f;
    FineInvRun(cap, steps);
    assert HoldsRows(c, f);
    assert forall h :: h in c.open[f].held ==> Concerns(c, f, h);
    forall id | Concerns(c, f, id) ensures !ChangedSince(c, f, id) {
      if ChangedSince(c, f, id) {
        CauseNow(cap, steps, f, id);
      }
    }
    forall id ensures id !in PassedOver(c, f) {
      if id in PassedOver(c, f) {
        PassedOverForCause(cap, steps, stamp, id);
      }
    }
    assert PassedOver(c, f) == {};
    StampIsPick(c, stamp);
    SamePick(c, f, stamp.picked);
  }

  lemma SamePick(c: Fine, f: FetchId, picked: seq<RowId>)
    requires f in c.open && forall id :: Concerns(c, f, id) ==> !ChangedSince(c, f, id)
    requires IsPick(c.s.tables.active, c.open[f].at, c.open[f].limit, {}, picked)
    ensures IsPick(c.open[f].seen, c.open[f].at, c.open[f].limit, {}, picked)
  {
    var o, active := c.open[f], c.s.tables.active;
    forall id ensures Candidate(active, o.at, {}, id) <==> Candidate(o.seen, o.at, {}, id) {
      assert Concerns(c, f, id) ==> !ChangedSince(c, f, id);
    }
    forall id | Candidate(active, o.at, {}, id) ensures active[id] == o.seen[id] {
      assert Concerns(c, f, id) && !ChangedSince(c, f, id);
    }
  }
}
