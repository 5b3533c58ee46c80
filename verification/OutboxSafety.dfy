/**
 * What every run of the outbox keeps: no committed row is lost or duplicated, a sent row was published
 * under the very claim that removed it, and the retry budget is accounted exactly.
 */
module OutboxSafety {
  import opened OutboxTables
  import opened OutboxProtocol

  datatype Kind = AStaged | ASent | ARetried | ABuried

  predicate Is(e: Effect, kind: Kind, id: RowId) {
    match kind
    case AStaged => e.Staged? && e.id == id
    case ASent => e.Sent? && e.rec.id == id
    case ARetried => e.Retried? && e.rec.id == id
    case ABuried => e.Buried? && e.rec.id == id
  }

  /** How often an effect of this kind happened to row `id`. */
  function Tally(log: seq<Effect>, kind: Kind, id: RowId): nat {
    if log == [] then 0
    else Tally(log[..|log| - 1], kind, id) + if Is(log[|log| - 1], kind, id) then 1 else 0
  }

  /** Rows of outbox_dead_letters that came from outbox row `id`. */
  function DeadCount(dead: seq<DeadLetter>, id: RowId): nat {
    if dead == [] then 0
    else DeadCount(dead[..|dead| - 1], id) + if dead[|dead| - 1].outboxId == id then 1 else 0
  }

  predicate ClaimBy(e: Effect, relay: RelayId, rec: Snapshot) {
    e.Claimed? && e.relay == relay && rec.id in e.claims && e.claims[rec.id] == rec.token
  }

  ghost predicate HasClaim(log: seq<Effect>, relay: RelayId, rec: Snapshot) {
    exists e :: e in log && ClaimBy(e, relay, rec)
  }

  /** What an effect needs to have happened before it. */
  ghost predicate Caused(before: seq<Effect>, e: Effect) {
    && (e.Sent? ==> Published(e.relay, e.rec) in before)
    && (e.Published? || e.Sent? || e.Retried? || e.Buried? ==>
          HasClaim(before, e.relay, e.rec) && Staged(e.rec.id, e.rec.event) in before)
  }

  /** Every effect was caused by effects before it. */
  ghost predicate Justified(log: seq<Effect>) {
    log == [] || (Justified(log[..|log| - 1]) && Caused(log[..|log| - 1], log[|log| - 1]))
  }

  // ----- The invariant -----

  /** A row is staged at most once, and then it is active, sent or buried. */
  predicate BalancedAt(active: map<RowId, Row>, log: seq<Effect>, id: RowId) {
    && Tally(log, AStaged, id) <= 1
    && Tally(log, AStaged, id) == (if id in active then 1 else 0) + Tally(log, ASent, id) + Tally(log, ABuried, id)
    && (Tally(log, AStaged, id) == 0 ==> Tally(log, ARetried, id) == 0)
  }

  ghost predicate Balanced(s: State) {
    forall id :: BalancedAt(s.tables.active, s.log, id)
  }

  ghost predicate RowsAccounted(cap: int, s: State) {
    forall id :: id in s.tables.active ==>
      && s.tables.active[id].attempts == Tally(s.log, ARetried, id)
      && (cap > 0 ==> s.tables.active[id].attempts < cap)
      && Staged(id, s.tables.active[id].event) in s.log
      && (s.tables.active[id].token.Some? ==> s.tables.active[id].token.value in s.used)
  }

  ghost predicate DeadMatchLog(dead: seq<DeadLetter>, log: seq<Effect>) {
    forall id :: DeadCount(dead, id) == Tally(log, ABuried, id)
  }

  ghost predicate GraveAccounted(cap: int, log: seq<Effect>, d: DeadLetter) {
    && d.attempts == Tally(log, ARetried, d.outboxId) + 1
    && cap > 0 && d.attempts == cap
    && Staged(d.outboxId, d.event) in log
  }

  ghost predicate GravesAccounted(cap: int, s: State) {
    && DeadMatchLog(s.tables.dead, s.log)
    && (forall d :: d in s.tables.dead ==> GraveAccounted(cap, s.log, d))
  }

  /** A snapshot whose token is still current agrees with the row. */
  ghost predicate Good(s: State, relay: RelayId, rec: Snapshot) {
    && rec.token in s.used
    && (Matches(s.tables, rec.id, rec.token) ==>
          s.tables.active[rec.id].attempts == rec.attempts && s.tables.active[rec.id].event == rec.event)
    && Staged(rec.id, rec.event) in s.log
    && HasClaim(s.log, relay, rec)
  }

  ghost predicate GoodWork(s: State, r: RelayId, w: Work) {
    && w.batch != []
    && (forall i :: 0 <= i < |w.batch| ==> Good(s, r, w.batch[i]))
    && (w.phase == Acked ==> Published(r, w.batch[0]) in s.log)
  }

  ghost predicate GoodCommand(cap: int, s: State, c: Command) {
    && Good(s, c.relay, c.rec)
    && match c.action
       case MarkSent => Published(c.relay, c.rec) in s.log
       case MarkFailed(_, _) => cap <= 0 || c.rec.attempts + 1 < cap
       case Terminate(_) => cap > 0 && c.rec.attempts + 1 >= cap
  }

  ghost predicate TablesAccounted(cap: int, s: State) {
    Balanced(s) && RowsAccounted(cap, s) && GravesAccounted(cap, s)
  }

  ghost predicate Inv(cap: int, s: State) {
    && TablesAccounted(cap, s)
    && Justified(s.log)
    && (forall r :: r in s.relays ==> GoodWork(s, r, s.relays[r]))
    && (forall c :: c in s.issued ==> GoodCommand(cap, s, c))
  }

  // ----- Counting lemmas -----

  lemma TallyAppend(log: seq<Effect>, e: Effect, kind: Kind, id: RowId)
    ensures Tally(log + [e], kind, id) == Tally(log, kind, id) + if Is(e, kind, id) then 1 else 0
  {
    assert (log + [e])[..|log|] == log;
  }

  lemma DeadAppend(dead: seq<DeadLetter>, d: DeadLetter, id: RowId)
    ensures DeadCount(dead + [d], id) == DeadCount(dead, id) + if d.outboxId == id then 1 else 0
  {
    assert (dead + [d])[..|dead|] == dead;
  }

  lemma {:induction false} TallyZero(log: seq<Effect>, id: RowId)
    requires forall e :: e in log && e.Staged? ==> e.id != id
    ensures Tally(log, AStaged, id) == 0
  {
    if log != [] {
      TallyZero(log[..|log| - 1], id);
    }
  }

  lemma {:induction false} TallyPositive(log: seq<Effect>, id: RowId)
    requires exists e :: e in log && e.Staged? && e.id == id
    ensures Tally(log, AStaged, id) > 0
  {
    if !Is(log[|log| - 1], AStaged, id) {
      TallyPositive(log[..|log| - 1], id);
    }
  }

  // ----- Preservation -----

  lemma InvInit(cap: int)
    ensures Inv(cap, Init)
  {
  }

  lemma LogGrows(cap: int, s: State, step: Step)
    requires Enabled(s, step)
    ensures var log := Apply(cap, s, step).log;
            log == s.log || exists e :: log == s.log + [e]
  {
  }

  lemma ClaimKept(log: seq<Effect>, log': seq<Effect>, relay: RelayId, rec: Snapshot)
    requires HasClaim(log, relay, rec) && log <= log'
    ensures HasClaim(log', relay, rec)
  {
  }

  /** A token that has been used and still matches was matching before, on the same row. */
  lemma MatchKept(cap: int, s: State, step: Step, id: RowId, token: Token)
    requires Enabled(s, step) && token in s.used
    requires Matches(Apply(cap, s, step).tables, id, token)
    ensures var s' := Apply(cap, s, step);
            && Matches(s.tables, id, token)
            && s'.tables.active[id].attempts == s.tables.active[id].attempts
            && s'.tables.active[id].event == s.tables.active[id].event
  {
  }

  lemma UsedGrows(cap: int, s: State, step: Step)
    requires Enabled(s, step)
    ensures s.used <= Apply(cap, s, step).used
  {
  }

  lemma GoodKept(cap: int, s: State, step: Step, relay: RelayId, rec: Snapshot)
    requires Enabled(s, step) && Good(s, relay, rec)
    ensures Good(Apply(cap, s, step), relay, rec)
  {
    var s' := Apply(cap, s, step);
    LogGrows(cap, s, step);
    UsedGrows(cap, s, step);
    ClaimKept(s.log, s'.log, relay, rec);
    if Matches(s'.tables, rec.id, rec.token) {
      MatchKept(cap, s, step, rec.id, rec.token);
    }
  }

  /** One more effect, as the four tallies of a row see it. */
  lemma TalliesAppend(log: seq<Effect>, e: Effect, id: RowId)
    ensures Tally(log + [e], AStaged, id) == Tally(log, AStaged, id) + if Is(e, AStaged, id) then 1 else 0
    ensures Tally(log + [e], ASent, id) == Tally(log, ASent, id) + if Is(e, ASent, id) then 1 else 0
    ensures Tally(log + [e], ARetried, id) == Tally(log, ARetried, id) + if Is(e, ARetried, id) then 1 else 0
    ensures Tally(log + [e], ABuried, id) == Tally(log, ABuried, id) + if Is(e, ABuried, id) then 1 else 0
  {
    TallyAppend(log, e, AStaged, id);
    TallyAppend(log, e, ASent, id);
    TallyAppend(log, e, ARetried, id);
    TallyAppend(log, e, ABuried, id);
  }

  lemma StageKeeps(cap: int, s: State, step: Step)
    requires Inv(cap, s) && Enabled(s, step) && step.Stage?
    ensures TablesAccounted(cap, Apply(cap, s, step))
  {
    StageBalance(cap, s, step);
    StageRows(cap, s, step);
    StageGraves(cap, s, step);
  }

  lemma StageBalanceAt(active: map<RowId, Row>, log: seq<Effect>, id: RowId, row: Row, event: Event, k: RowId)
    requires BalancedAt(active, log, k) && Tally(log, AStaged, id) == 0 && (k == id ==> k !in active)
    ensures BalancedAt(active[id := row], log + [Staged(id, event)], k)
  {
    TalliesAppend(log, Staged(id, event), k);
  }

  lemma StageBalance(cap: int, s: State, step: Step)
    requires Inv(cap, s) && Enabled(s, step) && step.Stage?
    ensures Balanced(Apply(cap, s, step)) && Tally(s.log, ARetried, step.id) == 0
  {
    var s' := Apply(cap, s, step);
    var row := NewRow(step.event, step.availableAt);
    TallyZero(s.log, step.id);
    assert BalancedAt(s.tables.active, s.log, step.id);
    forall k ensures BalancedAt(s'.tables.active, s'.log, k) {
      assert BalancedAt(s.tables.active, s.log, k);
      StageBalanceAt(s.tables.active, s.log, step.id, row, step.event, k);
    }
  }

  lemma StageRows(cap: int, s: State, step: Step)
    requires RowsAccounted(cap, s) && Enabled(s, step) && step.Stage? && Tally(s.log, ARetried, step.id) == 0
    ensures RowsAccounted(cap, Apply(cap, s, step))
  {
    var s' := Apply(cap, s, step);
    forall id ensures Tally(s'.log, ARetried, id) == Tally(s.log, ARetried, id) {
      TallyAppend(s.log, Staged(step.id, step.event), ARetried, id);
    }
  }

  lemma StageGraves(cap: int, s: State, step: Step)
    requires GravesAccounted(cap, s) && Enabled(s, step) && step.Stage?
    ensures GravesAccounted(cap, Apply(cap, s, step))
  {
    GravesGrow(cap, s, Apply(cap, s, step), Staged(step.id, step.event));
  }

  /** Nothing was retried or buried. */
  lemma GravesGrow(cap: int, s: State, s': State, e: Effect)
    requires GravesAccounted(cap, s) && s'.log == s.log + [e] && s'.tables.dead == s.tables.dead
    requires !e.Retried? && !e.Buried?
    ensures GravesAccounted(cap, s')
  {
    NoMoreGraves(s.tables.dead, s.log, e);
    forall d | d in s'.tables.dead ensures GraveAccounted(cap, s'.log, d) {
      assert GraveAccounted(cap, s.log, d);
      TallyAppend(s.log, e, ARetried, d.outboxId);
    }
  }

  /** A claim or a publication: no row comes, goes, or counts an attempt. */
  predicate Quiet(s: State, s': State, e: Effect) {
    && (e.Claimed? || e.Published?)
    && s'.log == s.log + [e] && s'.tables.dead == s.tables.dead && s'.tables.active.Keys == s.tables.active.Keys
    && forall id :: id in s.tables.active ==>
         && s'.tables.active[id].attempts == s.tables.active[id].attempts
         && s'.tables.active[id].event == s.tables.active[id].event
         && (s'.tables.active[id].token.Some? ==> s'.tables.active[id].token.value in s'.used)
  }

  lemma QuietBalance(s: State, s': State, e: Effect)
    requires Balanced(s) && Quiet(s, s', e)
    ensures Balanced(s')
  {
    forall id ensures BalancedAt(s'.tables.active, s'.log, id) {
      assert BalancedAt(s.tables.active, s.log, id);
      TalliesAppend(s.log, e, id);
    }
  }

  lemma QuietRows(cap: int, s: State, s': State, e: Effect)
    requires RowsAccounted(cap, s) && Quiet(s, s', e)
    ensures RowsAccounted(cap, s')
  {
    forall id ensures Tally(s'.log, ARetried, id) == Tally(s.log, ARetried, id) {
      TallyAppend(s.log, e, ARetried, id);
    }
  }

  lemma QuietKeeps(cap: int, s: State, s': State, e: Effect)
    requires TablesAccounted(cap, s) && Quiet(s, s', e)
    ensures TablesAccounted(cap, s')
  {
    QuietBalance(s, s', e);
    QuietRows(cap, s, s', e);
    GravesGrow(cap, s, s', e);
  }

  lemma FetchIsQuiet(cap: int, s: State, step: Step)
    requires RowsAccounted(cap, s) && Enabled(s, step) && step.Fetch?
    ensures Quiet(s, Apply(cap, s, step), Claimed(step.relay, step.at, step.until, step.claims))
  {
    var s' := Apply(cap, s, step);
    assert forall id :: id in step.claims ==> step.claims[id] in step.claims.Values;
  }

  lemma PublishIsQuiet(cap: int, s: State, step: Step)
    requires RowsAccounted(cap, s) && Enabled(s, step) && step.Publish? && step.delivered
    ensures Quiet(s, Apply(cap, s, step), Published(step.relay, s.relays[step.relay].batch[0]))
  {
  }

  lemma {:induction false} DeadPositive(dead: seq<DeadLetter>, d: DeadLetter)
    requires d in dead
    ensures DeadCount(dead, d.outboxId) > 0
  {
    if dead[|dead| - 1].outboxId != d.outboxId {
      DeadPositive(dead[..|dead| - 1], d);
    }
  }

  /** A row that is still active has no dead letter. */
  lemma ActiveNotDead(cap: int, s: State, id: RowId, d: DeadLetter)
    requires TablesAccounted(cap, s) && id in s.tables.active && d in s.tables.dead
    ensures d.outboxId != id
  {
    DeadPositive(s.tables.dead, d);
    assert BalancedAt(s.tables.active, s.log, id);
    assert DeadCount(s.tables.dead, id) == Tally(s.log, ABuried, id);
  }

  /** The statement took effect: the row was there, unsent and unburied, and the snapshot counts its attempts. */
  ghost predicate Effective(cap: int, s: State, step: Step) {
    && Inv(cap, s) && Enabled(s, step) && step.Land?
    && Matches(s.tables, step.cmd.rec.id, step.cmd.rec.token)
  }

  lemma LandRows(cap: int, s: State, step: Step)
    requires Effective(cap, s, step)
    ensures RowsAccounted(cap, Apply(cap, s, step))
  {
    var s' := Apply(cap, s, step);
    assert GoodCommand(cap, s, step.cmd);
    forall id | id in s'.tables.active
      ensures Tally(s'.log, ARetried, id)
              == Tally(s.log, ARetried, id) + if Is(EffectOf(step.cmd), ARetried, id) then 1 else 0
    {
      TallyAppend(s.log, EffectOf(step.cmd), ARetried, id);
    }
  }

  lemma LandBalanceAt(t: Tables, log: seq<Effect>, cmd: Command, now: int, k: RowId)
    requires BalancedAt(t.active, log, k) && Matches(t, cmd.rec.id, cmd.rec.token)
    ensures BalancedAt(Settle(t, cmd.rec.id, cmd.rec.token, cmd.action, now).active, log + [EffectOf(cmd)], k)
  {
    TalliesAppend(log, EffectOf(cmd), k);
  }

  lemma LandBalance(cap: int, s: State, step: Step)
    requires Effective(cap, s, step)
    ensures Balanced(Apply(cap, s, step))
  {
    var s' := Apply(cap, s, step);
    forall k ensures BalancedAt(s'.tables.active, s'.log, k) {
      assert BalancedAt(s.tables.active, s.log, k);
      LandBalanceAt(s.tables, s.log, step.cmd, s.now, k);
    }
  }

  lemma OneMoreGrave(dead: seq<DeadLetter>, log: seq<Effect>, d: DeadLetter, e: Effect)
    requires DeadMatchLog(dead, log) && e.Buried? && e.rec.id == d.outboxId
    ensures DeadMatchLog(dead + [d], log + [e])
  {
    forall id ensures DeadCount(dead + [d], id) == Tally(log + [e], ABuried, id) {
      DeadAppend(dead, d, id);
      TallyAppend(log, e, ABuried, id);
      assert DeadCount(dead, id) == Tally(log, ABuried, id);
    }
  }

  lemma NoMoreGraves(dead: seq<DeadLetter>, log: seq<Effect>, e: Effect)
    requires DeadMatchLog(dead, log) && !e.Buried?
    ensures DeadMatchLog(dead, log + [e])
  {
    forall id ensures DeadCount(dead, id) == Tally(log + [e], ABuried, id) {
      TallyAppend(log, e, ABuried, id);
      assert DeadCount(dead, id) == Tally(log, ABuried, id);
    }
  }

  lemma LandDeadCount(cap: int, s: State, step: Step)
    requires Effective(cap, s, step)
    ensures DeadMatchLog(Apply(cap, s, step).tables.dead, Apply(cap, s, step).log)
  {
    var s', e := Apply(cap, s, step), EffectOf(step.cmd);
    assert s'.log == s.log + [e];
    if step.cmd.action.Terminate? {
      var d := s'.tables.dead[|s.tables.dead|];
      assert s'.tables.dead == s.tables.dead + [d];
      OneMoreGrave(s.tables.dead, s.log, d, e);
    } else {
      NoMoreGraves(s.tables.dead, s.log, e);
    }
  }

  lemma LandGraves(cap: int, s: State, step: Step)
    requires Effective(cap, s, step)
    ensures GravesAccounted(cap, Apply(cap, s, step))
  {
    var s', id, e := Apply(cap, s, step), step.cmd.rec.id, EffectOf(step.cmd);
    assert GoodCommand(cap, s, step.cmd);
    LandDeadCount(cap, s, step);
    forall d | d in s'.tables.dead ensures GraveAccounted(cap, s'.log, d) {
      TallyAppend(s.log, e, ARetried, d.outboxId);
      if d in s.tables.dead {
        ActiveNotDead(cap, s, id, d);
        assert GraveAccounted(cap, s.log, d);
      }
    }
  }

  lemma LandKeeps(cap: int, s: State, step: Step)
    requires Inv(cap, s) && Enabled(s, step) && step.Land?
    ensures TablesAccounted(cap, Apply(cap, s, step))
  {
    if Effective(cap, s, step) {
      LandRows(cap, s, step);
      LandBalance(cap, s, step);
      LandGraves(cap, s, step);
    }
  }

  lemma TablesKept(cap: int, s: State, step: Step)
    requires Inv(cap, s) && Enabled(s, step)
    ensures TablesAccounted(cap, Apply(cap, s, step))
  {
    match step {
      case Stage(_, _, _) => StageKeeps(cap, s, step);
      case Fetch(_, _, _, _, _, _, _, _) =>
        FetchIsQuiet(cap, s, step);
        QuietKeeps(cap, s, Apply(cap, s, step), Claimed(step.relay, step.at, step.until, step.claims));
      case Publish(relay, delivered, _) =>
        if delivered {
          PublishIsQuiet(cap, s, step);
          QuietKeeps(cap, s, Apply(cap, s, step), Published(relay, s.relays[relay].batch[0]));
        }
      case Land(_) => LandKeeps(cap, s, step);
      case _ =>
    }
  }

  lemma JustifiedAppend(log: seq<Effect>, e: Effect)
    requires Justified(log) && Caused(log, e)
    ensures Justified(log + [e])
  {
    assert (log + [e])[..|log|] == log;
  }

  lemma JustifiedKept(cap: int, s: State, step: Step)
    requires Inv(cap, s) && Enabled(s, step)
    ensures Justified(Apply(cap, s, step).log)
  {
    match step {
      case Stage(id, event, _) => JustifiedAppend(s.log, Staged(id, event));
      case Fetch(r, at, _, until, _, _, claims, _) => JustifiedAppend(s.log, Claimed(r, at, until, claims));
      case Publish(r, delivered, _) =>
        assert GoodWork(s, r, s.relays[r]);
        JustifiedAppend(s.log, Published(r, s.relays[r].batch[0]));
      case Land(cmd) =>
        assert GoodCommand(cap, s, cmd);
        JustifiedAppend(s.log, EffectOf(cmd));
      case _ =>
    }
  }

  lemma NewSnapshotGood(cap: int, s: State, step: Step, i: nat)
    requires Inv(cap, s) && Enabled(s, step) && step.Fetch? && i < |step.picked|
    ensures Good(Apply(cap, s, step), step.relay, Snapshots(s.tables.active, step.picked, step.claims)[i])
  {
    var s' := Apply(cap, s, step);
    var rec := Snapshots(s.tables.active, step.picked, step.claims)[i];
    var e := s'.log[|s.log|];
    assert e in s'.log && ClaimBy(e, step.relay, rec);
    assert rec.id in s.tables.active;
  }

  lemma NewWorkGood(cap: int, s: State, step: Step)
    requires Inv(cap, s) && Enabled(s, step) && step.Fetch? && step.relay in Apply(cap, s, step).relays
    ensures GoodWork(Apply(cap, s, step), step.relay, Apply(cap, s, step).relays[step.relay])
  {
    var s' := Apply(cap, s, step);
    forall i | 0 <= i < |step.picked| ensures Good(s', step.relay, s'.relays[step.relay].batch[i]) {
      NewSnapshotGood(cap, s, step, i);
    }
  }

  lemma WorkKept(cap: int, s: State, step: Step, r: RelayId)
    requires Inv(cap, s) && Enabled(s, step)
    requires r in Apply(cap, s, step).relays
    ensures GoodWork(Apply(cap, s, step), r, Apply(cap, s, step).relays[r])
  {
    var s' := Apply(cap, s, step);
    if step.Fetch? && r == step.relay {
      NewWorkGood(cap, s, step);
    } else {
      LogGrows(cap, s, step);
      var batch := s.relays[r].batch;
      assert GoodWork(s, r, s.relays[r]);
      forall i | 0 <= i < |batch| ensures Good(s', r, batch[i]) {
        GoodKept(cap, s, step, r, batch[i]);
      }
    }
  }

  lemma CommandKept(cap: int, s: State, step: Step, c: Command)
    requires Inv(cap, s) && Enabled(s, step)
    requires c in Apply(cap, s, step).issued
    ensures GoodCommand(cap, Apply(cap, s, step), c)
  {
    LogGrows(cap, s, step);
    if c in s.issued {
      assert GoodCommand(cap, s, c);
    } else {
      assert GoodWork(s, step.relay, s.relays[step.relay]);
    }
    GoodKept(cap, s, step, c.relay, c.rec);
  }

  /** Every step of every relay, of the clock and of a committing transaction keeps the invariant. */
  lemma InvStep(cap: int, s: State, step: Step)
    requires Inv(cap, s) && Enabled(s, step)
    ensures Inv(cap, Apply(cap, s, step))
  {
    var s' := Apply(cap, s, step);
    TablesKept(cap, s, step);
    JustifiedKept(cap, s, step);
    forall r | r in s'.relays ensures GoodWork(s', r, s'.relays[r]) {
      WorkKept(cap, s, step, r);
    }
    forall c | c in s'.issued ensures GoodCommand(cap, s', c) {
      CommandKept(cap, s, step, c);
    }
  }

  lemma {:induction false} InvRun(cap: int, s: State, steps: seq<Step>)
    requires Inv(cap, s) && ValidRun(cap, s, steps)
    ensures Inv(cap, Run(cap, s, steps))
    decreases |steps|
  {
    if steps != [] {
      InvStep(cap, s, steps[0]);
      InvRun(cap, Apply(cap, s, steps[0]), steps[1..]);
    }
  }

  // ----- Theorems about every run from the empty outbox -----

  ghost predicate WasStaged(log: seq<Effect>, id: RowId) {
    exists e :: e in log && e.Staged? && e.id == id
  }

  /**
   * Each committed row is in exactly one place: still active, sent, or in the dead-letter table, and it
   * is there once. A row that was never committed is in none.
   */
  lemma RowInExactlyOnePlace(cap: int, steps: seq<Step>, id: RowId)
    requires ValidRun(cap, Init, steps)
    ensures var s := Run(cap, Init, steps);
            (if id in s.tables.active then 1 else 0) + Tally(s.log, ASent, id) + DeadCount(s.tables.dead, id)
            == if WasStaged(s.log, id) then 1 else 0
  {
    var s := Run(cap, Init, steps);
    InvInit(cap);
    InvRun(cap, Init, steps);
    assert BalancedAt(s.tables.active, s.log, id);
    assert DeadCount(s.tables.dead, id) == Tally(s.log, ABuried, id);
    if WasStaged(s.log, id) {
      TallyPositive(s.log, id);
    } else {
      TallyZero(s.log, id);
    }
  }

  lemma {:induction false} JustifiedAt(log: seq<Effect>, k: nat)
    requires Justified(log) && k < |log|
    ensures Caused(log[..k], log[k])
  {
    if k < |log| - 1 {
      JustifiedAt(log[..|log| - 1], k);
      assert log[..|log| - 1][..k] == log[..k];
    }
  }

  /**
   * A row leaves as sent only after the committed event was published by the relay whose claim token
   * the deleting statement carried.
   */
  lemma SentAfterPublishUnderSameClaim(cap: int, steps: seq<Step>, k: nat)
    requires ValidRun(cap, Init, steps) && k < |Run(cap, Init, steps).log|
    requires Run(cap, Init, steps).log[k].Sent?
    ensures var log := Run(cap, Init, steps).log;
            exists i, j :: 0 <= i < j < k && ClaimBy(log[i], log[k].relay, log[k].rec)
                           && log[j] == Published(log[k].relay, log[k].rec)
                           && Staged(log[k].rec.id, log[k].rec.event) in log[..j]
  {
    var log := Run(cap, Init, steps).log;
    InvInit(cap);
    InvRun(cap, Init, steps);
    JustifiedAt(log, k);
    var j :| 0 <= j < k && log[..k][j] == Published(log[k].relay, log[k].rec);
    JustifiedAt(log, j);
    var e :| e in log[..j] && ClaimBy(e, log[k].relay, log[k].rec);
    var i :| 0 <= i < j && log[..j][i] == e;
    assert ClaimBy(log[i], log[k].relay, log[k].rec);
  }

  /** With a retry cap, attempts count the retries that took effect, and only a spent budget buries a row. */
  lemma RetryBudgetExact(cap: int, steps: seq<Step>)
    requires cap > 0 && ValidRun(cap, Init, steps)
    ensures var s := Run(cap, Init, steps);
            && (forall id :: id in s.tables.active ==>
                  s.tables.active[id].attempts == Tally(s.log, ARetried, id) && s.tables.active[id].attempts < cap)
            && (forall d :: d in s.tables.dead ==>
                  d.attempts == cap && Tally(s.log, ARetried, d.outboxId) == cap - 1)
  {
    InvInit(cap);
    InvRun(cap, Init, steps);
  }

  /** Without a cap nothing is ever dead-lettered. */
  lemma UnlimitedRetriesNeverBury(cap: int, steps: seq<Step>)
    requires cap <= 0 && ValidRun(cap, Init, steps)
    ensures Run(cap, Init, steps).tables.dead == []
  {
    var s := Run(cap, Init, steps);
    assert s.tables.dead == [] || s.tables.dead[0] in s.tables.dead;
    InvInit(cap);
    InvRun(cap, Init, steps);
  }
}
