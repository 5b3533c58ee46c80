/**
 * The relay loop as it is written, over the Postgres store. What the outside world does to each record is an
 * input; between any two actions of the loop everybody else may take any number of protocol steps. The loop
 * is shown to play a run of the protocol whose own turns are exactly the steps those inputs call for, and to
 * publish and settle, in program order, what those turns add to the protocol's log.
 */
module PgxRelay {
  import opened Wrappers
  import opened Backoff
  import opened RecordId
  import opened OutboxTables
  import opened OutboxProtocol
  import opened OutboxSafety
  import opened RelayJournal
  import opened PgxStore

  /** What one record meets: how far it gets, its two store calls, the app clock and the jitter draw. */
  datatype World = World(progress: Progress, sent: Call, failed: Call, appNow: int, draw: nat, reason: string)

  /** A jittered delay after the relay's own clock: not in the past, and within a minute. */
  function NextAt(w: World, attempts: nat): (at: int)
    ensures w.appNow <= at < w.appNow + 60_000_000_000
  {
    CurveInCases(attempts + 1);
    w.appNow + w.draw % BackoffBound(attempts + 1)
  }

  function BackoffBound(n: nat): (b: int)
    requires n >= 1
    ensures b > 0
  {
    Curve(n)
  }

  function FailWith(cap: int, rec: Snapshot, w: World): Action {
    FailAction(cap, rec.attempts, NextAt(w, rec.attempts), w.reason)
  }

  // ----- The steps one record stands for -----

  function LandSteps(call: Call, cmd: Command): seq<Step> {
    if call.Lost? then [] else [Land(cmd)]
  }

  function FailSteps(cap: int, r: RelayId, rec: Snapshot, w: World): seq<Step> {
    [CallFail(r, NextAt(w, rec.attempts), w.reason)] + LandSteps(w.failed, Command(r, rec, FailWith(cap, rec, w)))
  }

  function SentSteps(r: RelayId, rec: Snapshot, panics: bool, w: World): seq<Step> {
    [CallMarkSent(r, panics)] + LandSteps(w.sent, Command(r, rec, MarkSent))
  }

  /** How the attempt to publish ends. */
  function TrySteps(r: RelayId, w: World): seq<Step> {
    match w.progress
    case FailsEarly => [FailEarly(r)]
    case PublishFails(delivered) => [Publish(r, delivered, false)]
    case _ => [Publish(r, true, true)]
  }

  function ProcessSteps(cap: int, r: RelayId, rec: Snapshot, w: World): seq<Step> {
    TrySteps(r, w)
    + (match w.progress
       case Publishes => SentSteps(r, rec, false, w)
       case PublishesThenPanics => SentSteps(r, rec, true, w) + FailSteps(cap, r, rec, w)
       case _ => FailSteps(cap, r, rec, w))
  }

  function BatchSteps(cap: int, r: RelayId, batch: seq<Snapshot>, ws: seq<World>): seq<Step>
    requires |batch| <= |ws|
  {
    if batch == [] then [] else ProcessSteps(cap, r, batch[0], ws[0]) + BatchSteps(cap, r, batch[1..], ws[1..])
  }

  /** The statement that reports a failure: the dead-letter one at the cap, otherwise the one that postpones. */
  lemma FailWithInCases(cap: int, rec: Snapshot, w: World)
    ensures FailWith(cap, rec, w) ==
            if cap > 0 && rec.attempts + 1 >= cap then Terminate(w.reason)
            else MarkFailed(w.appNow + w.draw % Curve(rec.attempts + 1), w.reason)
  {
  }

  /** The steps of one record, progress by progress; a lost call is issued and does not land. */
  lemma ProcessInCases(cap: int, r: RelayId, rec: Snapshot, w: World)
    ensures var at := w.appNow + w.draw % Curve(rec.attempts + 1);
            var failing := [CallFail(r, at, w.reason)]
                           + if w.failed.Lost? then [] else [Land(Command(r, rec, FailWith(cap, rec, w)))];
            var settled := if w.sent.Lost? then [] else [Land(Command(r, rec, MarkSent))];
            ProcessSteps(cap, r, rec, w) ==
            match w.progress
            case FailsEarly => [FailEarly(r)] + failing
            case PublishFails(delivered) => [Publish(r, delivered, false)] + failing
            case Publishes => [Publish(r, true, true)] + ([CallMarkSent(r, false)] + settled)
            case PublishesThenPanics => [Publish(r, true, true)] + ([CallMarkSent(r, true)] + settled + failing)
  {
  }

  // ----- Turns: who took which step -----

  datatype Turn = Mine(step: Step) | Theirs(step: Step)

  function Steps(turns: seq<Turn>): seq<Step> {
    seq(|turns|, i requires 0 <= i < |turns| => turns[i].step)
  }

  function MySteps(turns: seq<Turn>): seq<Step> {
    if turns == [] then [] else
      var last := turns[|turns| - 1];
      MySteps(turns[..|turns| - 1]) + if last.Mine? then [last.step] else []
  }

  /** Anything but an action of relay `r` itself; a statement of its own that lands late is someone else's turn. */
  predicate Foreign(r: RelayId, step: Step) {
    match step
    case Fetch(relay, _, _, _, _, _, _, _) => relay != r
    case FailEarly(relay) => relay != r
    case Publish(relay, _, _) => relay != r
    case CallMarkSent(relay, _) => relay != r
    case CallFail(relay, _, _) => relay != r
    case Crash(relay) => relay != r
    case _ => true
  }

  /** The steps of relay `r` itself are the six that a relay takes in its loop. */
  lemma OwnSteps(r: RelayId, step: Step)
    ensures !Foreign(r, step) <==>
            || (step.Fetch? && step.relay == r)
            || (step.FailEarly? && step.relay == r)
            || (step.Publish? && step.relay == r)
            || (step.CallMarkSent? && step.relay == r)
            || (step.CallFail? && step.relay == r)
            || (step.Crash? && step.relay == r)
  {
  }

  predicate OthersForeign(r: RelayId, turns: seq<Turn>) {
    forall i :: 0 <= i < |turns| && turns[i].Theirs? ==> Foreign(r, turns[i].step)
  }

  /** The effect a step adds to the log. */
  function Gains(s: State, step: Step): seq<Effect> {
    match step
    case Stage(id, event, _) => [Staged(id, event)]
    case Fetch(r, at, _, until, _, _, claims, _) => [Claimed(r, at, until, claims)]
    case Publish(r, delivered, _) =>
      if delivered && r in s.relays && s.relays[r].batch != [] then [Published(r, s.relays[r].batch[0])] else []
    case Land(cmd) => if Matches(s.tables, cmd.rec.id, cmd.rec.token) then [EffectOf(cmd)] else []
    case _ => []
  }

  lemma GainsAreLogged(cap: int, s: State, step: Step)
    requires Enabled(s, step)
    ensures Apply(cap, s, step).log == s.log + Gains(s, step)
  {
  }

  /** Turn `i` is possible and leads from state `i` to state `i + 1`. */
  ghost predicate TurnLeads(cap: int, states: seq<State>, turns: seq<Turn>, i: nat)
    requires i < |turns| < |states|
  {
    Enabled(states[i], turns[i].step) && states[i + 1] == Apply(cap, states[i], turns[i].step)
  }

  ghost predicate Trace(cap: int, states: seq<State>, turns: seq<Turn>) {
    |states| == |turns| + 1 && forall i :: 0 <= i < |turns| ==> TurnLeads(cap, states, turns, i)
  }

  /** What my own turns add to the log. */
  function MyEffects(states: seq<State>, turns: seq<Turn>): seq<Effect>
    requires |turns| < |states|
    decreases |turns|
  {
    if turns == [] then [] else
      var n := |turns| - 1;
      MyEffects(states, turns[..n]) + if turns[n].Mine? then Gains(states[n], turns[n].step) else []
  }

  lemma TraceStart(cap: int, states: seq<State>, turns: seq<Turn>, n: nat)
    requires Trace(cap, states, turns) && n <= |turns|
    ensures Trace(cap, states[..n + 1], turns[..n])
  {
    var states', turns' := states[..n + 1], turns[..n];
    forall i | 0 <= i < n ensures TurnLeads(cap, states', turns', i) {
      assert TurnLeads(cap, states, turns, i);
    }
  }

  /** What all turns add to the log, mine and the others'. */
  function AllEffects(states: seq<State>, turns: seq<Turn>): seq<Effect>
    requires |turns| < |states|
    decreases |turns|
  {
    if turns == [] then [] else
      var n := |turns| - 1;
      AllEffects(states, turns[..n]) + Gains(states[n], turns[n].step)
  }

  lemma {:induction false} StepsAreRun(cap: int, states: seq<State>, turns: seq<Turn>)
    requires Trace(cap, states, turns)
    ensures ValidRun(cap, states[0], Steps(turns)) && Run(cap, states[0], Steps(turns)) == states[|turns|]
    decreases |turns|
  {
    if turns != [] {
      var n := |turns| - 1;
      var s, last := states[n], turns[n].step;
      TraceStart(cap, states, turns, n);
      StepsAreRun(cap, states[..n + 1], turns[..n]);
      assert TurnLeads(cap, states, turns, n);
      assert [last][1..] == [] && ValidRun(cap, Apply(cap, s, last), []);
      RunConcat(cap, states[0], Steps(turns[..n]), [last]);
      assert Steps(turns) == Steps(turns[..n]) + [last];
    }
  }

  lemma {:induction false} LogIsEffects(cap: int, states: seq<State>, turns: seq<Turn>)
    requires Trace(cap, states, turns)
    ensures states[|turns|].log == states[0].log + AllEffects(states, turns)
    decreases |turns|
  {
    if turns != [] {
      var n := |turns| - 1;
      TraceStart(cap, states, turns, n);
      LogIsEffects(cap, states[..n + 1], turns[..n]);
      AllEffectsOfStart(states[..n + 1], states, turns[..n]);
      assert TurnLeads(cap, states, turns, n);
      GainsAreLogged(cap, states[n], turns[n].step);
      Join3(states[0].log, AllEffects(states, turns[..n]), Gains(states[n], turns[n].step));
    }
  }

  /** All turns together are a run of the protocol, and its log is what they add, in their order. */
  lemma TurnsAreRun(cap: int, states: seq<State>, turns: seq<Turn>)
    requires Trace(cap, states, turns)
    ensures ValidRun(cap, states[0], Steps(turns)) && Run(cap, states[0], Steps(turns)) == states[|turns|]
    ensures states[|turns|].log == states[0].log + AllEffects(states, turns)
  {
    StepsAreRun(cap, states, turns);
    LogIsEffects(cap, states, turns);
  }

  /** A relay that joins a reachable state keeps every state reachable, whatever it and the others do. */
  lemma StaysReachable(cap: int, run: seq<Step>, states: seq<State>, turns: seq<Turn>)
    requires Trace(cap, states, turns) && ValidRun(cap, Init, run) && Run(cap, Init, run) == states[0]
    ensures ValidRun(cap, Init, run + Steps(turns)) && Run(cap, Init, run + Steps(turns)) == states[|turns|]
  {
    StepsAreRun(cap, states, turns);
    RunConcat(cap, Init, run, Steps(turns));
  }

  lemma {:induction false} AllEffectsOfStart(states: seq<State>, more: seq<State>, turns: seq<Turn>)
    requires |turns| < |states| && states <= more
    ensures AllEffects(more, turns) == AllEffects(states, turns)
    decreases |turns|
  {
    if turns != [] {
      AllEffectsOfStart(states, more, turns[..|turns| - 1]);
    }
  }

  lemma {:induction false} EffectsOfStart(states: seq<State>, more: seq<State>, turns: seq<Turn>)
    requires |turns| < |states| && states <= more
    ensures MyEffects(more, turns) == MyEffects(states, turns)
    decreases |turns|
  {
    if turns != [] {
      EffectsOfStart(states, more, turns[..|turns| - 1]);
    }
  }

  lemma TurnAdds(cap: int, states: seq<State>, turns: seq<Turn>, turn: Turn)
    requires Trace(cap, states, turns) && Enabled(states[|turns|], turn.step)
    ensures var s := states[|turns|];
            var states', turns' := states + [Apply(cap, s, turn.step)], turns + [turn];
            && Trace(cap, states', turns')
            && MyEffects(states', turns') == MyEffects(states, turns) + (if turn.Mine? then Gains(s, turn.step) else [])
            && MySteps(turns') == MySteps(turns) + if turn.Mine? then [turn.step] else []
  {
    var states', turns' := states + [Apply(cap, states[|turns|], turn.step)], turns + [turn];
    assert turns'[..|turns|] == turns;
    EffectsOfStart(states, states', turns);
    forall i | 0 <= i < |turns'| ensures TurnLeads(cap, states', turns', i) {
      if i < |turns| {
        assert TurnLeads(cap, states, turns, i);
      }
    }
  }

  function WorkOf(s: State, r: RelayId): Option<Work> {
    if r in s.relays then Some(s.relays[r]) else None
  }

  lemma ForeignKeepsWork(cap: int, s: State, step: Step, r: RelayId)
    requires Enabled(s, step) && Foreign(r, step)
    ensures WorkOf(Apply(cap, s, step), r) == WorkOf(s, r)
  {
  }

  /** Whatever the others do, the relay's batch and where it stands in it are its own. */
  lemma {:induction false} OthersKeepWork(cap: int, states: seq<State>, turns: seq<Turn>, n: nat, r: RelayId)
    requires Trace(cap, states, turns) && n <= |turns| && OthersForeign(r, turns)
    requires forall i :: n <= i < |turns| ==> turns[i].Theirs?
    ensures MySteps(turns) == MySteps(turns[..n]) && WorkOf(states[|turns|], r) == WorkOf(states[n], r)
    decreases |turns|
  {
    if n == |turns| {
      assert turns[..n] == turns;
    } else {
      var m := |turns| - 1;
      TraceStart(cap, states, turns, m);
      OthersKeepWork(cap, states[..m + 1], turns[..m], n, r);
      assert turns[..m][..n] == turns[..n];
      assert TurnLeads(cap, states, turns, m);
      ForeignKeepsWork(cap, states[m], turns[m].step, r);
    }
  }

  // ----- The journal a relay's effects amount to -----

  function EntryOf(e: Effect): seq<Entry> {
    match e
    case Published(_, rec) => [Delivered(rec.event)]
    case Sent(_, rec) => [Removed(EncodeId(rec.id, rec.token))]
    case Retried(_, rec) => [Postponed(EncodeId(rec.id, rec.token))]
    case Buried(_, rec) => [Entry.Buried(EncodeId(rec.id, rec.token))]
    case _ => []
  }

  function Entries(effects: seq<Effect>): seq<Entry> {
    if effects == [] then [] else Entries(effects[..|effects| - 1]) + EntryOf(effects[|effects| - 1])
  }

  /** What a step of the relay's own adds to its journal. */
  function NewEntries(s: State, step: Step): seq<Entry> {
    if Gains(s, step) == [] then [] else EntryOf(Gains(s, step)[0])
  }

  lemma EntriesGrow(effects: seq<Effect>, s: State, step: Step)
    ensures Entries(effects + Gains(s, step)) == Entries(effects) + NewEntries(s, step)
  {
    var gains := Gains(s, step);
    if gains != [] {
      assert gains == [gains[0]];
      assert (effects + gains)[..|effects|] == effects;
    } else {
      assert effects + gains == effects;
    }
  }

  // ----- The code -----

  /** The record is the snapshot under its string id. */
  ghost predicate Carries(rec: Record, snap: Snapshot) {
    && rec.id == EncodeId(snap.id, snap.token) && ParseId(rec.id) == Ok((snap.id, snap.token))
    && Lower(snap.token) == snap.token
    && rec.attempts == snap.attempts && rec.event == snap.event
  }

  /** The relay has these records still before it, or is idle. */
  ghost predicate Faces(s: State, r: RelayId, rest: seq<Snapshot>) {
    WorkOf(s, r) == if rest == [] then None else Some(Work(rest, Fresh))
  }

  /** A settlement call by record id is the statement for the snapshot. */
  function AfterStatement(t: Tables, snap: Snapshot, action: Action, call: Call, now: int): Tables {
    if call.Lost? then t else Settle(t, snap.id, snap.token, action, now)
  }

  function NewEntry(t: Tables, r: RelayId, snap: Snapshot, action: Action, call: Call): seq<Entry> {
    if !call.Lost? && Matches(t, snap.id, snap.token) then EntryOf(EffectOf(Command(r, snap, action))) else []
  }

  lemma CarriedCall(rec: Record, snap: Snapshot, t: Tables, action: Action, call: Call, now: int)
    requires Carries(rec, snap)
    ensures AfterCall(t, rec.id, action, call, now) == AfterStatement(t, snap, action, call, now)
    ensures TakesEffect(t, rec.id, call) <==> !call.Lost? && Matches(t, snap.id, snap.token)
  {
  }

  /** `issue` is the relay's own call to the store, and the statement it sends is `cmd`. */
  ghost predicate Issues(cap: int, s: State, issue: Step, cmd: Command, r: RelayId) {
    && Enabled(s, issue)
    && var s' := Apply(cap, s, issue);
       && cmd in s'.issued && s'.tables == s.tables && s'.now == s.now && Gains(s, issue) == []
       && WorkOf(s', r) == WorkAfter(s, issue, r)
  }

  /** The relay's work after it has issued a statement for its first record. */
  function WorkAfter(s: State, issue: Step, r: RelayId): Option<Work> {
    match WorkOf(s, r)
    case None => None
    case Some(work) =>
      if issue.CallMarkSent? && issue.panics then Some(work.(phase := Failing))
      else if |work.batch| <= 1 then None else Some(Work(work.batch[1..], Fresh))
  }

  lemma FailIssues(cap: int, s: State, r: RelayId, snap: Snapshot, w: World)
    requires AtPhase(s, r, Failing) && s.relays[r].batch[0] == snap
    ensures Issues(cap, s, CallFail(r, NextAt(w, snap.attempts), w.reason), Command(r, snap, FailWith(cap, snap, w)), r)
  {
  }

  lemma SentIssues(cap: int, s: State, r: RelayId, snap: Snapshot, panics: bool)
    requires AtPhase(s, r, Acked) && s.relays[r].batch[0] == snap
    ensures Issues(cap, s, CallMarkSent(r, panics), Command(r, snap, MarkSent), r)
  {
  }

  /** The relay's own way of ending the attempt to publish its first record. */
  predicate Tries(step: Step, r: RelayId, ok: bool) {
    || (step == FailEarly(r) && !ok)
    || (step.Publish? && step.relay == r && step.ok == ok && (ok ==> step.delivered))
  }

  function Tried(step: Step, rec: Snapshot): seq<Entry> {
    if step.Publish? && step.delivered then [Delivered(rec.event)] else []
  }

  lemma TriesAs(cap: int, s: State, step: Step, r: RelayId, batch: seq<Snapshot>, ok: bool)
    requires Tries(step, r, ok) && batch != [] && WorkOf(s, r) == Some(Work(batch, Fresh))
    ensures Enabled(s, step) && NewEntries(s, step) == Tried(step, batch[0])
    ensures var s' := Apply(cap, s, step);
            && s'.tables == s.tables && s'.now == s.now
            && WorkOf(s', r) == Some(Work(batch, if ok then Acked else Failing))
  {
  }

  lemma LandsAs(cap: int, s: State, cmd: Command, r: RelayId)
    requires cmd in s.issued
    ensures Enabled(s, Land(cmd))
    ensures var s' := Apply(cap, s, Land(cmd));
            && s'.tables == Settle(s.tables, cmd.rec.id, cmd.rec.token, cmd.action, s.now)
            && s'.now == s.now && s'.relays == s.relays
    ensures NewEntries(s, Land(cmd)) == NewEntry(s.tables, r, cmd.rec, cmd.action, Answered)
  {
  }

  lemma BatchHead(cap: int, r: RelayId, batch: seq<Snapshot>, ws: seq<World>, i: nat)
    requires i < |batch| <= |ws|
    ensures batch[i..] == [batch[i]] + batch[i + 1..]
    ensures BatchSteps(cap, r, batch[i..], ws[i..])
            == ProcessSteps(cap, r, batch[i], ws[i]) + BatchSteps(cap, r, batch[i + 1..], ws[i + 1..])
  {
    assert batch[i..][1..] == batch[i + 1..] && ws[i..][1..] == ws[i + 1..];
  }

  class Relay {
    const store: Store
    const publisher: Publisher
    const maxAttempts: int
    const batchSize: int

    /** The run of the protocol this relay takes part in, from where it joined, and its own effects in it. */
    ghost const me: RelayId
    ghost const start: State
    ghost const noted: seq<Entry>
    ghost var s: State
    ghost var states: seq<State>
    ghost var turns: seq<Turn>
    ghost var mine: seq<Step>
    ghost var effects: seq<Effect>

    /** The turns are possible, lead to state `s`, and the effects are those of this relay's own turns. */
    ghost predicate OnTrack()
      reads this
    {
      && Trace(maxAttempts, states, turns) && states[0] == start && s == states[|turns|]
      && mine == MySteps(turns) && effects == MyEffects(states, turns) && OthersForeign(me, turns)
    }

    /** The database is the protocol's, and the journal is exactly what this relay's turns have effected. */
    ghost predicate Valid()
      reads this, store, store.journal
    {
      && publisher.journal == store.journal && store.Valid() && OnTrack()
      && s.tables == store.View() && s.now == store.clock
      && store.journal.entries == noted + Entries(effects)
    }

    constructor (store: Store, publisher: Publisher, maxAttempts: int, batchSize: int, ghost me: RelayId, ghost s: State)
      requires store.Valid() && publisher.journal == store.journal
      requires s.tables == store.View() && s.now == store.clock && me !in s.relays
      ensures Valid() && turns == [] && mine == [] && this.s == start == s && this.me == me
      ensures this.store == store && this.maxAttempts == maxAttempts && this.batchSize == batchSize
    {
      this.store, this.publisher, this.maxAttempts, this.batchSize := store, publisher, maxAttempts, batchSize;
      this.me, this.start, this.s, this.states, this.turns, this.mine, this.effects := me, s, s, [s], [], [], [];
      this.noted := store.journal.entries;
    }

    /**
     * The safety theorems, of the very tables the store holds: when the relay joined a reachable state, then
     * at any moment between two of its actions each committed row is in exactly one place, and the retry budget
     * is accounted exactly.
     */
    lemma TablesAreSafe(run: seq<Step>, id: RowId)
      requires Valid() && ValidRun(maxAttempts, Init, run) && Run(maxAttempts, Init, run) == start
      ensures (if id in store.records then 1 else 0) + Tally(s.log, ASent, id) + DeadCount(store.deadLetters, id)
              == if WasStaged(s.log, id) then 1 else 0
      ensures maxAttempts > 0 && id in store.records ==>
                store.records[id].attempts == Tally(s.log, ARetried, id) && store.records[id].attempts < maxAttempts
      ensures maxAttempts > 0 ==> forall d :: d in store.deadLetters ==> d.attempts == maxAttempts
    {
      StaysReachable(maxAttempts, run, states, turns);
      RowInExactlyOnePlace(maxAttempts, run + Steps(turns), id);
      if maxAttempts > 0 {
        RetryBudgetExact(maxAttempts, run + Steps(turns));
      }
    }

    /** What everybody else does meanwhile: any number of steps that are not this relay's. */
    method Others()
      requires Valid()
      modifies this`s, this`states, this`turns, this`mine, this`effects, store`records, store`deadLetters, store`clock
      ensures Valid() && old(turns) <= turns && old(states) <= states
      ensures forall i :: |old(turns)| <= i < |turns| ==> turns[i].Theirs?
    {
    }

    method Meanwhile()
      requires Valid()
      modifies this`s, this`states, this`turns, this`mine, this`effects, store`records, store`deadLetters, store`clock
      ensures Valid() && mine == old(mine) && WorkOf(s, me) == old(WorkOf(s, me))
    {
      Others();
      OthersKeepWork(maxAttempts, states, turns, |old(turns)|, me);
      assert turns[..|old(turns)|] == old(turns);
    }

    ghost method Take(step: Step)
      requires OnTrack() && Enabled(s, step)
      modifies this`s, this`states, this`turns, this`mine, this`effects
      ensures OnTrack() && s == Apply(maxAttempts, old(s), step) && mine == old(mine) + [step]
      ensures Entries(effects) == old(Entries(effects)) + NewEntries(old(s), step)
    {
      TurnAdds(maxAttempts, states, turns, Mine(step));
      EntriesGrow(effects, s, step);
      effects := effects + Gains(s, step);
      s := Apply(maxAttempts, s, step);
      states, turns, mine := states + [s], turns + [Mine(step)], mine + [step];
    }

    ghost method TakeIssue(issue: Step, cmd: Command)
      requires OnTrack() && Issues(maxAttempts, s, issue, cmd, me)
      modifies this`s, this`states, this`turns, this`mine, this`effects
      ensures OnTrack() && mine == old(mine) + [issue] && Entries(effects) == old(Entries(effects))
      ensures s.tables == old(s.tables) && s.now == old(s.now) && cmd in s.issued
      ensures WorkOf(s, me) == WorkAfter(old(s), issue, me)
    {
      assert NewEntries(s, issue) == [];
      Take(issue);
    }

    ghost method TakeLand(cmd: Command)
      requires OnTrack() && cmd in s.issued
      modifies this`s, this`states, this`turns, this`mine, this`effects
      ensures OnTrack() && mine == old(mine) + [Land(cmd)]
      ensures Entries(effects) == old(Entries(effects)) + NewEntry(old(s.tables), me, cmd.rec, cmd.action, Answered)
      ensures s.tables == Settle(old(s.tables), cmd.rec.id, cmd.rec.token, cmd.action, s.now)
      ensures s.now == old(s.now) && s.relays == old(s.relays)
    {
      LandsAs(maxAttempts, s, cmd, me);
      Take(Land(cmd));
    }

    /**
     * After a store call: the statement was issued, and landed unless the call was lost, and with that the
     * protocol is where the database is.
     */
    ghost method TakeCall(issue: Step, snap: Snapshot, action: Action, call: Call)
      requires OnTrack() && Issues(maxAttempts, s, issue, Command(me, snap, action), me)
      requires publisher.journal == store.journal && store.Valid() && s.now == store.clock
      requires store.View() == AfterStatement(s.tables, snap, action, call, s.now)
      requires store.journal.entries == noted + Entries(effects) + NewEntry(s.tables, me, snap, action, call)
      modifies this`s, this`states, this`turns, this`mine, this`effects
      ensures Valid() && WorkOf(s, me) == WorkAfter(old(s), issue, me)
      ensures mine == old(mine) + ([issue] + LandSteps(call, Command(me, snap, action)))
    {
      ghost var mine0, entries0, cmd := mine, Entries(effects), Command(me, snap, action);
      TakeIssue(issue, cmd);
      if !call.Lost? {
        TakeLand(cmd);
        Join3(mine0, [issue], [Land(cmd)]);
        Join3(noted, entries0, NewEntry(old(s.tables), me, snap, action, call));
      }
    }

    method Delete(rec: Record, call: Call, ghost snap: Snapshot)
      requires store.Valid() && Carries(rec, snap)
      modifies store`records, store.journal
      ensures store.Valid()
      ensures store.View() == AfterStatement(old(store.View()), snap, OutboxTables.MarkSent, call, store.clock)
      ensures store.journal.entries
              == old(store.journal.entries) + NewEntry(old(store.View()), me, snap, OutboxTables.MarkSent, call)
    {
      CarriedCall(rec, snap, store.View(), OutboxTables.MarkSent, call, store.clock);
      // Its error is only logged.
      var _ := store.MarkSent(rec.id, call);
    }

    method Postpone(rec: Record, reason: string, nextAt: int, call: Call, ghost snap: Snapshot)
      requires store.Valid() && Carries(rec, snap)
      modifies store`records, store.journal
      ensures store.Valid()
      ensures store.View()
              == AfterStatement(old(store.View()), snap, OutboxTables.MarkFailed(nextAt, reason), call, store.clock)
      ensures store.journal.entries == old(store.journal.entries)
                + NewEntry(old(store.View()), me, snap, OutboxTables.MarkFailed(nextAt, reason), call)
    {
      CarriedCall(rec, snap, store.View(), OutboxTables.MarkFailed(nextAt, reason), call, store.clock);
      var _ := store.MarkFailed(rec.id, reason, nextAt, call);
    }

    method Bury(rec: Record, reason: string, call: Call, ghost snap: Snapshot)
      requires store.Valid() && Carries(rec, snap)
      modifies store`records, store`deadLetters, store.journal
      ensures store.Valid()
      ensures store.View() == AfterStatement(old(store.View()), snap, OutboxTables.Terminate(reason), call, store.clock)
      ensures store.journal.entries
              == old(store.journal.entries) + NewEntry(old(store.View()), me, snap, OutboxTables.Terminate(reason), call)
    {
      CarriedCall(rec, snap, store.View(), OutboxTables.Terminate(reason), call, store.clock);
      var _ := store.Terminate(rec.id, reason, call);
    }

    /** A spent budget goes to Terminate, anything else to MarkFailed with a jittered delay. */
    method Report(rec: Record, w: World, ghost snap: Snapshot)
      requires store.Valid() && Carries(rec, snap)
      modifies store`records, store`deadLetters, store.journal
      ensures var action := FailWith(maxAttempts, snap, w);
              && store.Valid()
              && store.View() == AfterStatement(old(store.View()), snap, action, w.failed, store.clock)
              && store.journal.entries
                 == old(store.journal.entries) + NewEntry(old(store.View()), me, snap, action, w.failed)
    {
      var nextAttempt := rec.attempts + 1;
      if maxAttempts > 0 && nextAttempt >= maxAttempts {
        Bury(rec, w.reason, w.failed, snap);
        return;
      }
      var delay := DefaultBackoff(nextAttempt, w.draw);
      var nextAt := w.appNow + delay;
      assert FailWith(maxAttempts, snap, w) == OutboxTables.MarkFailed(nextAt, w.reason);
      Postpone(rec, w.reason, nextAt, w.failed, snap);
    }

    method Fail(rec: Record, w: World, ghost snap: Snapshot, ghost rest: seq<Snapshot>)
      requires Valid() && Carries(rec, snap) && WorkOf(s, me) == Some(Work([snap] + rest, Failing))
      modifies this`s, this`states, this`turns, this`mine, this`effects, store, store.journal
      ensures Valid() && Faces(s, me, rest)
      ensures mine == old(mine) + FailSteps(maxAttempts, me, snap, w)
    {
      Meanwhile();
      assert ([snap] + rest)[1..] == rest;
      FailIssues(maxAttempts, s, me, snap, w);
      Report(rec, w, snap);
      ghost var issue := CallFail(me, NextAt(w, snap.attempts), w.reason);
      TakeCall(issue, snap, FailWith(maxAttempts, snap, w), w.failed);
    }

    ghost method TakeTry(step: Step, batch: seq<Snapshot>, ok: bool)
      requires OnTrack() && Tries(step, me, ok) && WorkOf(s, me) == Some(Work(batch, Fresh)) && batch != []
      modifies this`s, this`states, this`turns, this`mine, this`effects
      ensures OnTrack() && mine == old(mine) + [step] && s.tables == old(s.tables) && s.now == old(s.now)
      ensures WorkOf(s, me) == Some(Work(batch, if ok then Acked else Failing))
      ensures Entries(effects) == old(Entries(effects)) + Tried(step, batch[0])
    {
      TriesAs(maxAttempts, s, step, me, batch, ok);
      Take(step);
    }

    /** Decode and restore succeed and the event goes to the publisher; or the record fails before. */
    method Try(rec: Record, w: World, ghost snap: Snapshot, ghost rest: seq<Snapshot>) returns (ok: bool)
      requires Valid() && rec.event == snap.event && Faces(s, me, [snap] + rest)
      modifies this`s, this`states, this`turns, this`mine, this`effects, store, store.journal
      ensures Valid() && mine == old(mine) + TrySteps(me, w)
      ensures ok <==> w.progress.Publishes? || w.progress.PublishesThenPanics?
      ensures WorkOf(s, me) == Some(Work([snap] + rest, if ok then Acked else Failing))
    {
      Meanwhile();
      ghost var step := TrySteps(me, w)[0];
      if w.progress.FailsEarly? {
        TakeTry(step, [snap] + rest, false);
        return false;
      }
      ok := publisher.Publish(rec.event, Fate(w.progress));
      Join3(noted, Entries(effects), Tried(step, snap));
      TakeTry(step, [snap] + rest, ok);
    }

    /** Decode, restore, publish, mark sent; every error and every recovered panic goes through Fail. */
    method Process(rec: Record, w: World, ghost snap: Snapshot, ghost rest: seq<Snapshot>)
      requires Valid() && Carries(rec, snap) && Faces(s, me, [snap] + rest)
      modifies this`s, this`states, this`turns, this`mine, this`effects, store, store.journal
      ensures Valid() && Faces(s, me, rest)
      ensures mine == old(mine) + ProcessSteps(maxAttempts, me, snap, w)
    {
      ghost var mine0, try, fail := mine, TrySteps(me, w), FailSteps(maxAttempts, me, snap, w);
      ghost var send := SentSteps(me, snap, w.progress.PublishesThenPanics?, w);
      var ok := Try(rec, w, snap, rest);
      if !ok {
        Fail(rec, w, snap, rest);
        Join3(mine0, try, fail);
        return;
      }
      Send(rec, w, snap, rest);
      Join3(mine0, try, send);
      if w.progress.PublishesThenPanics? {
        Fail(rec, w, snap, rest);
        Join3(mine0, try + send, fail);
        Join3(try, send, fail);
      }
    }

    /** The MarkSent call; when it panics, the record is left to Fail. */
    method Send(rec: Record, w: World, ghost snap: Snapshot, ghost rest: seq<Snapshot>)
      requires Valid() && Carries(rec, snap) && WorkOf(s, me) == Some(Work([snap] + rest, Acked))
      modifies this`s, this`states, this`turns, this`mine, this`effects, store, store.journal
      ensures var panics := w.progress.PublishesThenPanics?;
              && Valid() && mine == old(mine) + SentSteps(me, snap, panics, w)
              && if panics then WorkOf(s, me) == Some(Work([snap] + rest, Failing)) else Faces(s, me, rest)
    {
      Meanwhile();
      ghost var panics := w.progress.PublishesThenPanics?;
      SentIssues(maxAttempts, s, me, snap, panics);
      assert ([snap] + rest)[1..] == rest;
      Delete(rec, w.sent, snap);
      TakeCall(CallMarkSent(me, panics), snap, OutboxTables.MarkSent, w.sent);
    }

    method ProcessAll(records: seq<Record>, ws: seq<World>, ghost batch: seq<Snapshot>)
      requires Valid() && |records| == |batch| <= |ws| && Faces(s, me, batch)
      requires forall i :: 0 <= i < |batch| ==> Carries(records[i], batch[i])
      modifies this`s, this`states, this`turns, this`mine, this`effects, store, store.journal
      ensures Valid() && me !in s.relays
      ensures mine == old(mine) + BatchSteps(maxAttempts, me, batch, ws)
    {
      ghost var all := old(mine) + BatchSteps(maxAttempts, me, batch, ws);
      var i := 0;
      while i < |records|
        invariant 0 <= i <= |records|
        invariant Valid() && Faces(s, me, batch[i..])
        invariant mine + BatchSteps(maxAttempts, me, batch[i..], ws[i..]) == all
      {
        ghost var mine0 := mine;
        BatchHead(maxAttempts, me, batch, ws, i);
        Process(records[i], ws[i], batch[i], batch[i + 1..]);
        i := i + 1;
        Join3(mine0, ProcessSteps(maxAttempts, me, batch[i - 1], ws[i - 1]),
              BatchSteps(maxAttempts, me, batch[i..], ws[i..]));
      }
    }

    /** The Fetch of a drain; the claims of an unanswered one stand, and nobody will process them. */
    method Claim(locked: set<RowId>, tokens: seq<Token>, call: Call)
      returns (r: Result<seq<Record>, StoreError>, ghost fetch: Step)
      requires Valid() && me !in s.relays && 0 < batchSize <= |tokens|
      requires Distinct(tokens) && forall t :: t in tokens ==> UuidText(t) && t !in s.used
      modifies this`s, this`states, this`turns, this`mine, this`effects, store`records
      ensures Valid() && (r.Ok? <==> call.Answered?) && (r.Err? ==> me !in s.relays)
      ensures call.Lost? ==> turns == old(turns) && mine == old(mine) && s == old(s)
      ensures !call.Lost? ==>
                && ClaimOf(old(s), fetch, store.Lease()) && fetch.relay == me
                && fetch.limit == batchSize && fetch.skip == locked && fetch.replied == call.Answered?
                && mine == old(mine) + [fetch]
      ensures r.Ok? ==> var batch := Snapshots(old(s.tables.active), fetch.picked, fetch.claims);
                && |r.value| == |batch| && Faces(s, me, batch)
                && forall i :: 0 <= i < |batch| ==> Carries(r.value[i], batch[i])
    {
      var records, picked, claims, until := store.Fetch(batchSize, locked, tokens, call);
      fetch := Fetch(me, s.now, batchSize, until, locked, picked, claims, call.Answered?);
      if !call.Lost? {
        FetchIsEnabled(s, fetch, tokens);
        Take(fetch);
      }
      return records, fetch;
    }

    /**
     * One drain: fetch a batch and process it in order. Among whatever the others do, the relay's own turns
     * are the claim and one group of steps per record; a failed Fetch ends the drain, even if it has claimed.
     */
    method DrainOnce(locked: set<RowId>, tokens: seq<Token>, call: Call, ws: seq<World>)
      returns (r: Result<(), StoreError>, ghost fetch: Option<Step>)
      requires Valid() && me !in s.relays && batchSize <= |tokens| && batchSize <= |ws|
      requires Distinct(tokens) && forall t :: t in tokens ==> UuidText(t) && t !in s.used
      modifies this`s, this`states, this`turns, this`mine, this`effects, store, store.journal
      ensures Valid() && me !in s.relays
      ensures r.Ok? <==> batchSize <= 0 || call.Answered?
      ensures fetch.None? <==> batchSize <= 0 || call.Lost?
      ensures fetch.None? ==> turns == old(turns) && s == old(s)
      ensures fetch.Some? ==>
                var claim := fetch.value;
                && ClaimOf(old(s), claim, store.Lease()) && claim.relay == me
                && claim.limit == batchSize && claim.skip == locked && claim.replied == call.Answered?
                && var batch := Snapshots(old(s.tables.active), claim.picked, claim.claims);
                   |batch| <= |ws| && mine == old(mine) + [claim]
                     + if call.Answered? then BatchSteps(maxAttempts, me, batch, ws) else []
    {
      fetch := None;
      if batchSize <= 0 {
        // Fetch returns at once.
        return Ok(()), fetch;
      }
      var records;
      ghost var claim;
      records, claim := Claim(locked, tokens, call);
      fetch := if call.Lost? then None else Some(claim);
      if records.Err? {
        return Err(records.error), fetch;
      }
      ghost var batch := Snapshots(old(s.tables.active), claim.picked, claim.claims);
      ProcessAll(records.value, ws, batch);
      return Ok(()), fetch;
    }
  }

  /** A claim as the store makes it: at the database's now(), for one lease. */
  ghost predicate ClaimOf(s: State, fetch: Step, lease: int) {
    && fetch.Fetch? && Enabled(s, fetch) && fetch.at == s.now && fetch.until == s.now + lease
    && |fetch.picked| <= (if fetch.limit <= 0 then 0 else fetch.limit)
  }

  lemma FetchIsEnabled(s: State, fetch: Step, tokens: seq<Token>)
    requires fetch.Fetch? && fetch.relay !in s.relays && fetch.at <= s.now && fetch.at < fetch.until
    requires IsPick(s.tables.active, fetch.at, fetch.limit, fetch.skip, fetch.picked)
    requires fetch.claims.Keys == (set id | id in fetch.picked)
    requires forall id :: id in fetch.claims ==> fetch.claims[id] in tokens
    requires forall t :: t in tokens ==> t !in s.used
    requires forall a, b :: a in fetch.claims && b in fetch.claims && fetch.claims[a] == fetch.claims[b] ==> a == b
    ensures Enabled(s, fetch)
  {
  }
}
