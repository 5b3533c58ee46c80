/**
 * Any number of relays draining one Postgres outbox. A step is one thing that can happen: a commit,
 * a clock tick, one atomic statement reaching the database, or one action inside a relay.
 *
 * A settlement statement is first issued by a relay and later lands. An issued statement may land at
 * any later time, any number of times, or never, and the relay goes on without waiting for it: this
 * covers every lost, late or duplicated reply, and a relay that crashed meanwhile.
 */
module OutboxProtocol {
  import opened Wrappers
  import opened OutboxTables

  type RelayId = int

  /** The part of an OutboxRecord a relay keeps after Fetch. */
  datatype Snapshot = Snapshot(id: RowId, token: Token, event: Event, attempts: nat)

  /** Where Relay.process is with the first record of the batch. */
  datatype Phase =
    | Fresh    // before decode, restore and publish
    | Acked    // Publish returned nil, MarkSent is next
    | Failing  // an error or a recovered panic, fail() is next

  datatype Work = Work(batch: seq<Snapshot>, phase: Phase)

  /** A settlement statement with the relay and the snapshot it was issued for; SQL sees id and token only. */
  datatype Command = Command(relay: RelayId, rec: Snapshot, action: Action)

  /** History: what took effect, in order. */
  datatype Effect =
    | Staged(id: RowId, event: Event)
    | Claimed(relay: RelayId, at: int, until: int, claims: map<RowId, Token>)
    | Published(relay: RelayId, rec: Snapshot)
    | Sent(relay: RelayId, rec: Snapshot)
    | Retried(relay: RelayId, rec: Snapshot)
    | Buried(relay: RelayId, rec: Snapshot)

  datatype State = State(
    now: int,
    tables: Tables,
    used: set<Token>,
    relays: map<RelayId, Work>,
    issued: set<Command>,
    log: seq<Effect>)

  datatype Step =
    | Tick(to: int)
    | Stage(id: RowId, event: Event, availableAt: int)
    | Fetch(relay: RelayId, at: int, limit: int, until: int, skip: set<RowId>,
            picked: seq<RowId>, claims: map<RowId, Token>, replied: bool)
    | FailEarly(relay: RelayId)
    | Publish(relay: RelayId, delivered: bool, ok: bool)
    | CallMarkSent(relay: RelayId, panics: bool)
    | CallFail(relay: RelayId, nextAt: int, reason: string)
    | Land(cmd: Command)
    | Crash(relay: RelayId)

  const Init := State(0, Tables(map[], []), {}, map[], {}, [])

  predicate AtPhase(s: State, r: RelayId, phase: Phase) {
    r in s.relays && s.relays[r].batch != [] && s.relays[r].phase == phase
  }

  /** gen_random_uuid() never repeats a token. */
  predicate FreshClaims(s: State, picked: seq<RowId>, claims: map<RowId, Token>) {
    && claims.Keys == (set id | id in picked)
    && (forall id :: id in claims ==> claims[id] !in s.used)
    && (forall a, b :: a in claims && b in claims && claims[a] == claims[b] ==> a == b)
  }

  ghost predicate Enabled(s: State, step: Step) {
    match step
    case Tick(to) => s.now <= to
    case Stage(id, event, availableAt) =>
      (forall e :: e in s.log && e.Staged? ==> e.id != id) && availableAt <= s.now
    case Fetch(r, at, limit, until, skip, picked, claims, _) =>
      // now() is the start of the transaction, which may lie before the moment the statement lands.
      && r !in s.relays && at <= s.now && at < until
      && IsPick(s.tables.active, at, limit, skip, picked)
      && FreshClaims(s, picked, claims)
    case FailEarly(r) => AtPhase(s, r, Fresh)
    case Publish(r, delivered, ok) => AtPhase(s, r, Fresh) && (ok ==> delivered)
    case CallMarkSent(r, _) => AtPhase(s, r, Acked)
    case CallFail(r, _, _) => AtPhase(s, r, Failing)
    case Land(cmd) => cmd in s.issued
    case Crash(r) => r in s.relays
  }

  function Snapshots(active: map<RowId, Row>, picked: seq<RowId>, claims: map<RowId, Token>): (batch: seq<Snapshot>)
    requires forall i :: 0 <= i < |picked| ==> picked[i] in active && picked[i] in claims
    ensures |batch| == |picked|
  {
    seq(|picked|, i requires 0 <= i < |picked| =>
      Snapshot(picked[i], claims[picked[i]], active[picked[i]].event, active[picked[i]].attempts))
  }

  /** The relay turns to the next record of its batch; an empty batch leaves it idle. */
  function Advance(s: State, r: RelayId): map<RelayId, Work>
    requires r in s.relays && s.relays[r].batch != []
  {
    var rest := s.relays[r].batch[1..];
    if rest == [] then s.relays - {r} else s.relays[r := Work(rest, Fresh)]
  }

  /** Relay.fail: a positive cap that the coming attempt reaches means Terminate. */
  function FailAction(cap: int, attempts: nat, nextAt: int, reason: string): Action {
    if cap > 0 && attempts + 1 >= cap then Terminate(reason) else MarkFailed(nextAt, reason)
  }

  function EffectOf(cmd: Command): Effect {
    match cmd.action
    case MarkSent => Sent(cmd.relay, cmd.rec)
    case MarkFailed(_, _) => Retried(cmd.relay, cmd.rec)
    case Terminate(_) => Buried(cmd.relay, cmd.rec)
  }

  function NewRow(event: Event, availableAt: int): Row {
    Row(event, availableAt, 0, None, None, None)
  }

  /** The column defaults of an inserted row. */
  lemma NewRowInColumns(event: Event, availableAt: int)
    ensures var row := NewRow(event, availableAt);
            && row.event == event && row.availableAt == availableAt && row.attempts == 0
            && row.lastError == None && row.claimedUntil == None && row.token == None
  {
  }

  /** The failure that reaches a positive cap is the last one; any other is retried at the time given. */
  lemma FailActionInCases(cap: int, attempts: nat, nextAt: int, reason: string)
    ensures FailAction(cap, attempts, nextAt, reason)
            == if cap <= 0 || attempts < cap - 1 then MarkFailed(nextAt, reason) else Terminate(reason)
  {
  }

  /** `cap` is the MaxAttempts all relays share; zero or less means unlimited. */
  ghost function Apply(cap: int, s: State, step: Step): State
    requires Enabled(s, step)
  {
    match step
    case Tick(to) => s.(now := to)
    case Stage(id, event, availableAt) =>
      s.(tables := s.tables.(active := s.tables.active[id := NewRow(event, availableAt)]),
         log := s.log + [Staged(id, event)])
    case Fetch(r, at, _, until, _, picked, claims, replied) =>
      var batch := Snapshots(s.tables.active, picked, claims);
      s.(tables := s.tables.(active := Stamp(s.tables.active, claims, until)),
         used := s.used + claims.Values,
         relays := if replied && batch != [] then s.relays[r := Work(batch, Fresh)] else s.relays,
         log := s.log + [Claimed(r, at, until, claims)])
    case FailEarly(r) => s.(relays := s.relays[r := s.relays[r].(phase := Failing)])
    case Publish(r, delivered, ok) =>
      s.(relays := s.relays[r := s.relays[r].(phase := if ok then Acked else Failing)],
         log := if delivered then s.log + [Published(r, s.relays[r].batch[0])] else s.log)
    case CallMarkSent(r, panics) =>
      s.(issued := s.issued + {Command(r, s.relays[r].batch[0], MarkSent)},
         relays := if panics then s.relays[r := s.relays[r].(phase := Failing)] else Advance(s, r))
    case CallFail(r, nextAt, reason) =>
      var rec := s.relays[r].batch[0];
      s.(issued := s.issued + {Command(r, rec, FailAction(cap, rec.attempts, nextAt, reason))},
         relays := Advance(s, r))
    case Land(cmd) =>
      if Matches(s.tables, cmd.rec.id, cmd.rec.token)
      then s.(tables := Settle(s.tables, cmd.rec.id, cmd.rec.token, cmd.action, s.now),
              log := s.log + [EffectOf(cmd)])
      else s
    case Crash(r) => s.(relays := s.relays - {r})
  }

  ghost predicate ValidRun(cap: int, s: State, steps: seq<Step>)
    decreases |steps|
  {
    steps == [] || (Enabled(s, steps[0]) && ValidRun(cap, Apply(cap, s, steps[0]), steps[1..]))
  }

  ghost function Run(cap: int, s: State, steps: seq<Step>): State
    requires ValidRun(cap, s, steps)
    decreases |steps|
  {
    if steps == [] then s else Run(cap, Apply(cap, s, steps[0]), steps[1..])
  }

  lemma {:induction false} RunConcat(cap: int, s: State, a: seq<Step>, b: seq<Step>)
    requires ValidRun(cap, s, a) && ValidRun(cap, Run(cap, s, a), b)
    ensures ValidRun(cap, s, a + b) && Run(cap, s, a + b) == Run(cap, Run(cap, s, a), b)
    decreases |a|
  {
    if a == [] {
      assert a + b == b;
    } else {
      assert (a + b)[1..] == a[1..] + b;
      RunConcat(cap, Apply(cap, s, a[0]), a[1..], b);
    }
  }
}
