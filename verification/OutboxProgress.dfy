/**
 * No reachable state strands a committed row: whatever crashed, expired or got lost, one idle relay can
 * still drain the whole outbox.
 */
module OutboxProgress {
  import opened OutboxTables
  import opened OutboxProtocol
  import opened OutboxSafety

  // ----- Fetch can always be answered -----

  /** The candidates of Fetch can be listed in (available_at, id) order. */
  lemma {:induction false} SortedListing(active: map<RowId, Row>, ids: set<RowId>) returns (order: seq<RowId>)
    requires ids <= active.Keys
    ensures forall i :: 0 <= i < |order| ==> order[i] in ids
    ensures forall id :: id in ids ==> id in order
    ensures forall i, j :: 0 <= i < j < |order| ==> Before(active, order[i], order[j])
    decreases |ids|
  {
    if ids == {} {
      order := [];
    } else {
      var last := Latest(active, ids);
      var rest := SortedListing(active, ids - {last});
      order := rest + [last];
    }
  }

  lemma {:induction false} Latest(active: map<RowId, Row>, ids: set<RowId>) returns (last: RowId)
    requires ids <= active.Keys && ids != {}
    ensures last in ids
    ensures forall id :: id in ids && id != last ==> Before(active, id, last)
    decreases |ids|
  {
    var x := Element(ids);
    var others := ids - {x};
    if others == {} {
      last := x;
    } else {
      var y := Latest(active, others);
      last := if Before(active, x, y) then y else x;
    }
    forall id | id in ids && id != last ensures Before(active, id, last) {
      assert id == x || id in others;
    }
  }

  /** No row after the cut comes before a row kept. */
  lemma CutComesFirst(active: map<RowId, Row>, order: seq<RowId>, n: nat, id: RowId)
    requires n <= |order| && id in order && id !in order[..n] && forall i :: 0 <= i < |order| ==> order[i] in active
    requires forall i, j :: 0 <= i < j < |order| ==> Before(active, order[i], order[j])
    ensures n < |order| && forall i :: 0 <= i < n ==> Before(active, order[..n][i], id)
  {
    assert order == order[..n] + order[n..];
    var k :| 0 <= k < |order[n..]| && order[n..][k] == id;
    assert order[n + k] == id;
  }

  /** When every active row is due, Fetch takes the first `limit` of them. */
  lemma PickFirst(active: map<RowId, Row>, at: int, limit: int) returns (picked: seq<RowId>)
    requires limit > 0 && forall id :: id in active ==> Due(active[id], at)
    ensures IsPick(active, at, limit, {}, picked)
    ensures active != map[] ==> picked != []
  {
    var order := SortedListing(active, active.Keys);
    var n := if |order| < limit then |order| else limit;
    picked := order[..n];
    forall id | Candidate(active, at, {}, id) && id !in picked
      ensures |picked| >= limit && forall i :: 0 <= i < |picked| ==> Before(active, picked[i], id)
    {
      CutComesFirst(active, order, n, id);
    }
    if active != map[] {
      var id := Element(active.Keys);
      assert id in order;
    }
  }

  lemma {:induction false} Longer(used: set<Token>) returns (n: nat)
    ensures forall t :: t in used ==> |t| < n
    decreases |used|
  {
    if used == {} {
      n := 0;
    } else {
      var t :| t in used;
      n := Longer(used - {t});
      n := if |t| < n then n else |t| + 1;
    }
  }

  function Dashes(n: nat): (t: Token)
    ensures |t| == n
  {
    seq(n, _ => '-')
  }

  /** Tokens never run out. */
  lemma {:induction false} FreshTokens(used: set<Token>, picked: seq<RowId>) returns (claims: map<RowId, Token>)
    ensures claims.Keys == set id | id in picked
    ensures forall id :: id in claims ==> claims[id] !in used
    ensures forall a, b :: a in claims && b in claims && claims[a] == claims[b] ==> a == b
  {
    if picked == [] {
      claims := map[];
    } else {
      var rest := FreshTokens(used, picked[1..]);
      var n := Longer(used + rest.Values);
      claims := rest[picked[0] := Dashes(n)];
      assert Dashes(n) !in used + rest.Values;
      assert picked == [picked[0]] + picked[1..];
    }
  }

  lemma {:induction false} LateEnough(active: map<RowId, Row>, from: int) returns (at: int)
    ensures from <= at && forall id :: id in active ==> Due(active[id], at)
    decreases |active|
  {
    if active.Keys == {} {
      at := from;
    } else {
      var id := Element(active.Keys);
      at := LateEnough(active - {id}, from);
      var row := active[id];
      at := if row.availableAt > at then row.availableAt else at;
      at := if row.claimedUntil.Some? && row.claimedUntil.value > at then row.claimedUntil.value else at;
      forall k | k in active ensures Due(active[k], at) {
        assert k != id ==> k in active - {id};
      }
    }
  }

  // ----- Draining a batch -----

  /** Publish, mark sent, and the statement arrives. */
  function Deliver(r: RelayId, rec: Snapshot): seq<Step> {
    [Publish(r, true, true), CallMarkSent(r, false), Land(Command(r, rec, MarkSent))]
  }

  function DeliverAll(r: RelayId, batch: seq<Snapshot>): seq<Step> {
    if batch == [] then [] else Deliver(r, batch[0]) + DeliverAll(r, batch[1..])
  }

  /** The batch holds distinct rows, each under its current token. */
  ghost predicate Current(t: Tables, batch: seq<Snapshot>) {
    && (forall i :: 0 <= i < |batch| ==> Matches(t, batch[i].id, batch[i].token))
    && (forall i, j :: 0 <= i < j < |batch| ==> batch[i].id != batch[j].id)
  }

  function BatchIds(batch: seq<Snapshot>): set<RowId> {
    set rec | rec in batch :: rec.id
  }

  /** The relay is left with this batch, or idle. */
  predicate HasBatch(s: State, r: RelayId, batch: seq<Snapshot>) {
    if batch == [] then r !in s.relays else r in s.relays && s.relays[r] == Work(batch, Fresh)
  }

  lemma DeliverOne(cap: int, s: State, r: RelayId, batch: seq<Snapshot>)
    requires batch != [] && HasBatch(s, r, batch) && Current(s.tables, batch)
    ensures ValidRun(cap, s, Deliver(r, batch[0]))
    ensures var s' := Run(cap, s, Deliver(r, batch[0]));
            && s'.tables == Tables(s.tables.active - {batch[0].id}, s.tables.dead)
            && HasBatch(s', r, batch[1..]) && Current(s'.tables, batch[1..])
  {
    var rec := batch[0];
    var s1 := Apply(cap, s, Publish(r, true, true));
    var s2 := Apply(cap, s1, CallMarkSent(r, false));
    ThreeSteps(cap, s, Publish(r, true, true), CallMarkSent(r, false), Land(Command(r, rec, MarkSent)));
  }

  lemma ThreeSteps(cap: int, s: State, a: Step, b: Step, c: Step)
    requires Enabled(s, a) && Enabled(Apply(cap, s, a), b) && Enabled(Apply(cap, Apply(cap, s, a), b), c)
    ensures ValidRun(cap, s, [a, b, c])
    ensures Run(cap, s, [a, b, c]) == Apply(cap, Apply(cap, Apply(cap, s, a), b), c)
  {
    assert [a, b, c][1..] == [b, c] && [b, c][1..] == [c] && [c][1..] == [];
    var s2 := Apply(cap, Apply(cap, s, a), b);
    assert ValidRun(cap, Apply(cap, s2, c), []);
    assert ValidRun(cap, s2, [c]) && Run(cap, s2, [c]) == Apply(cap, s2, c);
    assert ValidRun(cap, Apply(cap, s, a), [b, c]);
  }

  lemma {:induction false} DeliverBatch(cap: int, s: State, r: RelayId, batch: seq<Snapshot>)
    requires HasBatch(s, r, batch) && Current(s.tables, batch)
    ensures ValidRun(cap, s, DeliverAll(r, batch))
    ensures var s' := Run(cap, s, DeliverAll(r, batch));
            s'.tables == Tables(s.tables.active - BatchIds(batch), s.tables.dead) && r !in s'.relays
    decreases |batch|
  {
    if batch == [] {
      assert s.tables.active - BatchIds(batch) == s.tables.active;
    } else {
      DeliverOne(cap, s, r, batch);
      var s' := Run(cap, s, Deliver(r, batch[0]));
      DeliverBatch(cap, s', r, batch[1..]);
      RunConcat(cap, s, Deliver(r, batch[0]), DeliverAll(r, batch[1..]));
      assert BatchIds(batch) == {batch[0].id} + BatchIds(batch[1..]);
      assert s.tables.active - {batch[0].id} - BatchIds(batch[1..]) == s.tables.active - BatchIds(batch);
    }
  }

  // ----- The theorem -----

  /** Every Fetch in the run is relay `r`'s, with its batch size and claim lease. */
  predicate AsConfigured(steps: seq<Step>, r: RelayId, limit: int, lease: int) {
    forall i :: 0 <= i < |steps| && steps[i].Fetch? ==>
      steps[i].relay == r && steps[i].limit == limit && steps[i].until == steps[i].at + lease
  }

  lemma {:induction false} DeliverAllFetchesNothing(r: RelayId, batch: seq<Snapshot>)
    ensures forall i :: 0 <= i < |DeliverAll(r, batch)| ==> !DeliverAll(r, batch)[i].Fetch?
  {
    if batch != [] {
      DeliverAllFetchesNothing(r, batch[1..]);
    }
  }

  /** Wait for every lease and backoff to run out, then claim a batch. */
  lemma ClaimBatch(cap: int, s: State, r: RelayId, limit: int, lease: int) returns (claim: seq<Step>, batch: seq<Snapshot>)
    requires r !in s.relays && limit > 0 && lease > 0
    ensures ValidRun(cap, s, claim) && AsConfigured(claim, r, limit, lease)
    ensures var s' := Run(cap, s, claim);
            && HasBatch(s', r, batch) && Current(s'.tables, batch)
            && s'.tables.dead == s.tables.dead && s'.tables.active.Keys == s.tables.active.Keys
            && (s.tables.active != map[] ==> batch != [])
  {
    var at := LateEnough(s.tables.active, s.now);
    var picked := PickFirst(s.tables.active, at, limit);
    var claims := FreshTokens(s.used, picked);
    var until := at + lease;
    var fetch := Fetch(r, at, limit, until, {}, picked, claims, true);
    var s1 := Apply(cap, s, Tick(at));
    assert Enabled(s1, fetch);
    batch := Snapshots(s.tables.active, picked, claims);
    ClaimedIsCurrent(s.tables, picked, claims, until);
    claim := [Tick(at), fetch];
    assert claim[1..] == [fetch] && claim[1..][1..] == [];
    var s2 := Apply(cap, s1, fetch);
    assert ValidRun(cap, s2, []) && ValidRun(cap, s1, claim[1..]) && Run(cap, s1, claim[1..]) == s2;
  }

  lemma ClaimedIsCurrent(t: Tables, picked: seq<RowId>, claims: map<RowId, Token>, until: int)
    requires forall i :: 0 <= i < |picked| ==> picked[i] in t.active && picked[i] in claims
    requires forall i, j :: 0 <= i < j < |picked| ==> Before(t.active, picked[i], picked[j])
    ensures Current(t.(active := Stamp(t.active, claims, until)), Snapshots(t.active, picked, claims))
  {
    forall i, j | 0 <= i < j < |picked| ensures picked[i] != picked[j] {
      assert Before(t.active, picked[i], picked[j]);
    }
  }

  /** One round: claim, deliver. It leaves fewer rows active, and buries none. */
  lemma DrainRound(cap: int, s: State, r: RelayId, limit: int, lease: int) returns (round: seq<Step>)
    requires r !in s.relays && limit > 0 && lease > 0 && s.tables.active != map[]
    ensures ValidRun(cap, s, round) && AsConfigured(round, r, limit, lease)
    ensures var s' := Run(cap, s, round);
            r !in s'.relays && s'.tables.dead == s.tables.dead && s'.tables.active.Keys < s.tables.active.Keys
  {
    var claim, batch := ClaimBatch(cap, s, r, limit, lease);
    var s1 := Run(cap, s, claim);
    DeliverBatch(cap, s1, r, batch);
    DeliverAllFetchesNothing(r, batch);
    RunConcat(cap, s, claim, DeliverAll(r, batch));
    round := claim + DeliverAll(r, batch);
    assert batch[0].id in BatchIds(batch) && batch[0].id in s1.tables.active;
  }

  lemma {:induction false} DrainAll(cap: int, s: State, r: RelayId, limit: int, lease: int) returns (more: seq<Step>)
    requires r !in s.relays && limit > 0 && lease > 0
    ensures ValidRun(cap, s, more) && AsConfigured(more, r, limit, lease)
    ensures Run(cap, s, more).tables == Tables(map[], s.tables.dead)
    decreases s.tables.active.Keys
  {
    if s.tables.active == map[] {
      more := [];
    } else {
      var round := DrainRound(cap, s, r, limit, lease);
      var rest := DrainAll(cap, Run(cap, s, round), r, limit, lease);
      RunConcat(cap, s, round, rest);
      more := round + rest;
    }
  }

  /**
   * From every reachable state and every idle relay, whatever its batch size and claim lease, there is a
   * continuation that sends every row still active and buries none.
   */
  lemma EveryStateCanDrain(cap: int, steps: seq<Step>, r: RelayId, limit: int, lease: int) returns (more: seq<Step>)
    requires ValidRun(cap, Init, steps) && r !in Run(cap, Init, steps).relays && limit > 0 && lease > 0
    ensures ValidRun(cap, Init, steps + more) && AsConfigured(more, r, limit, lease)
    ensures var s, s' := Run(cap, Init, steps), Run(cap, Init, steps + more);
            && s'.tables.active == map[] && s'.tables.dead == s.tables.dead
            && forall id :: id in s.tables.active ==> Tally(s'.log, ASent, id) == 1
  {
    var s := Run(cap, Init, steps);
    more := DrainAll(cap, s, r, limit, lease);
    RunConcat(cap, Init, steps, more);
    RunLogGrows(cap, s, more);
    forall id | id in s.tables.active ensures Tally(Run(cap, Init, steps + more).log, ASent, id) == 1 {
      LeftAsSent(cap, steps, more, id);
    }
  }

  lemma {:induction false} RunLogGrows(cap: int, s: State, steps: seq<Step>)
    requires ValidRun(cap, s, steps)
    ensures s.log <= Run(cap, s, steps).log
    decreases |steps|
  {
    if steps != [] {
      LogGrows(cap, s, steps[0]);
      RunLogGrows(cap, Apply(cap, s, steps[0]), steps[1..]);
    }
  }

  /** A row that left the active table without a new dead letter was sent. */
  lemma LeftAsSent(cap: int, steps: seq<Step>, more: seq<Step>, id: RowId)
    requires ValidRun(cap, Init, steps) && ValidRun(cap, Init, steps + more)
    requires id in Run(cap, Init, steps).tables.active && id !in Run(cap, Init, steps + more).tables.active
    requires Run(cap, Init, steps + more).tables.dead == Run(cap, Init, steps).tables.dead
    requires Run(cap, Init, steps).log <= Run(cap, Init, steps + more).log
    ensures Tally(Run(cap, Init, steps + more).log, ASent, id) == 1
  {
    RowInExactlyOnePlace(cap, steps, id);
    RowInExactlyOnePlace(cap, steps + more, id);
  }
}
