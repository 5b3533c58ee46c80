/**
 * Claims on one row over time: leases never overlap, a token belongs to one claim, and a settlement
 * statement takes effect exactly when its claim is the row's last event.
 */
module OutboxLease {
  import opened Wrappers
  import opened OutboxTables
  import opened OutboxProtocol
  import opened OutboxSafety

  predicate ClaimAt(log: seq<Effect>, j: int, id: RowId) {
    0 <= j < |log| && log[j].Claimed? && id in log[j].claims
  }

  predicate Settles(e: Effect, id: RowId) {
    Is(e, ASent, id) || Is(e, ARetried, id) || Is(e, ABuried, id)
  }

  /** A MarkFailed on row `id` took effect strictly between two positions of the log. */
  ghost predicate RetriedIn(log: seq<Effect>, id: RowId, j: int, k: int) {
    exists m :: j < m < k && 0 <= m < |log| && Is(log[m], ARetried, id)
  }

  /** Nothing claimed or settled row `id` after position `j`. */
  ghost predicate LastWord(log: seq<Effect>, id: RowId, j: int) {
    forall m :: j < m < |log| && 0 <= m ==> !ClaimAt(log, m, id) && !Settles(log[m], id)
  }

  /** What is known of the claim at position `j` on row `id`. */
  ghost predicate LeaseKnown(s: State, j: int, id: RowId)
    requires ClaimAt(s.log, j, id)
  {
    && s.log[j].at <= s.now && s.log[j].at < s.log[j].until
    && WasStaged(s.log, id)
    && s.log[j].claims[id] in s.used
    && (id in s.tables.active ==> RetriedIn(s.log, id, j, |s.log|) || LeaseReaches(s.tables.active[id], s.log[j].until))
  }

  predicate LeaseReaches(row: Row, until: int) {
    row.claimedUntil.Some? && until <= row.claimedUntil.value
  }

  ghost predicate Leases(s: State) {
    forall j, id :: ClaimAt(s.log, j, id) ==> LeaseKnown(s, j, id)
  }

  ghost predicate Disjoint(log: seq<Effect>) {
    forall j, k, id :: ClaimAt(log, j, id) && ClaimAt(log, k, id) && j < k ==>
      RetriedIn(log, id, j, k) || log[j].until <= log[k].at
  }

  ghost predicate OneClaimPerToken(log: seq<Effect>) {
    forall j, k, a, b :: ClaimAt(log, j, a) && ClaimAt(log, k, b) && log[j].claims[a] == log[k].claims[b] ==>
      j == k && a == b
  }

  /** The row's token column is the token of its last claim, if nothing settled that claim. */
  ghost predicate TokenIsLastClaim(s: State) {
    && (forall id :: id in s.tables.active && s.tables.active[id].token.Some? ==>
          exists j :: ClaimAt(s.log, j, id) && LastWord(s.log, id, j)
                      && s.log[j].claims[id] == s.tables.active[id].token.value)
    && (forall j, id :: ClaimAt(s.log, j, id) && LastWord(s.log, id, j) ==>
          Matches(s.tables, id, s.log[j].claims[id]))
  }

  ghost predicate LeaseInv(s: State) {
    Leases(s) && Disjoint(s.log) && OneClaimPerToken(s.log) && TokenIsLastClaim(s)
  }

  lemma RetriedKept(log: seq<Effect>, log': seq<Effect>, id: RowId, j: int)
    requires log <= log' && RetriedIn(log, id, j, |log|)
    ensures RetriedIn(log', id, j, |log'|)
  {
    var m :| j < m < |log| && 0 <= m < |log| && Is(log[m], ARetried, id);
    assert log'[m] == log[m];
  }

  lemma StagedKept(log: seq<Effect>, log': seq<Effect>, id: RowId)
    requires log <= log' && WasStaged(log, id)
    ensures WasStaged(log', id)
  {
  }

  /** The statement reaches a row that still carries its token. */
  ghost predicate Hits(s: State, step: Step) {
    Enabled(s, step) && step.Land? && Matches(s.tables, step.cmd.rec.id, step.cmd.rec.token)
  }

  lemma LandEffect(cap: int, s: State, step: Step)
    requires Hits(s, step)
    ensures var s', rec := Apply(cap, s, step), step.cmd.rec;
            && s'.log == s.log + [EffectOf(step.cmd)] && s'.used == s.used && s'.now == s.now
            && (forall id :: id in s'.tables.active ==> id in s.tables.active)
            && (forall id :: id in s'.tables.active && id != rec.id ==> s'.tables.active[id] == s.tables.active[id])
            && (rec.id in s'.tables.active ==>
                  Is(EffectOf(step.cmd), ARetried, rec.id) && s'.tables.active[rec.id].token == None)
            && (rec.id !in s'.tables.active ==> !Is(EffectOf(step.cmd), ARetried, rec.id))
  {
  }

  lemma LeaseKept(cap: int, s: State, step: Step, j: int, id: RowId)
    requires Enabled(s, step) && ClaimAt(s.log, j, id) && LeaseKnown(s, j, id)
    ensures ClaimAt(Apply(cap, s, step).log, j, id) && LeaseKnown(Apply(cap, s, step), j, id)
  {
    var s' := Apply(cap, s, step);
    LogGrows(cap, s, step);
    StagedKept(s.log, s'.log, id);
    UsedGrows(cap, s, step);
    if RetriedIn(s.log, id, j, |s.log|) {
      RetriedKept(s.log, s'.log, id, j);
    } else if Hits(s, step) {
      LandEffect(cap, s, step);
      if id == step.cmd.rec.id && id in s'.tables.active {
        assert Is(s'.log[|s.log|], ARetried, id);
      }
    }
  }

  lemma LeasesStep(cap: int, s: State, step: Step)
    requires Inv(cap, s) && Leases(s) && Enabled(s, step)
    ensures Leases(Apply(cap, s, step))
  {
    var s' := Apply(cap, s, step);
    LogGrows(cap, s, step);
    forall j, id | ClaimAt(s'.log, j, id) ensures LeaseKnown(s', j, id) {
      if j < |s.log| {
        assert ClaimAt(s.log, j, id);
        LeaseKept(cap, s, step, j, id);
      } else {
        assert step.Fetch? && id in s.tables.active;
        assert Staged(id, s.tables.active[id].event) in s.log;
      }
    }
  }

  lemma DisjointStep(cap: int, s: State, step: Step)
    requires Leases(s) && Disjoint(s.log) && Enabled(s, step)
    ensures Disjoint(Apply(cap, s, step).log)
  {
    var s' := Apply(cap, s, step);
    LogGrows(cap, s, step);
    forall j, k, id | ClaimAt(s'.log, j, id) && ClaimAt(s'.log, k, id) && j < k
      ensures RetriedIn(s'.log, id, j, k) || s'.log[j].until <= s'.log[k].at
    {
      assert ClaimAt(s.log, j, id) && LeaseKnown(s, j, id);
      if k < |s.log| {
        assert ClaimAt(s.log, k, id);
        if RetriedIn(s.log, id, j, k) {
          var m :| j < m < k && 0 <= m < |s.log| && Is(s.log[m], ARetried, id);
          assert s'.log[m] == s.log[m];
        }
      } else {
        assert step.Fetch? && Due(s.tables.active[id], step.at);
        if RetriedIn(s.log, id, j, |s.log|) {
          RetriedKept(s.log, s.log, id, j);
          var m :| j < m < |s.log| && 0 <= m < |s.log| && Is(s.log[m], ARetried, id);
          assert s'.log[m] == s.log[m];
        }
      }
    }
  }

  lemma TokensStep(cap: int, s: State, step: Step)
    requires Leases(s) && OneClaimPerToken(s.log) && Enabled(s, step)
    ensures OneClaimPerToken(Apply(cap, s, step).log)
  {
    var s' := Apply(cap, s, step);
    LogGrows(cap, s, step);
    forall j, k, a, b | ClaimAt(s'.log, j, a) && ClaimAt(s'.log, k, b) && s'.log[j].claims[a] == s'.log[k].claims[b]
      ensures j == k && a == b
    {
      assert j < |s.log| ==> ClaimAt(s.log, j, a) && LeaseKnown(s, j, a);
      assert k < |s.log| ==> ClaimAt(s.log, k, b) && LeaseKnown(s, k, b);
    }
  }

  /** A step whose effect does not touch row `id` leaves an existing row alone. */
  lemma UntouchedRow(cap: int, s: State, step: Step, id: RowId)
    requires Enabled(s, step) && WasStaged(s.log, id)
    requires forall m :: |s.log| <= m < |Apply(cap, s, step).log| ==>
               !ClaimAt(Apply(cap, s, step).log, m, id) && !Settles(Apply(cap, s, step).log[m], id)
    ensures var s' := Apply(cap, s, step);
            && (id in s.tables.active <==> id in s'.tables.active)
            && (id in s.tables.active ==> s'.tables.active[id] == s.tables.active[id])
  {
    var s' := Apply(cap, s, step);
    if step.Fetch? {
      assert s'.log[|s.log|].Claimed?;
      assert !ClaimAt(s'.log, |s.log|, id);
    } else if Hits(s, step) {
      assert s'.log[|s.log|] == EffectOf(step.cmd);
      assert !Settles(s'.log[|s.log|], id);
    }
  }

  lemma LastWordBack(cap: int, s: State, step: Step, id: RowId, j: int)
    requires Inv(cap, s) && LeaseInv(s) && Enabled(s, step)
    requires ClaimAt(Apply(cap, s, step).log, j, id) && LastWord(Apply(cap, s, step).log, id, j)
    ensures Matches(Apply(cap, s, step).tables, id, Apply(cap, s, step).log[j].claims[id])
  {
    var s' := Apply(cap, s, step);
    LogGrows(cap, s, step);
    if j < |s.log| {
      assert ClaimAt(s.log, j, id) && LeaseKnown(s, j, id);
      forall m | j < m < |s.log| ensures !ClaimAt(s.log, m, id) && !Settles(s.log[m], id) {
        assert s'.log[m] == s.log[m];
        assert !ClaimAt(s'.log, m, id) && !Settles(s'.log[m], id);
      }
      assert LastWord(s.log, id, j);
      UntouchedRow(cap, s, step, id);
    } else {
      assert step.Fetch?;
    }
  }

  lemma LastWordForth(cap: int, s: State, step: Step, id: RowId)
    requires Inv(cap, s) && LeaseInv(s) && Enabled(s, step)
    requires id in Apply(cap, s, step).tables.active && Apply(cap, s, step).tables.active[id].token.Some?
    ensures var s' := Apply(cap, s, step);
            exists j :: ClaimAt(s'.log, j, id) && LastWord(s'.log, id, j)
                        && s'.log[j].claims[id] == s'.tables.active[id].token.value
  {
    var s' := Apply(cap, s, step);
    LogGrows(cap, s, step);
    if step.Fetch? && id in step.claims {
      assert ClaimAt(s'.log, |s.log|, id) && LastWord(s'.log, id, |s.log|);
    } else {
      TokenUnmoved(cap, s, step, id);
      var j :| ClaimAt(s.log, j, id) && LastWord(s.log, id, j)
               && s.log[j].claims[id] == s.tables.active[id].token.value;
      LastWordKept(s.log, s'.log, id, j);
    }
  }

  /** A token that a step neither stamped nor cleared: no effect of the step touches its row. */
  lemma TokenUnmoved(cap: int, s: State, step: Step, id: RowId)
    requires Enabled(s, step) && !(step.Fetch? && id in step.claims)
    requires id in Apply(cap, s, step).tables.active && Apply(cap, s, step).tables.active[id].token.Some?
    ensures var s' := Apply(cap, s, step);
            && id in s.tables.active && s.tables.active[id].token == s'.tables.active[id].token
            && forall m :: |s.log| <= m < |s'.log| ==> !ClaimAt(s'.log, m, id) && !Settles(s'.log[m], id)
  {
    if Hits(s, step) {
      LandEffect(cap, s, step);
    }
  }

  lemma LastWordKept(log: seq<Effect>, log': seq<Effect>, id: RowId, j: int)
    requires log <= log' && ClaimAt(log, j, id) && LastWord(log, id, j)
    requires forall m :: |log| <= m < |log'| ==> !ClaimAt(log', m, id) && !Settles(log'[m], id)
    ensures ClaimAt(log', j, id) && LastWord(log', id, j)
  {
    forall m | j < m < |log'| ensures !ClaimAt(log', m, id) && !Settles(log'[m], id) {
      if m < |log| {
        assert log'[m] == log[m] && !ClaimAt(log, m, id) && !Settles(log[m], id);
      }
    }
  }

  lemma LeaseStep(cap: int, s: State, step: Step)
    requires Inv(cap, s) && LeaseInv(s) && Enabled(s, step)
    ensures LeaseInv(Apply(cap, s, step))
  {
    var s' := Apply(cap, s, step);
    LeasesStep(cap, s, step);
    DisjointStep(cap, s, step);
    TokensStep(cap, s, step);
    forall j, id | ClaimAt(s'.log, j, id) && LastWord(s'.log, id, j) ensures Matches(s'.tables, id, s'.log[j].claims[id]) {
      LastWordBack(cap, s, step, id, j);
    }
    forall id | id in s'.tables.active && s'.tables.active[id].token.Some?
      ensures exists j :: ClaimAt(s'.log, j, id) && LastWord(s'.log, id, j)
                          && s'.log[j].claims[id] == s'.tables.active[id].token.value
    {
      LastWordForth(cap, s, step, id);
    }
  }

  lemma {:induction false} LeaseRun(cap: int, s: State, steps: seq<Step>)
    requires Inv(cap, s) && LeaseInv(s) && ValidRun(cap, s, steps)
    ensures Inv(cap, Run(cap, s, steps)) && LeaseInv(Run(cap, s, steps))
    decreases |steps|
  {
    if steps != [] {
      InvStep(cap, s, steps[0]);
      LeaseStep(cap, s, steps[0]);
      LeaseRun(cap, Apply(cap, s, steps[0]), steps[1..]);
    }
  }

  lemma LeaseAlways(cap: int, steps: seq<Step>)
    requires ValidRun(cap, Init, steps)
    ensures Inv(cap, Run(cap, Init, steps)) && LeaseInv(Run(cap, Init, steps))
  {
    InvInit(cap);
    LeaseRun(cap, Init, steps);
  }

  // ----- Theorems about every run -----

  /** A later claim on a row starts no earlier than the previous lease ended, unless a retry released the row. */
  lemma ReclaimAfterLeaseEnd(cap: int, steps: seq<Step>, j: int, k: int, id: RowId)
    requires ValidRun(cap, Init, steps)
    requires j < k && ClaimAt(Run(cap, Init, steps).log, j, id) && ClaimAt(Run(cap, Init, steps).log, k, id)
    ensures var log := Run(cap, Init, steps).log;
            RetriedIn(log, id, j, k) || log[j].until <= log[k].at
  {
    LeaseAlways(cap, steps);
  }

  /** Two Fetches inside one lease window share a row only if a retry released it in between. */
  lemma FetchesInLeaseWindowDisjoint(cap: int, steps: seq<Step>, j: int, k: int)
    requires ValidRun(cap, Init, steps)
    requires 0 <= j < k < |Run(cap, Init, steps).log|
    requires Run(cap, Init, steps).log[j].Claimed? && Run(cap, Init, steps).log[k].Claimed?
    requires Run(cap, Init, steps).log[k].at < Run(cap, Init, steps).log[j].until
    ensures var log := Run(cap, Init, steps).log;
            forall id :: id in log[j].claims && id in log[k].claims ==> RetriedIn(log, id, j, k)
  {
    var log := Run(cap, Init, steps).log;
    forall id | id in log[j].claims && id in log[k].claims ensures RetriedIn(log, id, j, k) {
      ReclaimAfterLeaseEnd(cap, steps, j, k, id);
    }
  }

  /** The claim at `j` on row `id` has not run out and has not been settled. */
  ghost predicate Holds(s: State, j: int, id: RowId) {
    ClaimAt(s.log, j, id) && s.now < s.log[j].until && forall m :: j < m < |s.log| && 0 <= m ==> !Settles(s.log[m], id)
  }

  /** At any moment at most one claim on a row is unexpired and unsettled, whichever relays made the claims. */
  lemma AtMostOneHolder(cap: int, steps: seq<Step>, j: int, k: int, id: RowId)
    requires ValidRun(cap, Init, steps)
    requires Holds(Run(cap, Init, steps), j, id) && Holds(Run(cap, Init, steps), k, id)
    ensures j == k
  {
    var s := Run(cap, Init, steps);
    LeaseAlways(cap, steps);
    assert LeaseKnown(s, j, id) && LeaseKnown(s, k, id);
    if j < k {
      ReclaimAfterLeaseEnd(cap, steps, j, k, id);
    } else if k < j {
      ReclaimAfterLeaseEnd(cap, steps, k, j, id);
    }
  }

  /**
   * A settlement statement for (id, token) takes effect if and only if the claim that issued the token
   * is the last thing that happened to the row.
   */
  lemma EffectiveIffClaimIsLastWord(cap: int, steps: seq<Step>, id: RowId, token: Token)
    requires ValidRun(cap, Init, steps)
    ensures var s := Run(cap, Init, steps);
            Matches(s.tables, id, token) <==>
            exists j :: ClaimAt(s.log, j, id) && LastWord(s.log, id, j) && s.log[j].claims[id] == token
  {
    LeaseAlways(cap, steps);
  }

  /** A token was handed out by exactly one claim, for one row, to one relay. */
  lemma TokenNamesOneClaim(cap: int, steps: seq<Step>, j: int, k: int, a: RowId, b: RowId)
    requires ValidRun(cap, Init, steps)
    requires ClaimAt(Run(cap, Init, steps).log, j, a) && ClaimAt(Run(cap, Init, steps).log, k, b)
    requires Run(cap, Init, steps).log[j].claims[a] == Run(cap, Init, steps).log[k].claims[b]
    ensures j == k && a == b
  {
    LeaseAlways(cap, steps);
  }
}
