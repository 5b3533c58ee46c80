/** Every grant of a reservation and what became of it: grants for one key never overlap. */
module IdempotencyGrants {
  import opened Wrappers
  import opened IdempotencyRecord
  import opened RedisKeys
  import opened IdempotencyProtocol

  predicate NewAt(log: seq<Event>, i: int, k: Key) {
    0 <= i < |log| && log[i].New? && log[i].key == k
  }

  /** This Finish or Cancel was made with the token of grant `i`. */
  predicate SettlesGrant(log: seq<Event>, i: nat, m: int, k: Key)
    requires NewAt(log, i, k)
  {
    i < m < |log| && log[m].key == k && Settles(log[m], log[i].token)
  }

  ghost predicate Unsettled(log: seq<Event>, i: nat, end: nat, k: Key)
    requires NewAt(log, i, k) && end <= |log|
  {
    forall m :: i < m < end ==> !Settles(log[m], log[i].token)
  }

  /**
   * What became of grant `i` before position `end`, at time `now`: its own token has since cancelled a
   * reservation of the key; its own token has since finished one and that retention is over; or neither was
   * done and its lease is over.
   */
  ghost predicate Released(log: seq<Event>, i: nat, end: nat, k: Key, now: Time)
    requires NewAt(log, i, k) && end <= |log|
  {
    || (Unsettled(log, i, end, k) && log[i].until <= now)
    || (exists m :: m < end && SettlesGrant(log, i, m, k) && (log[m].Finished? ==> log[m].until <= now))
  }

  /** Nobody has settled grant `i`, and it is the record in the store. */
  ghost predicate Leased(s: State, i: nat, k: Key)
    requires NewAt(s.log, i, k)
  {
    && Unsettled(s.log, i, |s.log|, k)
    && k in s.store && s.store[k] == InProgress(s.log[i].fp, s.log[i].token, s.log[i].until)
  }

  /** The record is the completion that the Finish at `m`, the only use of its token since, made of grant `i`. */
  ghost predicate DoneBy(log: seq<Event>, i: nat, m: int, k: Key, e: Entry) {
    && NewAt(log, i, k) && SettlesGrant(log, i, m, k) && log[m].Finished?
    && e == Completed(log[i].fp, log[m].resp, log[m].until)
    && forall n :: i < n < |log| && Settles(log[n], log[i].token) ==> n == m
  }

  ghost predicate Stored(s: State, i: nat, k: Key) {
    k in s.store && exists m :: DoneBy(s.log, i, m, k, s.store[k])
  }

  ghost predicate GrantTracked(s: State, i: nat, k: Key)
    requires NewAt(s.log, i, k)
  {
    Released(s.log, i, |s.log|, k, s.now) || Leased(s, i, k) || Stored(s, i, k)
  }

  /** The record is grant `i`, unsettled. */
  ghost predicate GrantOf(log: seq<Event>, i: nat, k: Key, e: Entry) {
    && NewAt(log, i, k) && e == InProgress(log[i].fp, log[i].token, log[i].until)
    && Unsettled(log, i, |log|, k)
  }

  ghost predicate HasGrant(log: seq<Event>, k: Key, e: Entry) {
    match e
    case InProgress(_, _, _) => exists i: nat :: GrantOf(log, i, k, e)
    case Completed(_, _, _) => exists i: nat, m :: DoneBy(log, i, m, k, e)
  }

  /** Every record is a grant or the completion of one. */
  ghost predicate EntriesAreGrants(s: State) {
    forall k :: k in s.store ==> HasGrant(s.log, k, s.store[k])
  }

  ghost predicate GrantsTracked(s: State) {
    forall i: nat, k :: NewAt(s.log, i, k) ==> GrantTracked(s, i, k)
  }

  ghost predicate GrantsSeparated(s: State) {
    forall i: nat, j: nat, k :: NewAt(s.log, i, k) && NewAt(s.log, j, k) && i < j ==>
      Released(s.log, i, j, k, s.log[j].at)
  }

  ghost predicate GrantInv(s: State) {
    Inv(s) && EntriesAreGrants(s) && GrantsTracked(s) && GrantsSeparated(s)
  }

  /** What happened before position `end` stays as it is when the log grows. */
  lemma ReleasedKept(log: seq<Event>, log': seq<Event>, i: nat, end: nat, k: Key, now: Time)
    requires NewAt(log, i, k) && end <= |log| && log <= log'
    requires Released(log, i, end, k, now)
    ensures NewAt(log', i, k) && Released(log', i, end, k, now)
  {
    if m :| m < end && SettlesGrant(log, i, m, k) && (log[m].Finished? ==> log[m].until <= now) {
      assert SettlesGrant(log', i, m, k);
    }
  }

  /** When the record of a grant is gone, the grant was released. */
  lemma GoneMeansReleased(s: State, i: nat, k: Key)
    requires NewAt(s.log, i, k) && GrantTracked(s, i, k) && Live(Get(s, k), s.now) == None
    ensures Released(s.log, i, |s.log|, k, s.now)
  {
  }

  lemma UnsettledGrows(log: seq<Event>, e: Event, i: nat, k: Key)
    requires NewAt(log, i, k) && !Settles(e, log[i].token)
    ensures NewAt(log + [e], i, k)
    ensures Unsettled(log, i, |log|, k) ==> Unsettled(log + [e], i, |log| + 1, k)
  {
  }

  lemma SettledGrows(log: seq<Event>, e: Event, i: nat, m: int, k: Key)
    requires NewAt(log, i, k) && SettlesGrant(log, i, m, k)
    ensures NewAt(log + [e], i, k) && SettlesGrant(log + [e], i, m, k) && (log + [e])[m] == log[m]
  {
  }

  lemma ReleasedGrows(s: State, s': State, e: Event, i: nat, k: Key)
    requires NewAt(s.log, i, k) && Released(s.log, i, |s.log|, k, s.now)
    requires s'.log == s.log + [e] && s'.now == s.now && !Settles(e, s.log[i].token)
    ensures NewAt(s'.log, i, k) && Released(s'.log, i, |s'.log|, k, s'.now)
  {
    UnsettledGrows(s.log, e, i, k);
    if m :| m < |s.log| && SettlesGrant(s.log, i, m, k) && (s.log[m].Finished? ==> s.log[m].until <= s.now) {
      SettledGrows(s.log, e, i, m, k);
    }
  }

  /** An event that does not settle grant `i`, and leaves its record alone. */
  lemma TrackedGrows(s: State, s': State, e: Event, i: nat, k: Key)
    requires NewAt(s.log, i, k) && GrantTracked(s, i, k)
    requires s'.log == s.log + [e] && s'.now == s.now && !Settles(e, s.log[i].token)
    requires Released(s.log, i, |s.log|, k, s.now) || Get(s', k) == Get(s, k)
    ensures NewAt(s'.log, i, k) && GrantTracked(s', i, k)
  {
    if Released(s.log, i, |s.log|, k, s.now) {
      ReleasedGrows(s, s', e, i, k);
    } else if Leased(s, i, k) {
      UnsettledGrows(s.log, e, i, k);
    } else {
      var m :| DoneBy(s.log, i, m, k, s.store[k]);
      SettledGrows(s.log, e, i, m, k);
      assert DoneBy(s'.log, i, m, k, s'.store[k]);
    }
  }

  lemma TrackedBegin(s: State, step: Step, i: nat, k: Key)
    requires Enabled(s, step) && step.DoBegin? && NewAt(s.log, i, k) && GrantTracked(s, i, k)
    ensures NewAt(Apply(s, step).log, i, k) && GrantTracked(Apply(s, step), i, k)
  {
    var s' := Apply(s, step);
    BeginReplies(s, step);
    if Live(Get(s, k), s.now) == None {
      GoneMeansReleased(s, i, k);
    }
    TrackedGrows(s, s', s'.log[|s.log|], i, k);
  }

  /** An applied command whose token is that of grant `i` is for the key and the fingerprint of grant `i`. */
  lemma OwnToken(s: State, step: Step, i: nat, k: Key)
    requires Applied(s, step) && step.cmd.key in s.store && NewAt(s.log, i, k) && step.cmd.token == s.log[i].token
    ensures step.cmd.key == k && s.store[k].fp == s.log[i].fp
  {
    assert EntryEarned(s, step.cmd.key, s.store[step.cmd.key]);
    assert s.log[i] in s.log;
    SameTokenSameKey(s, step.cmd.key, k, s.store[step.cmd.key].fp, s.log[i].fp, s.log[i].token);
  }

  lemma TrackedLand(s: State, step: Step, i: nat, k: Key)
    requires Applied(s, step) && NewAt(s.log, i, k) && GrantTracked(s, i, k)
    ensures NewAt(Apply(s, step).log, i, k) && GrantTracked(Apply(s, step), i, k)
  {
    LandApplied(s, step);
    if step.cmd.token == s.log[i].token {
      OwnToken(s, step, i, k);
      OwnTokenLands(s, step, i);
    } else {
      TrackedGrows(s, Apply(s, step), LandEvent(s, step.cmd), i, k);
    }
  }

  lemma OwnTokenLands(s: State, step: Step, i: nat)
    requires Applied(s, step) && NewAt(s.log, i, step.cmd.key) && GrantTracked(s, i, step.cmd.key)
    requires step.cmd.token == s.log[i].token && step.cmd.key in s.store && s.store[step.cmd.key].fp == s.log[i].fp
    ensures NewAt(Apply(s, step).log, i, step.cmd.key) && GrantTracked(Apply(s, step), i, step.cmd.key)
  {
    var s', k, e := Apply(s, step), step.cmd.key, LandEvent(s, step.cmd);
    LandApplied(s, step);
    assert s'.log[|s.log|] == e && s'.log[i] == s.log[i];
    assert SettlesGrant(s'.log, i, |s.log|, k);
    if Unsettled(s.log, i, |s.log|, k) {
      if step.cmd.FinishCmd? {
        assert DoneBy(s'.log, i, |s.log|, k, s'.store[k]);
      }
    } else {
      var m :| m < |s.log| && SettlesGrant(s.log, i, m, k) && (s.log[m].Finished? ==> s.log[m].until <= s.now);
      SettledGrows(s.log, e, i, m, k);
    }
  }

  lemma TrackedStep(s: State, step: Step, i: nat, k: Key)
    requires GrantInv(s) && Enabled(s, step) && NewAt(s.log, i, k)
    ensures NewAt(Apply(s, step).log, i, k) && GrantTracked(Apply(s, step), i, k)
  {
    assert GrantTracked(s, i, k);
    if step.DoBegin? {
      TrackedBegin(s, step, i, k);
    } else if Applied(s, step) {
      TrackedLand(s, step, i, k);
    }
  }

  /** A record outlives an event that is no use of its token. */
  lemma HasGrantKept(log: seq<Event>, e: Event, k: Key, entry: Entry)
    requires HasGrant(log, k, entry)
    requires forall i: nat :: NewAt(log, i, k) ==> !Settles(e, log[i].token)
    ensures HasGrant(log + [e], k, entry)
  {
    match entry {
      case InProgress(_, _, _) =>
        var i: nat :| GrantOf(log, i, k, entry);
        UnsettledGrows(log, e, i, k);
        assert GrantOf(log + [e], i, k, entry);
      case Completed(_, _, _) =>
        var i: nat, m :| DoneBy(log, i, m, k, entry);
        SettledGrows(log, e, i, m, k);
        assert DoneBy(log + [e], i, m, k, entry);
    }
  }

  /** A record that a step leaves alone is untouched by the event of the step. */
  lemma UntouchedHasGrant(s: State, step: Step, k: Key)
    requires Inv(s) && EntriesAreGrants(s) && Enabled(s, step)
    requires k in s.store && k in Apply(s, step).store && Apply(s, step).store[k] == s.store[k]
    ensures HasGrant(Apply(s, step).log, k, s.store[k])
  {
    assert HasGrant(s.log, k, s.store[k]);
    if step.DoBegin? {
      BeginReplies(s, step);
      var e := Apply(s, step).log[|s.log|];
      assert Apply(s, step).log == s.log + [e];
      HasGrantKept(s.log, e, k, s.store[k]);
    } else if Applied(s, step) {
      LandApplied(s, step);
      forall i: nat | NewAt(s.log, i, k) ensures step.cmd.token != s.log[i].token {
        if step.cmd.token == s.log[i].token {
          OwnToken(s, step, i, k);
        }
      }
      HasGrantKept(s.log, LandEvent(s, step.cmd), k, s.store[k]);
    }
  }

  lemma FinishedHasGrant(s: State, step: Step)
    requires Applied(s, step) && EntriesAreGrants(s) && step.cmd.FinishCmd?
    ensures var s', k := Apply(s, step), step.cmd.key; k in s'.store && HasGrant(s'.log, k, s'.store[k])
  {
    var s', k := Apply(s, step), step.cmd.key;
    LandApplied(s, step);
    assert HasGrant(s.log, k, s.store[k]);
    var i: nat :| GrantOf(s.log, i, k, s.store[k]);
    assert s'.log[|s.log|] == LandEvent(s, step.cmd) && s'.log[i] == s.log[i];
    assert DoneBy(s'.log, i, |s.log|, k, s'.store[k]);
  }

  lemma BegunHasGrant(s: State, step: Step, k: Key)
    requires Enabled(s, step) && step.DoBegin? && k in Apply(s, step).store
    requires k in s.store ==> Apply(s, step).store[k] != s.store[k]
    ensures HasGrant(Apply(s, step).log, k, Apply(s, step).store[k])
  {
    var s' := Apply(s, step);
    BeginReplies(s, step);
    assert k == step.key && s'.log[|s.log|].New?;
    assert GrantOf(s'.log, |s.log|, k, s'.store[k]);
  }

  lemma HasGrantStep(s: State, step: Step, k: Key)
    requires Inv(s) && EntriesAreGrants(s) && Enabled(s, step) && k in Apply(s, step).store
    ensures HasGrant(Apply(s, step).log, k, Apply(s, step).store[k])
  {
    var s' := Apply(s, step);
    if k in s.store && s'.store[k] == s.store[k] {
      UntouchedHasGrant(s, step, k);
    } else if step.DoBegin? {
      BegunHasGrant(s, step, k);
    } else {
      LandApplied(s, step);
      FinishedHasGrant(s, step);
    }
  }

  lemma EntriesAreGrantsStep(s: State, step: Step)
    requires Inv(s) && EntriesAreGrants(s) && Enabled(s, step)
    ensures EntriesAreGrants(Apply(s, step))
  {
    var s' := Apply(s, step);
    forall k | k in s'.store ensures HasGrant(s'.log, k, s'.store[k]) {
      HasGrantStep(s, step, k);
    }
  }

  lemma NewOnlyWhenGone(s: State, step: Step, k: Key)
    requires Enabled(s, step) && NewAt(Apply(s, step).log, |s.log|, k)
    ensures Live(Get(s, k), s.now) == None && Apply(s, step).log[|s.log|].at == s.now
  {
  }

  lemma SeparatedPair(s: State, step: Step, i: nat, j: nat, k: Key)
    requires NewAt(s.log, i, k) && GrantTracked(s, i, k) && GrantsSeparated(s) && Enabled(s, step) && i < j
    requires NewAt(Apply(s, step).log, i, k) && NewAt(Apply(s, step).log, j, k)
    ensures var log := Apply(s, step).log; Released(log, i, j, k, log[j].at)
  {
    var log := Apply(s, step).log;
    LogGrows(s, step);
    if j < |s.log| {
      assert log[j] == s.log[j] && NewAt(s.log, j, k);
      ReleasedKept(s.log, log, i, j, k, s.log[j].at);
    } else {
      NewOnlyWhenGone(s, step, k);
      GoneMeansReleased(s, i, k);
      ReleasedKept(s.log, log, i, |s.log|, k, s.now);
    }
  }

  lemma SeparatedStep(s: State, step: Step)
    requires GrantInv(s) && Enabled(s, step)
    ensures GrantsSeparated(Apply(s, step))
  {
    var s' := Apply(s, step);
    forall i: nat, j: nat, k | NewAt(s'.log, i, k) && NewAt(s'.log, j, k) && i < j
      ensures Released(s'.log, i, j, k, s'.log[j].at)
    {
      LogGrows(s, step);
      assert NewAt(s.log, i, k);
      SeparatedPair(s, step, i, j, k);
    }
  }

  lemma GrantsTrackedStep(s: State, step: Step)
    requires GrantInv(s) && Enabled(s, step)
    ensures GrantsTracked(Apply(s, step))
  {
    var s' := Apply(s, step);
    LogGrows(s, step);
    forall i: nat, k | NewAt(s'.log, i, k) ensures GrantTracked(s', i, k) {
      if i < |s.log| {
        assert s'.log[i] == s.log[i] && NewAt(s.log, i, k);
        TrackedStep(s, step, i, k);
      } else {
        NewGrantTracked(s, step, k);
      }
    }
  }

  lemma NewGrantTracked(s: State, step: Step, k: Key)
    requires Enabled(s, step) && NewAt(Apply(s, step).log, |s.log|, k)
    ensures GrantTracked(Apply(s, step), |s.log|, k)
  {
  }

  lemma GrantInvStep(s: State, step: Step)
    requires GrantInv(s) && Enabled(s, step)
    ensures GrantInv(Apply(s, step))
  {
    InvStep(s, step);
    EntriesAreGrantsStep(s, step);
    SeparatedStep(s, step);
    GrantsTrackedStep(s, step);
  }

  lemma {:induction false} GrantInvRun(s: State, steps: seq<Step>)
    requires ValidRun(s, steps) && GrantInv(s)
    ensures GrantInv(Run(s, steps))
    decreases |steps|
  {
    if steps != [] {
      GrantInvStep(s, steps[0]);
      GrantInvRun(Apply(s, steps[0]), steps[1..]);
    }
  }

  /**
   * Two StatusNew answers for one key never overlap: by the time of the second, the token of the first has
   * cancelled a reservation, or finished one with a retention that has ended, or did neither before its lease
   * ran out. This holds even of answers to one Begin command that was executed twice.
   */
  lemma GrantsAreSeparated(steps: seq<Step>, i: nat, j: nat, k: Key)
    requires ValidRun(Init, steps) && i < j
    requires NewAt(Run(Init, steps).log, i, k) && NewAt(Run(Init, steps).log, j, k)
    ensures var log := Run(Init, steps).log; Released(log, i, j, k, log[j].at)
  {
    GrantInvRun(Init, steps);
  }

  lemma RunningGrant(log: seq<Event>, i: nat, k: Key, e: Entry, now: Time)
    requires GrantOf(log, i, k, e) && now < e.expireAt
    ensures !Released(log, i, |log|, k, now)
  {
  }

  lemma RunningCompletion(log: seq<Event>, i: nat, m: int, k: Key, e: Entry, now: Time)
    requires DoneBy(log, i, m, k, e) && now < e.expireAt
    ensures !Released(log, i, |log|, k, now)
  {
  }

  /** A live record has an unreleased grant behind it. */
  lemma LiveHasUnreleased(s: State, k: Key) returns (i: nat)
    requires EntriesAreGrants(s) && Live(Get(s, k), s.now).Some?
    ensures NewAt(s.log, i, k) && !Released(s.log, i, |s.log|, k, s.now)
  {
    var e := s.store[k];
    assert HasGrant(s.log, k, e);
    if e.InProgress? {
      i :| GrantOf(s.log, i, k, e);
      RunningGrant(s.log, i, k, e, s.now);
    } else {
      var m: int;
      i, m :| DoneBy(s.log, i, m, k, e);
      RunningCompletion(s.log, i, m, k, e, s.now);
    }
  }

  predicate Gone(s: State, k: Key) {
    Live(Get(s, k), s.now) == None
  }

  /** The Begin is answered with StatusNew and a lease. */
  predicate AnswersNew(s: State, begin: Step)
    requires begin.DoBegin?
  {
    var until := s.now + begin.lease;
    Apply(s, begin).log == s.log + [New(begin.key, begin.fp, begin.token, until, s.now)]
  }

  lemma NewIffGone(s: State, begin: Step)
    requires begin.DoBegin? && Enabled(s, begin)
    ensures AnswersNew(s, begin) <==> Gone(s, begin.key)
  {
    var log := Apply(s, begin).log;
    BeginReplies(s, begin);
    assert log == s.log + [log[|s.log|]];
  }

  ghost predicate AllReleased(s: State, k: Key) {
    forall i: nat :: NewAt(s.log, i, k) ==> Released(s.log, i, |s.log|, k, s.now)
  }

  lemma GoneIffAllReleased(s: State, k: Key)
    requires GrantInv(s)
    ensures Gone(s, k) <==> AllReleased(s, k)
  {
    if Gone(s, k) {
      forall i: nat | NewAt(s.log, i, k) ensures Released(s.log, i, |s.log|, k, s.now) {
        GoneMeansReleased(s, i, k);
      }
    } else {
      var i := LiveHasUnreleased(s, k);
    }
  }

  /**
   * In every run, Begin answers StatusNew if and only if every earlier grant for its key has been released:
   * cancelled, finished with a retention that is over, or left alone until its lease was over.
   */
  lemma NewIffAllReleased(steps: seq<Step>, begin: Step)
    requires ValidRun(Init, steps) && begin.DoBegin? && Enabled(Run(Init, steps), begin)
    ensures AnswersNew(Run(Init, steps), begin) <==> AllReleased(Run(Init, steps), begin.key)
  {
    var s := Run(Init, steps);
    GrantInvRun(Init, steps);
    NewIffGone(s, begin);
    GoneIffAllReleased(s, begin.key);
  }
}
