/** Every answer of the store, told from the history alone: which grant is running, which response is kept. */
module IdempotencyReplies {
  import opened Wrappers
  import opened IdempotencyRecord
  import opened RedisKeys
  import opened IdempotencyProtocol
  import opened IdempotencyGrants

  /** Nobody has finished or cancelled grant `i`, and its lease runs. */
  ghost predicate Running(log: seq<Event>, i: nat, k: Key, now: Time) {
    NewAt(log, i, k) && now < log[i].until && Unsettled(log, i, |log|, k)
  }

  /** Grant `i` was finished at `m`, and the response is still retained. */
  ghost predicate Retained(log: seq<Event>, i: nat, m: int, k: Key, now: Time) {
    NewAt(log, i, k) && SettlesGrant(log, i, m, k) && log[m].Finished? && now < log[m].until
  }

  // ----- A retained response is the record -----

  ghost predicate CompletionOf(s: State, m: nat, fp: string)
    requires m < |s.log| && s.log[m].Finished?
  {
    var e := s.log[m];
    Granted(s.log, e.key, fp, e.token) && e.key in s.store && s.store[e.key] == Completed(fp, e.resp, e.until)
  }

  ghost predicate ResponseKept(s: State, m: nat)
    requires m < |s.log| && s.log[m].Finished?
  {
    s.now < s.log[m].until ==> exists fp :: CompletionOf(s, m, fp)
  }

  ghost predicate ResponsesKept(s: State) {
    forall m: nat :: m < |s.log| && s.log[m].Finished? ==> ResponseKept(s, m)
  }

  lemma OldResponseKept(s: State, step: Step, m: nat)
    requires Enabled(s, step) && m < |s.log| && s.log[m].Finished? && ResponseKept(s, m)
    ensures var s' := Apply(s, step); |s.log| <= |s'.log| && s'.log[m] == s.log[m] && ResponseKept(s', m)
  {
    var s' := Apply(s, step);
    LogGrows(s, step);
    if s'.now < s.log[m].until {
      var fp :| CompletionOf(s, m, fp);
      GrantedKept(s.log, s'.log, s.log[m].key, fp, s.log[m].token);
      assert s'.store[s.log[m].key] == s.store[s.log[m].key];
      assert CompletionOf(s', m, fp);
    }
  }

  lemma NewResponseKept(s: State, step: Step)
    requires Applied(s, step) && step.cmd.FinishCmd?
    ensures var s' := Apply(s, step); |s'.log| == |s.log| + 1 && s'.log[|s.log|].Finished? && ResponseKept(s', |s.log|)
  {
    var s', k := Apply(s, step), step.cmd.key;
    LandApplied(s, step);
    assert EntryEarned(s, k, s.store[k]);
    GrantedKept(s.log, s'.log, k, s.store[k].fp, step.cmd.token);
    assert CompletionOf(s', |s.log|, s.store[k].fp);
  }

  lemma OnlyFinishFinishes(s: State, step: Step, m: nat)
    requires Inv(s) && Enabled(s, step)
    requires |s.log| <= m < |Apply(s, step).log| && Apply(s, step).log[m].Finished?
    ensures m == |s.log| && Applied(s, step) && step.cmd.FinishCmd?
  {
    LogGrows(s, step);
    if step.DoBegin? {
      BeginReplies(s, step);
    }
  }

  lemma ResponsesKeptStep(s: State, step: Step)
    requires GrantInv(s) && ResponsesKept(s) && Enabled(s, step)
    ensures ResponsesKept(Apply(s, step))
  {
    var s' := Apply(s, step);
    LogGrows(s, step);
    forall m: nat | m < |s'.log| && s'.log[m].Finished? ensures ResponseKept(s', m) {
      if m < |s.log| {
        assert s'.log[m] == s.log[m];
        OldResponseKept(s, step, m);
      } else {
        OnlyFinishFinishes(s, step, m);
        NewResponseKept(s, step);
      }
    }
  }

  lemma {:induction false} ResponsesKeptRun(s: State, steps: seq<Step>)
    requires ValidRun(s, steps) && GrantInv(s) && ResponsesKept(s)
    ensures GrantInv(Run(s, steps)) && ResponsesKept(Run(s, steps))
    decreases |steps|
  {
    if steps != [] {
      GrantInvStep(s, steps[0]);
      ResponsesKeptStep(s, steps[0]);
      ResponsesKeptRun(Apply(s, steps[0]), steps[1..]);
    }
  }

  lemma ReachableKept(steps: seq<Step>)
    requires ValidRun(Init, steps)
    ensures GrantInv(Run(Init, steps)) && ResponsesKept(Run(Init, steps))
  {
    ResponsesKeptRun(Init, steps);
  }

  // ----- The record, from the history -----

  lemma RunningIsRecord(s: State, i: nat, k: Key)
    requires GrantInv(s) && Running(s.log, i, k, s.now)
    ensures k in s.store && s.store[k] == InProgress(s.log[i].fp, s.log[i].token, s.log[i].until)
  {
    assert GrantTracked(s, i, k);
  }

  lemma RetainedIsRecord(s: State, i: nat, m: int, k: Key)
    requires GrantInv(s) && ResponsesKept(s) && Retained(s.log, i, m, k, s.now)
    ensures k in s.store && s.store[k] == Completed(s.log[i].fp, s.log[m].resp, s.log[m].until)
  {
    assert ResponseKept(s, m);
    var fp :| CompletionOf(s, m, fp);
    assert s.log[i] in s.log;
    SameTokenSameKey(s, k, k, fp, s.log[i].fp, s.log[i].token);
  }

  lemma RecordIsRunning(s: State, k: Key) returns (i: nat)
    requires EntriesAreGrants(s) && k in s.store && s.store[k].InProgress? && s.now < s.store[k].expireAt
    ensures Running(s.log, i, k, s.now)
    ensures s.store[k] == InProgress(s.log[i].fp, s.log[i].token, s.log[i].until)
  {
    assert HasGrant(s.log, k, s.store[k]);
    i :| GrantOf(s.log, i, k, s.store[k]);
  }

  lemma RecordIsRetained(s: State, k: Key) returns (i: nat, m: int)
    requires EntriesAreGrants(s) && k in s.store && s.store[k].Completed? && s.now < s.store[k].expireAt
    ensures Retained(s.log, i, m, k, s.now)
    ensures s.store[k] == Completed(s.log[i].fp, s.log[m].resp, s.log[m].until)
  {
    assert HasGrant(s.log, k, s.store[k]);
    i, m :| DoneBy(s.log, i, m, k, s.store[k]);
  }

  // ----- The answers -----

  /** A running grant for the same fingerprint. */
  ghost predicate InFlight(log: seq<Event>, k: Key, fp: string, now: Time) {
    exists i: nat :: Running(log, i, k, now) && log[i].fp == fp
  }

  /** A retained response for the same fingerprint. */
  ghost predicate Answers(log: seq<Event>, k: Key, fp: string, resp: string, now: Time) {
    exists i: nat, m :: Retained(log, i, m, k, now) && log[i].fp == fp && log[m].resp == resp
  }

  /** A running grant or a retained response for another fingerprint. */
  ghost predicate Taken(log: seq<Event>, k: Key, fp: string, now: Time) {
    || (exists i: nat :: Running(log, i, k, now) && log[i].fp != fp)
    || (exists i: nat, m :: Retained(log, i, m, k, now) && log[i].fp != fp)
  }

  /** No running grant and no retained response. */
  ghost predicate Free(log: seq<Event>, k: Key, now: Time) {
    && (forall i: nat :: !Running(log, i, k, now))
    && (forall i: nat, m :: !Retained(log, i, m, k, now))
  }

  lemma FreeIsRecord(s: State, k: Key)
    requires GrantInv(s) && ResponsesKept(s)
    ensures Free(s.log, k, s.now) <==> k !in s.store || s.store[k].expireAt <= s.now
  {
    if i: nat :| Running(s.log, i, k, s.now) {
      RunningIsRecord(s, i, k);
    }
    if i: nat, m :| Retained(s.log, i, m, k, s.now) {
      RetainedIsRecord(s, i, m, k);
    }
    if k in s.store && s.now < s.store[k].expireAt {
      if s.store[k].InProgress? {
        var i := RecordIsRunning(s, k);
      } else {
        var i, m := RecordIsRetained(s, k);
      }
    }
  }

  lemma InFlightIsRecord(s: State, k: Key, fp: string)
    requires GrantInv(s)
    ensures InFlight(s.log, k, fp, s.now) <==>
            k in s.store && s.now < s.store[k].expireAt && s.store[k].InProgress? && s.store[k].fp == fp
  {
    if i: nat :| Running(s.log, i, k, s.now) && s.log[i].fp == fp {
      RunningIsRecord(s, i, k);
    }
    if k in s.store && s.now < s.store[k].expireAt && s.store[k].InProgress? && s.store[k].fp == fp {
      var i := RecordIsRunning(s, k);
    }
  }

  lemma AnswersIsRecord(s: State, k: Key, fp: string, resp: string)
    requires GrantInv(s) && ResponsesKept(s)
    ensures Answers(s.log, k, fp, resp, s.now) <==>
            k in s.store && s.now < s.store[k].expireAt && s.store[k].Completed? && s.store[k].fp == fp
            && s.store[k].resp == resp
  {
    if i: nat, m :| Retained(s.log, i, m, k, s.now) && s.log[i].fp == fp && s.log[m].resp == resp {
      RetainedIsRecord(s, i, m, k);
    }
    if k in s.store && s.now < s.store[k].expireAt && s.store[k].Completed? && s.store[k].fp == fp
       && s.store[k].resp == resp {
      var i, m := RecordIsRetained(s, k);
    }
  }

  lemma TakenHasRecord(s: State, k: Key, fp: string)
    requires GrantInv(s) && ResponsesKept(s) && Taken(s.log, k, fp, s.now)
    ensures k in s.store && s.now < s.store[k].expireAt && s.store[k].fp != fp
  {
    if i: nat :| Running(s.log, i, k, s.now) && s.log[i].fp != fp {
      RunningIsRecord(s, i, k);
    } else {
      var i: nat, m :| Retained(s.log, i, m, k, s.now) && s.log[i].fp != fp;
      RetainedIsRecord(s, i, m, k);
    }
  }

  lemma RecordIsTaken(s: State, k: Key, fp: string)
    requires EntriesAreGrants(s) && k in s.store && s.now < s.store[k].expireAt && s.store[k].fp != fp
    ensures Taken(s.log, k, fp, s.now)
  {
    if s.store[k].InProgress? {
      var i := RecordIsRunning(s, k);
    } else {
      var i, m := RecordIsRetained(s, k);
    }
  }

  lemma TakenIsRecord(s: State, k: Key, fp: string)
    requires GrantInv(s) && ResponsesKept(s)
    ensures Taken(s.log, k, fp, s.now) <==> k in s.store && s.now < s.store[k].expireAt && s.store[k].fp != fp
  {
    if Taken(s.log, k, fp, s.now) {
      TakenHasRecord(s, k, fp);
    }
    if k in s.store && s.now < s.store[k].expireAt && s.store[k].fp != fp {
      RecordIsTaken(s, k, fp);
    }
  }

  /**
   * In every run, what Begin answers and when. In progress: a grant for the same fingerprint is running. A
   * replay of `resp`: a Finish of such a grant stored it and its retention has not ended. Mismatch: either of
   * the two, for another fingerprint. Otherwise, and only then, the call is granted its lease.
   */
  lemma BeginIsAnswered(steps: seq<Step>, s: State, k: Key, fp: string, token: Token, lease: nat)
    requires ValidRun(Init, steps) && s == Run(Init, steps)
    ensures var log, now, log' := s.log, s.now, Apply(s, DoBegin(k, fp, token, lease)).log;
            && (log' == log + [Busy(k, now)] <==> InFlight(log, k, fp, now))
            && (forall resp :: log' == log + [Replayed(k, fp, resp, now)] <==> Answers(log, k, fp, resp, now))
            && (log' == log + [Refused(k, fp, now)] <==> Taken(log, k, fp, now))
            && (log' == log + [New(k, fp, token, now + lease, now)] <==> Free(log, k, now))
  {
    ReachableKept(steps);
    AnswersByRecord(s, k, fp);
    BeginOnRecord(s, k, fp, token, lease);
  }

  lemma AnswersByRecord(s: State, k: Key, fp: string)
    requires GrantInv(s) && ResponsesKept(s)
    ensures Free(s.log, k, s.now) <==> k !in s.store || s.store[k].expireAt <= s.now
    ensures InFlight(s.log, k, fp, s.now) <==>
            k in s.store && s.now < s.store[k].expireAt && s.store[k].fp == fp && s.store[k].InProgress?
    ensures Taken(s.log, k, fp, s.now) <==> k in s.store && s.now < s.store[k].expireAt && s.store[k].fp != fp
    ensures forall resp :: Answers(s.log, k, fp, resp, s.now) <==>
              k in s.store && s.now < s.store[k].expireAt && s.store[k].Completed? && s.store[k].fp == fp
              && s.store[k].resp == resp
  {
    FreeIsRecord(s, k);
    InFlightIsRecord(s, k, fp);
    TakenIsRecord(s, k, fp);
    forall resp
      ensures Answers(s.log, k, fp, resp, s.now) <==>
              k in s.store && s.now < s.store[k].expireAt && s.store[k].Completed? && s.store[k].fp == fp
              && s.store[k].resp == resp
    {
      AnswersIsRecord(s, k, fp, resp);
    }
  }

  lemma LastEvent(log: seq<Event>, e: Event, f: Event)
    ensures log + [e] == log + [f] <==> e == f
  {
    assert (log + [e])[|log|] == e && (log + [f])[|log|] == f;
  }

  lemma BeginOnRecord(s: State, k: Key, fp: string, token: Token, lease: nat)
    ensures var log' := Apply(s, DoBegin(k, fp, token, lease)).log;
            var live := k in s.store && s.now < s.store[k].expireAt;
            && (log' == s.log + [Busy(k, s.now)] <==> live && s.store[k].fp == fp && s.store[k].InProgress?)
            && (forall resp :: log' == s.log + [Replayed(k, fp, resp, s.now)] <==>
                  live && s.store[k].fp == fp && s.store[k].Completed? && s.store[k].resp == resp)
            && (log' == s.log + [Refused(k, fp, s.now)] <==> live && s.store[k].fp != fp)
            && (log' == s.log + [New(k, fp, token, s.now + lease, s.now)] <==> !live)
  {
    var e := if k !in s.store || s.store[k].expireAt <= s.now then New(k, fp, token, s.now + lease, s.now)
             else if s.store[k].fp != fp then Refused(k, fp, s.now)
             else if s.store[k].InProgress? then Busy(k, s.now) else Replayed(k, fp, s.store[k].resp, s.now);
    assert Apply(s, DoBegin(k, fp, token, lease)).log == s.log + [e];
    forall f ensures s.log + [e] == s.log + [f] <==> e == f {
      LastEvent(s.log, e, f);
    }
  }

  /** A running grant for the key with this very token. */
  ghost predicate Holds(log: seq<Event>, k: Key, token: Token, now: Time) {
    exists i: nat :: Running(log, i, k, now) && log[i].token == token
  }

  lemma HoldsIsRecord(s: State, k: Key, token: Token)
    requires GrantInv(s)
    ensures Holds(s.log, k, token, s.now) <==>
            k in s.store && s.now < s.store[k].expireAt && s.store[k].InProgress? && s.store[k].token == token
  {
    if i: nat :| Running(s.log, i, k, s.now) && s.log[i].token == token {
      RunningIsRecord(s, i, k);
    }
    if k in s.store && s.now < s.store[k].expireAt && s.store[k].InProgress? && s.store[k].token == token {
      var i := RecordIsRunning(s, k);
    }
  }

  /**
   * In every run, a Finish or a Cancel takes effect if and only if the grant of its token for its key is
   * running; otherwise it changes nothing. A Finish that takes effect retains its response from then on.
   */
  lemma SettlesIffHeld(steps: seq<Step>, s: State, k: Key, token: Token, resp: string, retention: nat)
    requires ValidRun(Init, steps) && s == Run(Init, steps)
    ensures var held := Holds(s.log, k, token, s.now);
            var finished := Apply(s, Land(FinishCmd(k, token, resp, retention)));
            var cancelled := Apply(s, Land(CancelCmd(k, token)));
            && finished.log == (if held then s.log + [Finished(k, token, resp, s.now + retention, s.now)] else s.log)
            && cancelled.log == (if held then s.log + [Cancelled(k, token, s.now)] else s.log)
            && (!held ==> finished == s && cancelled == s)
  {
    ReachableKept(steps);
    HoldsIsRecord(s, k, token);
    LandOnRecord(s, k, token, resp, retention);
  }

  lemma LandOnRecord(s: State, k: Key, token: Token, resp: string, retention: nat)
    ensures var held := k in s.store && s.now < s.store[k].expireAt
                        && s.store[k].InProgress? && s.store[k].token == token;
            var finished := Apply(s, Land(FinishCmd(k, token, resp, retention)));
            var cancelled := Apply(s, Land(CancelCmd(k, token)));
            && finished.log == (if held then s.log + [Finished(k, token, resp, s.now + retention, s.now)] else s.log)
            && cancelled.log == (if held then s.log + [Cancelled(k, token, s.now)] else s.log)
            && (!held ==> finished == s && cancelled == s)
  {
  }
}
