/** What the idempotency contract promises, over every run of the protocol. */
module IdempotencySafety {
  import opened IdempotencyRecord
  import opened RedisKeys
  import opened IdempotencyProtocol

  // ----- Replays -----

  lemma {:induction false} JustifiedAt(log: seq<Event>, i: nat)
    requires Justified(log) && i < |log|
    ensures log[i].Replayed? ==> Earned(log[..i], log[i].key, log[i].fp, log[i].resp)
  {
    if i < |log| - 1 {
      JustifiedAt(log[..|log| - 1], i);
      assert log[..|log| - 1][..i] == log[..i];
    }
  }

  lemma {:induction false} GrantedBefore(log: seq<Event>, j: nat)
    requires Justified(log) && j < |log| && (log[j].Finished? || log[j].Cancelled?)
    ensures exists fp :: Granted(log[..j], log[j].key, fp, log[j].token)
  {
    if j < |log| - 1 {
      GrantedBefore(log[..|log| - 1], j);
      assert log[..|log| - 1][..j] == log[..j];
    }
  }

  /** Where the token was granted. */
  lemma GrantIndex(log: seq<Event>, n: nat, k: Key, fp: string, token: Token) returns (g: nat)
    requires n <= |log| && Granted(log[..n], k, fp, token)
    ensures g < n && log[g].New? && log[g].key == k && log[g].fp == fp && log[g].token == token
  {
    var e :| e in log[..n] && e.New? && e.key == k && e.fp == fp && e.token == token;
    g :| 0 <= g < n && log[..n][g] == e;
  }

  /** Where the response was stored, and the token of that Finish granted before. */
  lemma EarnedIndex(log: seq<Event>, i: nat, k: Key, fp: string, resp: string) returns (g: nat, j: nat)
    requires i <= |log| && Earned(log[..i], k, fp, resp)
    ensures g < j < i && StoredBy(log[j], k, resp)
    ensures log[g].New? && log[g].key == k && log[g].fp == fp && log[g].token == log[j].token
  {
    j :| 0 <= j < i && StoredBy(log[..i][j], k, resp) && Granted(log[..i][..j], k, fp, log[..i][j].token);
    assert log[..i][..j] == log[..j];
    g := GrantIndex(log, j, k, fp, log[j].token);
  }

  /**
   * A replayed response was stored earlier by a Finish, and before that Finish a StatusNew had granted its
   * token for the same scope, key and fingerprint.
   */
  lemma ReplayWasFinished(steps: seq<Step>, i: nat)
    requires ValidRun(Init, steps) && i < |Run(Init, steps).log| && Run(Init, steps).log[i].Replayed?
    ensures var log := Run(Init, steps).log;
            exists g, j :: 0 <= g < j < i && StoredBy(log[j], log[i].key, log[i].resp)
                           && log[g].New? && log[g].key == log[i].key && log[g].fp == log[i].fp
                           && log[g].token == log[j].token
  {
    var log := Run(Init, steps).log;
    Always(steps);
    JustifiedAt(log, i);
    var g, j := EarnedIndex(log, i, log[i].key, log[i].fp, log[i].resp);
  }

  /** No guessed token ever gets through: an applied Finish or Cancel carries a token granted before for its key. */
  lemma AppliedWasGranted(steps: seq<Step>, j: nat)
    requires ValidRun(Init, steps) && j < |Run(Init, steps).log|
    requires Run(Init, steps).log[j].Finished? || Run(Init, steps).log[j].Cancelled?
    ensures var log := Run(Init, steps).log;
            exists g :: 0 <= g < j && log[g].New? && log[g].key == log[j].key && log[g].token == log[j].token
  {
    var log := Run(Init, steps).log;
    Always(steps);
    GrantedBefore(log, j);
    var fp :| Granted(log[..j], log[j].key, fp, log[j].token);
    var g := GrantIndex(log, j, log[j].key, fp, log[j].token);
  }

  // ----- Tokens -----

  /** A Finish or Cancel with this token would be applied now. */
  predicate CanSucceed(s: State, k: Key, token: Token) {
    Opens(Get(s, k), token, s.now)
  }

  /** At any moment one token at most opens a record, and one record at most is opened by a token. */
  lemma OneOpenToken(steps: seq<Step>, k: Key, l: Key, a: Token, b: Token)
    requires ValidRun(Init, steps)
    requires CanSucceed(Run(Init, steps), k, a) && CanSucceed(Run(Init, steps), l, b)
    ensures k == l <==> a == b
  {
    var s := Run(Init, steps);
    Always(steps);
    if a == b {
      SameLeaseSameKey(s, k, l);
    }
  }

  /** How many times the Begin command of this token is executed. */
  function Executions(steps: seq<Step>, token: Token): nat {
    if steps == [] then 0
    else (if steps[0].DoBegin? && steps[0].token == token then 1 else 0) + Executions(steps[1..], token)
  }

  lemma {:induction false} GrantsAreExecutions(s: State, steps: seq<Step>, token: Token)
    requires ValidRun(s, steps)
    ensures Grants(Run(s, steps).log, token) <= Grants(s.log, token) + Executions(steps, token)
    decreases |steps|
  {
    if steps != [] {
      var s1 := Apply(s, steps[0]);
      LogGrows(s, steps[0]);
      if e :| s1.log == s.log + [e] {
        GrantsAppend(s.log, e);
      }
      GrantsAreExecutions(s1, steps[1..], token);
    }
  }

  /**
   * Over a whole run, however often its commands are executed, a token is good for one Finish or Cancel per
   * grant; so for one at most, unless its own Begin command is executed again.
   */
  lemma TokenSucceedsOnce(steps: seq<Step>, token: Token)
    requires ValidRun(Init, steps)
    ensures Successes(Run(Init, steps).log, token) <= Grants(Run(Init, steps).log, token) <= Executions(steps, token)
  {
    Always(steps);
    GrantsAreExecutions(Init, steps, token);
  }

  /** The event gives `token` out for `k` again. */
  predicate Regrants(e: Event, k: Key, token: Token) {
    IsGrant(e, token) && e.key == k
  }

  lemma SpentStep(s: State, step: Step, k: Key, token: Token)
    requires Enabled(s, step) && !CanSucceed(s, k, token)
    ensures var s' := Apply(s, step);
            CanSucceed(s', k, token) ==> |s'.log| == |s.log| + 1 && Regrants(s'.log[|s.log|], k, token)
  {
  }

  /**
   * A token that does not open the record (spent, expired, reclaimed or forged) will not open it again before
   * another StatusNew has given it out for this key.
   */
  lemma {:induction false} SpentUntilRegranted(s: State, steps: seq<Step>, k: Key, token: Token)
    requires ValidRun(s, steps) && !CanSucceed(s, k, token) && CanSucceed(Run(s, steps), k, token)
    ensures var log := Run(s, steps).log;
            |s.log| <= |log| && log[..|s.log|] == s.log
            && exists i :: |s.log| <= i < |log| && Regrants(log[i], k, token)
    decreases |steps|
  {
    if steps != [] {
      var s1, log := Apply(s, steps[0]), Run(s, steps).log;
      LogGrows(s, steps[0]);
      RunLogGrows(s1, steps[1..]);
      assert log[..|s.log|] == log[..|s1.log|][..|s.log|];
      SpentStep(s, steps[0], k, token);
      if CanSucceed(s1, k, token) {
        assert log[|s.log|] == log[..|s1.log|][|s.log|];
      } else {
        SpentUntilRegranted(s1, steps[1..], k, token);
      }
    }
  }

  lemma {:induction false} RunLogGrows(s: State, steps: seq<Step>)
    requires ValidRun(s, steps)
    ensures |s.log| <= |Run(s, steps).log| && Run(s, steps).log[..|s.log|] == s.log
    decreases |steps|
  {
    if steps != [] {
      var s1 := Apply(s, steps[0]);
      LogGrows(s, steps[0]);
      RunLogGrows(s1, steps[1..]);
      assert Run(s, steps).log[..|s.log|] == Run(s, steps).log[..|s1.log|][..|s.log|];
    }
  }

  lemma Prepend(s: State, step: Step, rest: seq<Step>)
    requires Enabled(s, step) && ValidRun(Apply(s, step), rest)
    ensures ValidRun(s, [step] + rest) && Run(s, [step] + rest) == Run(Apply(s, step), rest)
  {
    assert ([step] + rest)[1..] == rest;
  }

  lemma ThreeSteps(s: State, a: Step, b: Step, c: Step)
    requires Enabled(s, a) && Enabled(Apply(s, a), b) && Enabled(Apply(Apply(s, a), b), c)
    ensures ValidRun(s, [a, b, c]) && Run(s, [a, b, c]) == Apply(Apply(Apply(s, a), b), c)
  {
    var s2 := Apply(Apply(s, a), b);
    Prepend(s2, c, []);
    Prepend(Apply(s, a), b, [c]);
    Prepend(s, a, [b, c]);
    assert [c] + [] == [c] && [b] + [c] == [b, c] && [a] + [b, c] == [a, b, c];
  }

  /** A Begin on a free key and a Cancel with its token: granted, applied, and the key is free again. */
  lemma BeginThenCancel(s: State, begin: Step, cancel: Command)
    requires begin.DoBegin? && cancel == CancelCmd(begin.key, begin.token)
    requires Enabled(s, begin) && begin.key !in s.store
    ensures var s1 := Apply(s, begin);
            var s2 := Apply(s1, Send(cancel));
            var s3 := Apply(s2, Land(cancel));
            && Enabled(s2, Land(cancel)) && Enabled(s3, begin) && begin.key !in s3.store
            && s3.log == s.log + [New(begin.key, begin.fp, begin.token, s.now + begin.lease, s.now)]
                         + [Cancelled(begin.key, begin.token, s.now)]
  {
  }

  lemma OneExecution(begin: Step, cancel: Command)
    requires begin.DoBegin?
    ensures Executions([begin, Send(cancel), Land(cancel)], begin.token) == 1
  {
    var steps, t := [begin, Send(cancel), Land(cancel)], begin.token;
    assert steps[1..] == [Send(cancel), Land(cancel)] && steps[1..][1..] == [Land(cancel)] && steps[1..][1..][1..] == [];
    assert Executions([Land(cancel)], t) == 0;
    assert Executions([Send(cancel), Land(cancel)], t) == 0;
  }

  lemma AgainAfterCancel(s: State, begin: Step, cancel: Command)
    requires begin.DoBegin? && cancel == CancelCmd(begin.key, begin.token)
    requires Enabled(s, begin) && begin.key !in s.store
    ensures var steps := [begin, Send(cancel), Land(cancel)];
            && ValidRun(s, steps) && begin.key !in Run(s, steps).store && Enabled(Run(s, steps), begin)
            && Successes(Run(s, steps).log, begin.token) == Successes(s.log, begin.token) + 1
  {
    var granted := New(begin.key, begin.fp, begin.token, s.now + begin.lease, s.now);
    BeginThenCancel(s, begin, cancel);
    ThreeSteps(s, begin, Send(cancel), Land(cancel));
    SuccessesAppend(s.log, granted);
    SuccessesAppend(s.log + [granted], Cancelled(begin.key, begin.token, s.now));
  }

  lemma {:induction false} RunConcat(s: State, a: seq<Step>, b: seq<Step>, t: Token)
    requires ValidRun(s, a) && ValidRun(Run(s, a), b)
    ensures ValidRun(s, a + b) && Run(s, a + b) == Run(Run(s, a), b)
    ensures Executions(a + b, t) == Executions(a, t) + Executions(b, t)
    decreases |a|
  {
    if a == [] {
      assert a + b == b;
    } else {
      assert (a + b)[1..] == a[1..] + b;
      RunConcat(Apply(s, a[0]), a[1..], b, t);
    }
  }

  /** The bound is reached: a Begin executed again after a Cancel makes its token good twice. */
  lemma RepeatedBeginSucceedsTwice(k: Key) returns (steps: seq<Step>, token: Token)
    ensures ValidRun(Init, steps) && Executions(steps, token) == 2
    ensures Successes(Run(Init, steps).log, token) == 2
  {
    token := "t";
    var begin, cancel := DoBegin(k, "f", token, 1), CancelCmd(k, token);
    var once := [begin, Send(cancel), Land(cancel)];
    OneExecution(begin, cancel);
    AgainAfterCancel(Init, begin, cancel);
    AgainAfterCancel(Run(Init, once), begin, cancel);
    RunConcat(Init, once, once, token);
    steps := once + once;
  }

  // ----- A completed record until its retention instant -----

  /** Replies that leave the record as it is: a replay for its fingerprint, a mismatch for any other. */
  predicate ReadsOnly(e: Event, k: Key, fp: string, resp: string) {
    e.key == k ==> match e
                   case Replayed(_, f, r, _) => f == fp && r == resp
                   case Refused(_, f, _) => f != fp
                   case _ => false
  }

  lemma CompletedStep(s: State, step: Step, k: Key)
    requires Enabled(s, step) && k in s.store && s.store[k].Completed? && s.now < s.store[k].expireAt
    ensures var s' := Apply(s, step);
            && k in s'.store && s'.store[k] == s.store[k]
            && s.now <= s'.now && |s.log| <= |s'.log| && s'.log[..|s.log|] == s.log
            && (forall i :: |s.log| <= i < |s'.log| ==> ReadsOnly(s'.log[i], k, s.store[k].fp, s.store[k].resp))
            && (step.DoBegin? && step.key == k ==> |s'.log| == |s.log| + 1)
            && (step.Land? && step.cmd.key == k ==> s' == s)
  {
  }

  lemma {:induction false} TimeGoesOn(s: State, steps: seq<Step>)
    requires ValidRun(s, steps)
    ensures s.now <= Run(s, steps).now
    decreases |steps|
  {
    if steps != [] {
      TimeGoesOn(Apply(s, steps[0]), steps[1..]);
    }
  }

  /**
   * From completion until the retention instant nothing moves the record or its expiry: every Begin in
   * between replays the response or reports a mismatch, every Finish and Cancel is a conflict.
   */
  lemma {:induction false} CompletedIsFrozen(s: State, steps: seq<Step>, k: Key)
    requires ValidRun(s, steps) && k in s.store && s.store[k].Completed?
    requires Run(s, steps).now < s.store[k].expireAt
    ensures var s' := Run(s, steps);
            && k in s'.store && s'.store[k] == s.store[k]
            && |s.log| <= |s'.log| && s'.log[..|s.log|] == s.log
            && forall i :: |s.log| <= i < |s'.log| ==> ReadsOnly(s'.log[i], k, s.store[k].fp, s.store[k].resp)
    decreases |steps|
  {
    if steps != [] {
      var s1 := Apply(s, steps[0]);
      TimeGoesOn(s, steps);
      CompletedStep(s, steps[0], k);
      CompletedIsFrozen(s1, steps[1..], k);
      var s' := Run(s, steps);
      assert s'.log[..|s.log|] == s'.log[..|s1.log|][..|s.log|];
      forall i | |s.log| <= i < |s'.log| ensures ReadsOnly(s'.log[i], k, s.store[k].fp, s.store[k].resp) {
        assert i < |s1.log| ==> s'.log[i] == s'.log[..|s1.log|][i];
      }
    }
  }

  /** Finish and Cancel, late or repeated, cannot delay it: the first Begin after the retention instant is StatusNew. */
  lemma {:induction false} FirstBeginAfterRetentionIsNew(s: State, steps: seq<Step>, begin: Step, k: Key)
    requires ValidRun(s, steps) && k in s.store && s.store[k].Completed?
    requires forall i :: 0 <= i < |steps| ==> !(steps[i].DoBegin? && steps[i].key == k)
    requires s.store[k].expireAt <= Run(s, steps).now
    requires begin.DoBegin? && begin.key == k && Enabled(Run(s, steps), begin)
    ensures var s' := Run(s, steps);
            Apply(s', begin).log == s'.log + [New(k, begin.fp, begin.token, s'.now + begin.lease, s'.now)]
    decreases |steps|
  {
    if steps != [] {
      var s1 := Apply(s, steps[0]);
      assert k in s1.store && s1.store[k] == s.store[k];
      FirstBeginAfterRetentionIsNew(s1, steps[1..], begin, k);
    }
  }
}
