/**
 * Any number of clients using one idempotency store. Each script is atomic. Every command, Begin included,
 * may be executed at any later time, any number of times or never, whatever reply its client saw. Clients may
 * also send Finish and Cancel commands with tokens they made up.
 */
module IdempotencyProtocol {
  import opened Wrappers
  import opened IdempotencyRecord
  import opened RedisKeys

  datatype Command =
    | FinishCmd(key: Key, token: Token, resp: string, retention: nat)
    | CancelCmd(key: Key, token: Token)

  /** History: the replies of Begin, and the Finish and Cancel commands that were applied. */
  datatype Event =
    | New(key: Key, fp: string, token: Token, until: Time, at: Time)
    | Busy(key: Key, at: Time)
    | Replayed(key: Key, fp: string, resp: string, at: Time)
    | Refused(key: Key, fp: string, at: Time)
    | Finished(key: Key, token: Token, resp: string, until: Time, at: Time)
    | Cancelled(key: Key, token: Token, at: Time)

  /** A Begin command with the token minted for it. */
  datatype Mint = Mint(key: Key, fp: string, token: Token, lease: nat)

  /**
   * `store` keeps an expired entry until something replaces it; `seen` are all tokens minted or sent so far,
   * `minted` the Begin commands executed so far.
   */
  datatype State = State(
    now: Time,
    store: map<Key, Entry>,
    seen: set<Token>,
    minted: set<Mint>,
    sent: set<Command>,
    log: seq<Event>)

  datatype Step =
    | Tick(to: Time)
    | DoBegin(key: Key, fp: string, token: Token, lease: nat)
    | Send(cmd: Command)
    | Land(cmd: Command)

  const Init := State(0, map[], {}, {}, {}, [])

  function Get(s: State, k: Key): Option<Entry> {
    if k in s.store then Some(s.store[k]) else None
  }

  function Put(store: map<Key, Entry>, k: Key, e: Option<Entry>): map<Key, Entry> {
    match e case None => store - {k} case Some(entry) => store[k := entry]
  }

  ghost predicate Enabled(s: State, step: Step) {
    match step
    case Tick(to) => s.now <= to
    // 128 random bits: a new token differs from every token minted before and every token anyone guessed. The
    // client library may have the same command executed again.
    case DoBegin(k, fp, token, lease) => lease >= 1 && (token in s.seen ==> Mint(k, fp, token, lease) in s.minted)
    case Send(_) => true
    case Land(cmd) => cmd in s.sent && (cmd.FinishCmd? ==> cmd.retention >= 1)
  }

  function ReplyEvent(k: Key, fp: string, reply: BeginReply, until: Time, now: Time): Event {
    match reply
    case StatusNew(token) => New(k, fp, token, until, now)
    case StatusInProgress => Busy(k, now)
    case StatusCompleted(resp) => Replayed(k, fp, resp, now)
    case StatusMismatch => Refused(k, fp, now)
  }

  function Apply(s: State, step: Step): State {
    match step
    case Tick(to) => s.(now := to)
    case DoBegin(k, fp, token, lease) =>
      var (e, reply) := Begin(Get(s, k), fp, token, lease, s.now);
      s.(store := Put(s.store, k, e), seen := s.seen + {token}, minted := s.minted + {Mint(k, fp, token, lease)},
         log := s.log + [ReplyEvent(k, fp, reply, s.now + lease, s.now)])
    case Send(cmd) => s.(sent := s.sent + {cmd}, seen := s.seen + {cmd.token})
    case Land(FinishCmd(k, token, resp, retention)) =>
      var (e, applied) := Finish(Get(s, k), token, resp, retention, s.now);
      if applied
      then s.(store := Put(s.store, k, e), log := s.log + [Finished(k, token, resp, s.now + retention, s.now)])
      else s
    case Land(CancelCmd(k, token)) =>
      var (e, applied) := Cancel(Get(s, k), token, s.now);
      if applied then s.(store := Put(s.store, k, e), log := s.log + [Cancelled(k, token, s.now)]) else s
  }

  ghost predicate ValidRun(s: State, steps: seq<Step>)
    decreases |steps|
  {
    steps == [] || (Enabled(s, steps[0]) && ValidRun(Apply(s, steps[0]), steps[1..]))
  }

  function Run(s: State, steps: seq<Step>): State
    decreases |steps|
  {
    if steps == [] then s else Run(Apply(s, steps[0]), steps[1..])
  }

  // ----- The invariant -----

  ghost predicate Granted(log: seq<Event>, k: Key, fp: string, token: Token) {
    exists e :: e in log && e.New? && e.key == k && e.fp == fp && e.token == token
  }

  predicate Settles(e: Event, token: Token) {
    (e.Finished? || e.Cancelled?) && e.token == token
  }

  /** How many Finish and Cancel commands with this token were applied. */
  function Successes(log: seq<Event>, token: Token): nat {
    if log == [] then 0
    else Successes(log[..|log| - 1], token) + if Settles(log[|log| - 1], token) then 1 else 0
  }

  /** How many StatusNew answers gave out this token. */
  function Grants(log: seq<Event>, token: Token): nat {
    if log == [] then 0
    else Grants(log[..|log| - 1], token) + if IsGrant(log[|log| - 1], token) then 1 else 0
  }

  predicate IsGrant(e: Event, token: Token) {
    e.New? && e.token == token
  }

  predicate StoredBy(e: Event, k: Key, resp: string) {
    e.Finished? && e.key == k && e.resp == resp
  }

  /** The response was stored for `k` under a token that had been granted for this key and fingerprint. */
  ghost predicate Earned(log: seq<Event>, k: Key, fp: string, resp: string) {
    exists j :: 0 <= j < |log| && StoredBy(log[j], k, resp) && Granted(log[..j], k, fp, log[j].token)
  }

  ghost predicate Justified(log: seq<Event>) {
    log == [] ||
    (var before, e := log[..|log| - 1], log[|log| - 1];
     && Justified(before)
     && (e.Replayed? ==> Earned(before, e.key, e.fp, e.resp))
     && (e.Finished? || e.Cancelled? ==> exists fp :: Granted(before, e.key, fp, e.token)))
  }

  ghost predicate EntryEarned(s: State, k: Key, e: Entry) {
    match e
    case InProgress(fp, token, _) =>
      token in s.seen && Granted(s.log, k, fp, token) && Successes(s.log, token) < Grants(s.log, token)
    case Completed(fp, resp, _) => Earned(s.log, k, fp, resp)
  }

  ghost predicate EntriesEarned(s: State) {
    forall k :: k in s.store ==> EntryEarned(s, k, s.store[k])
  }

  predicate SameLease(a: Entry, b: Entry) {
    a.InProgress? && b.InProgress? && a.token == b.token
  }

  /** No token succeeds more often than it was granted. */
  ghost predicate TokensPaid(s: State) {
    && (forall e :: e in s.log && (e.New? || e.Finished? || e.Cancelled?) ==> e.token in s.seen)
    && (forall t :: Successes(s.log, t) <= Grants(s.log, t))
    && (forall c :: c in s.sent ==> c.token in s.seen)
  }

  ghost predicate Minted(s: State, k: Key, fp: string, token: Token) {
    exists m :: m in s.minted && m.key == k && m.fp == fp && m.token == token
  }

  /** A token belongs to one Begin command, so to one key and one fingerprint. */
  ghost predicate MintedOnce(s: State) {
    && (forall m :: m in s.minted ==> m.token in s.seen)
    && (forall a, b :: a in s.minted && b in s.minted && a.token == b.token ==> a == b)
    && (forall e :: e in s.log && e.New? ==> Minted(s, e.key, e.fp, e.token))
  }

  ghost predicate Inv(s: State) {
    Justified(s.log) && EntriesEarned(s) && TokensPaid(s) && MintedOnce(s)
  }

  lemma SuccessesAppend(log: seq<Event>, e: Event)
    ensures forall t :: Successes(log + [e], t) == Successes(log, t) + if Settles(e, t) then 1 else 0
  {
    assert (log + [e])[..|log|] == log;
  }

  lemma GrantsAppend(log: seq<Event>, e: Event)
    ensures forall t :: Grants(log + [e], t) == Grants(log, t) + if IsGrant(e, t) then 1 else 0
  {
    assert (log + [e])[..|log|] == log;
  }

  /** Grants of one token are for one key and one fingerprint. */
  lemma SameTokenSameKey(s: State, k: Key, l: Key, fp: string, gp: string, token: Token)
    requires MintedOnce(s) && Granted(s.log, k, fp, token) && Granted(s.log, l, gp, token)
    ensures k == l && fp == gp
  {
    assert Minted(s, k, fp, token) && Minted(s, l, gp, token);
  }

  lemma SameLeaseSameKey(s: State, k: Key, l: Key)
    requires Inv(s) && k in s.store && l in s.store && SameLease(s.store[k], s.store[l])
    ensures k == l
  {
    assert EntryEarned(s, k, s.store[k]) && EntryEarned(s, l, s.store[l]);
    SameTokenSameKey(s, k, l, s.store[k].fp, s.store[l].fp, s.store[k].token);
  }

  lemma GrantedKept(log: seq<Event>, log': seq<Event>, k: Key, fp: string, token: Token)
    requires log <= log' && Granted(log, k, fp, token)
    ensures Granted(log', k, fp, token)
  {
  }

  lemma EarnedKept(log: seq<Event>, log': seq<Event>, k: Key, fp: string, resp: string)
    requires log <= log' && Earned(log, k, fp, resp)
    ensures Earned(log', k, fp, resp)
  {
    var j :| 0 <= j < |log| && StoredBy(log[j], k, resp) && Granted(log[..j], k, fp, log[j].token);
    assert log'[j] == log[j] && log'[..j] == log[..j];
  }

  lemma LogGrows(s: State, step: Step)
    ensures var log := Apply(s, step).log; log == s.log || exists e :: log == s.log + [e]
  {
  }

  /** What an applied Finish or Cancel command tells about the record it opened. */
  ghost predicate Applied(s: State, step: Step) {
    Inv(s) && Enabled(s, step) && step.Land? && Opens(Get(s, step.cmd.key), step.cmd.token, s.now)
  }

  function LandEvent(s: State, cmd: Command): Event {
    match cmd
    case FinishCmd(k, token, resp, retention) => Finished(k, token, resp, s.now + retention, s.now)
    case CancelCmd(k, token) => Cancelled(k, token, s.now)
  }

  lemma LandApplied(s: State, step: Step)
    requires Applied(s, step)
    ensures var s', cmd := Apply(s, step), step.cmd;
            && cmd.key in s.store && s.store[cmd.key].InProgress? && s.store[cmd.key].token == cmd.token
            && s'.log == s.log + [LandEvent(s, cmd)] && s'.seen == s.seen && s'.sent == s.sent && s'.now == s.now
            && s'.minted == s.minted
            && (forall k :: k in s'.store && k != cmd.key ==> k in s.store && s'.store[k] == s.store[k])
            && (cmd.key in s'.store ==>
                  cmd.FinishCmd? && s'.store[cmd.key] == Completed(s.store[cmd.key].fp, cmd.resp, s.now + cmd.retention))
  {
  }

  lemma BeginReplies(s: State, step: Step)
    requires Enabled(s, step) && step.DoBegin?
    ensures var s', k := Apply(s, step), step.key;
            && s'.seen == s.seen + {step.token} && s'.sent == s.sent && s'.now == s.now && |s'.log| == |s.log| + 1
            && s'.minted == s.minted + {Mint(k, step.fp, step.token, step.lease)}
            && s.log == s'.log[..|s.log|]
            && (forall l :: l in s'.store && l != k ==> l in s.store && s'.store[l] == s.store[l])
            && k in s'.store
            && var e := s'.log[|s.log|];
               && !e.Finished? && !e.Cancelled? && e.key == k
               && (e.New? <==> Live(Get(s, k), s.now) == None)
               && (e.New? ==> e == New(k, step.fp, step.token, s.now + step.lease, s.now)
                              && s'.store[k] == InProgress(step.fp, step.token, s.now + step.lease))
               && (!e.New? ==> k in s.store && s'.store[k] == s.store[k])
               && (e.Replayed? ==> s.store[k].Completed? && e.fp == s.store[k].fp && e.resp == s.store[k].resp)
  {
  }

  lemma TokensPaidLand(s: State, step: Step)
    requires Applied(s, step)
    ensures TokensPaid(Apply(s, step))
  {
    LandApplied(s, step);
    SuccessesAppend(s.log, LandEvent(s, step.cmd));
    GrantsAppend(s.log, LandEvent(s, step.cmd));
    assert EntryEarned(s, step.cmd.key, s.store[step.cmd.key]);
  }

  /** A Begin settles nothing, and takes no grant back. */
  lemma CountsAfterBegin(s: State, step: Step)
    requires Enabled(s, step) && step.DoBegin?
    ensures var s' := Apply(s, step);
            forall t :: Successes(s'.log, t) == Successes(s.log, t) && Grants(s'.log, t) >= Grants(s.log, t)
  {
    var s' := Apply(s, step);
    BeginReplies(s, step);
    assert s'.log == s.log + [s'.log[|s.log|]];
    SuccessesAppend(s.log, s'.log[|s.log|]);
    GrantsAppend(s.log, s'.log[|s.log|]);
  }

  lemma TokensPaidBegin(s: State, step: Step)
    requires Inv(s) && Enabled(s, step) && step.DoBegin?
    ensures TokensPaid(Apply(s, step))
  {
    var s' := Apply(s, step);
    BeginReplies(s, step);
    CountsAfterBegin(s, step);
    assert s'.log == s.log + [s'.log[|s.log|]];
  }

  /** A StatusNew answer is given to the Begin command just executed. */
  lemma NewIsMinted(s: State, step: Step, e: Event)
    requires MintedOnce(s) && Enabled(s, step) && e in Apply(s, step).log && e.New?
    ensures Minted(Apply(s, step), e.key, e.fp, e.token)
  {
    var s' := Apply(s, step);
    LogGrows(s, step);
    if e in s.log {
      var m :| m in s.minted && m.key == e.key && m.fp == e.fp && m.token == e.token;
      assert m in s'.minted;
    } else {
      assert Mint(e.key, e.fp, e.token, step.lease) in s'.minted;
    }
  }

  lemma MintedOnceStep(s: State, step: Step)
    requires MintedOnce(s) && Enabled(s, step)
    ensures MintedOnce(Apply(s, step))
  {
    var s' := Apply(s, step);
    forall e | e in s'.log && e.New? ensures Minted(s', e.key, e.fp, e.token) {
      NewIsMinted(s, step, e);
    }
  }

  /** A reservation left alone by an applied command has another token than it. */
  lemma OtherTokenLands(s: State, step: Step, k: Key)
    requires Applied(s, step) && k in s.store && s.store[k].InProgress?
    requires k in Apply(s, step).store && Apply(s, step).store[k] == s.store[k]
    ensures var s', t := Apply(s, step), s.store[k].token;
            Successes(s'.log, t) == Successes(s.log, t) && Grants(s'.log, t) == Grants(s.log, t)
  {
    LandApplied(s, step);
    SuccessesAppend(s.log, LandEvent(s, step.cmd));
    GrantsAppend(s.log, LandEvent(s, step.cmd));
    if SameLease(s.store[k], s.store[step.cmd.key]) {
      SameLeaseSameKey(s, k, step.cmd.key);
    }
  }

  /** An entry that a step leaves alone stays earned. */
  lemma EntryKept(s: State, step: Step, k: Key)
    requires Inv(s) && Enabled(s, step)
    requires k in s.store && k in Apply(s, step).store && Apply(s, step).store[k] == s.store[k]
    ensures EntryEarned(Apply(s, step), k, s.store[k])
  {
    var s' := Apply(s, step);
    LogGrows(s, step);
    assert EntryEarned(s, k, s.store[k]);
    match s.store[k] {
      case InProgress(fp, token, _) =>
        GrantedKept(s.log, s'.log, k, fp, token);
        if Applied(s, step) {
          OtherTokenLands(s, step, k);
        } else if step.DoBegin? {
          CountsAfterBegin(s, step);
        }
      case Completed(fp, resp, _) => EarnedKept(s.log, s'.log, k, fp, resp);
    }
  }

  lemma EntryEarnedStep(s: State, step: Step, k: Key)
    requires Inv(s) && Enabled(s, step) && k in Apply(s, step).store
    ensures EntryEarned(Apply(s, step), k, Apply(s, step).store[k])
  {
    var s' := Apply(s, step);
    if k in s.store && s'.store[k] == s.store[k] {
      EntryKept(s, step, k);
    } else if step.DoBegin? {
      BeginReplies(s, step);
      var e := s'.log[|s.log|];
      assert e in s'.log && s'.log == s.log + [e];
      SuccessesAppend(s.log, e);
      GrantsAppend(s.log, e);
    } else {
      LandApplied(s, step);
      var f := LandEvent(s, step.cmd);
      assert EntryEarned(s, k, s.store[k]);
      assert s'.log[|s.log|] == f && s'.log[..|s.log|] == s.log;
    }
  }

  lemma JustifiedStep(s: State, step: Step)
    requires Inv(s) && Enabled(s, step)
    ensures Justified(Apply(s, step).log)
  {
    var s' := Apply(s, step);
    if s'.log != s.log {
      assert s'.log[..|s.log|] == s.log;
      if step.DoBegin? {
        BeginReplies(s, step);
        assert step.key in s.store ==> EntryEarned(s, step.key, s.store[step.key]);
      } else {
        LandApplied(s, step);
        assert EntryEarned(s, step.cmd.key, s.store[step.cmd.key]);
      }
    }
  }

  lemma InvStep(s: State, step: Step)
    requires Inv(s) && Enabled(s, step)
    ensures Inv(Apply(s, step))
  {
    var s' := Apply(s, step);
    JustifiedStep(s, step);
    forall k | k in s'.store ensures EntryEarned(s', k, s'.store[k]) {
      EntryEarnedStep(s, step, k);
    }
    MintedOnceStep(s, step);
    if step.DoBegin? {
      TokensPaidBegin(s, step);
    } else if Applied(s, step) {
      TokensPaidLand(s, step);
    }
  }

  lemma {:induction false} InvRun(s: State, steps: seq<Step>)
    requires Inv(s) && ValidRun(s, steps)
    ensures Inv(Run(s, steps))
    decreases |steps|
  {
    if steps != [] {
      InvStep(s, steps[0]);
      InvRun(Apply(s, steps[0]), steps[1..]);
    }
  }

  lemma Always(steps: seq<Step>)
    requires ValidRun(Init, steps)
    ensures Inv(Run(Init, steps))
  {
    InvRun(Init, steps);
  }
}
