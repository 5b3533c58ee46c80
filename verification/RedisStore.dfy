/** The three Lua scripts over Redis hashes, and the store that calls them through flat keys. */
module RedisStore {
  import opened Wrappers
  import opened IdempotencyRecord
  import opened RedisKeys
  import P = IdempotencyProtocol

  type Hash = map<string, string>

  /** The hash of a record: 'fp' and 'st' always, 'tok' while reserved ('P'), 'resp' once completed ('C'). */
  predicate WellFormed(h: Hash) {
    && "fp" in h && "st" in h
    && ((h["st"] == "P" && "tok" in h) || (h["st"] == "C" && "resp" in h))
  }

  function EntryOf(h: Hash, expireAt: Time): Entry
    requires WellFormed(h)
  {
    if h["st"] == "P" then InProgress(h["fp"], h["tok"], expireAt) else Completed(h["fp"], h["resp"], expireAt)
  }

  lemma CompletedHash(h: Hash, done: Hash, resp: string)
    requires WellFormed(h) && done == h["st" := "C"]["resp" := resp] - {"tok"}
    ensures WellFormed(done) && forall expireAt :: EntryOf(done, expireAt) == Completed(h["fp"], resp, expireAt)
  {
    assert "fp" != "st" && "fp" != "resp" && "fp" != "tok";
    assert "st" != "resp" && "st" != "tok" && "resp" != "tok";
  }

  /** The three-element reply of beginScript. */
  datatype Reply = Reply(status: string, token: string, resp: string)

  function Decode(r: Reply): Option<BeginReply> {
    if r.status == "new" then Some(StatusNew(r.token))
    else if r.status == "inprogress" then Some(StatusInProgress)
    else if r.status == "completed" then Some(StatusCompleted(r.resp))
    else if r.status == "mismatch" then Some(StatusMismatch)
    else None
  }

  predicate ValidKeyspace(hashes: map<string, Hash>, expires: map<string, Time>) {
    hashes.Keys == expires.Keys && forall key :: key in hashes ==> WellFormed(hashes[key])
  }

  /** The record a key holds at time `now`. */
  ghost function Lookup(hashes: map<string, Hash>, expires: map<string, Time>, key: string, now: Time): Option<Entry>
    requires ValidKeyspace(hashes, expires)
  {
    if key in hashes then Live(Some(EntryOf(hashes[key], expires[key])), now) else None
  }

  /** From the first keyspace to the second nothing but `key` changed. */
  ghost predicate OnlyTouches(h: map<string, Hash>, e: map<string, Time>, h2: map<string, Hash>, e2: map<string, Time>,
                              key: string)
  {
    forall k :: k != key ==>
      && (k in h2 <==> k in h) && (k in e2 <==> k in e)
      && (k in h2 && k in h ==> h2[k] == h[k])
      && (k in e2 && k in e ==> e2[k] == e[k])
  }

  /** The flat keyspace keeps the records of all (prefix, scope, key) triples apart. */
  lemma FlatKeyIsPrivate(h: map<string, Hash>, e: map<string, Time>, h2: map<string, Hash>, e2: map<string, Time>,
                         k: Key, now: Time)
    requires ValidKeyspace(h, e) && ValidKeyspace(h2, e2) && OnlyTouches(h, e, h2, e2, CompositeKey(k))
    ensures forall other: Key :: other != k ==>
              Lookup(h2, e2, CompositeKey(other), now) == Lookup(h, e, CompositeKey(other), now)
  {
    forall other: Key | other != k
      ensures Lookup(h2, e2, CompositeKey(other), now) == Lookup(h, e, CompositeKey(other), now)
    {
      if CompositeKey(other) == CompositeKey(k) {
        CompositeKeyInjective(other, k);
      }
    }
  }

  // ----- The keyspace and the protocol -----

  /** What the protocol step does to the one record it names, seen without expired records. */
  function OnRecord(before: Option<Entry>, step: P.Step, now: Time): Option<Entry> {
    match step
    case DoBegin(_, fp, token, lease) => Begin(before, fp, token, lease, now).0
    case Land(FinishCmd(_, token, resp, retention)) => Finish(before, token, resp, retention, now).0
    case Land(CancelCmd(_, token)) => Cancel(before, token, now).0
    case _ => before
  }

  function BeginStep(begin: P.Mint): P.Step {
    P.DoBegin(begin.key, begin.fp, begin.token, begin.lease)
  }

  function StepKey(step: P.Step): Option<Key> {
    match step
    case DoBegin(k, _, _, _) => Some(k)
    case Land(cmd) => Some(cmd.key)
    case _ => None
  }

  /**
   * Seen through records that have not expired, which is all Redis shows, each step does to its own key what
   * the record functions say and leaves every other key alone.
   */
  lemma StepActsOnOneRecord(s: P.State, step: P.Step, x: Key)
    requires P.Enabled(s, step) && !step.Tick?
    ensures var before, after := Live(P.Get(s, x), s.now), Live(P.Get(P.Apply(s, step), x), s.now);
            after == if StepKey(step) == Some(x) then OnRecord(before, step, s.now) else before
  {
  }

  /** Under the flat keys Redis holds the records of the protocol state. */
  ghost predicate KeyspaceShows(hashes: map<string, Hash>, expires: map<string, Time>, s: P.State)
    requires ValidKeyspace(hashes, expires)
  {
    forall x: Key :: Lookup(hashes, expires, CompositeKey(x), s.now) == Live(P.Get(s, x), s.now)
  }

  /** A script that does the step's work on the step's own key carries the whole keyspace along. */
  lemma StepShown(h: map<string, Hash>, e: map<string, Time>, h2: map<string, Hash>, e2: map<string, Time>,
                  s: P.State, step: P.Step, k: Key)
    requires ValidKeyspace(h, e) && ValidKeyspace(h2, e2) && KeyspaceShows(h, e, s)
    requires P.Enabled(s, step) && StepKey(step) == Some(k) && OnlyTouches(h, e, h2, e2, CompositeKey(k))
    requires Lookup(h2, e2, CompositeKey(k), s.now) == OnRecord(Lookup(h, e, CompositeKey(k), s.now), step, s.now)
    ensures KeyspaceShows(h2, e2, P.Apply(s, step))
  {
    FlatKeyIsPrivate(h, e, h2, e2, k, s.now);
    forall x: Key
      ensures Lookup(h2, e2, CompositeKey(x), s.now) == Live(P.Get(P.Apply(s, step), x), s.now)
    {
      StepActsOnOneRecord(s, step, x);
    }
  }

  /** Expiry needs no command: as time goes on Redis keeps showing the records of the protocol. */
  lemma TimeShown(h: map<string, Hash>, e: map<string, Time>, s: P.State, to: Time)
    requires ValidKeyspace(h, e) && KeyspaceShows(h, e, s) && s.now <= to
    ensures P.Enabled(s, P.Tick(to)) && KeyspaceShows(h, e, P.Apply(s, P.Tick(to)))
  {
    forall x: Key ensures Lookup(h, e, CompositeKey(x), to) == Live(P.Get(s, x), to) {
      assert Lookup(h, e, CompositeKey(x), to) == Live(Lookup(h, e, CompositeKey(x), s.now), to);
    }
  }

  lemma OneStep(s: P.State, step: P.Step)
    requires P.Enabled(s, step)
    ensures P.ValidRun(s, [step]) && P.Run(s, [step]) == P.Apply(s, step)
  {
    assert [step][1..] == [];
    assert P.ValidRun(P.Apply(s, step), []);
  }

  /** Time has passed since the state the caller knows; then come the steps of the call. */
  lemma AfterTick(s: P.State, to: Time, rest: seq<P.Step>)
    requires s.now <= to && P.ValidRun(P.Apply(s, P.Tick(to)), rest)
    ensures P.ValidRun(s, [P.Tick(to)] + rest)
    ensures P.Run(s, [P.Tick(to)] + rest) == P.Run(P.Apply(s, P.Tick(to)), rest)
  {
    assert ([P.Tick(to)] + rest)[1..] == rest;
  }

  /** A command is sent and, if its script runs, lands at once. */
  function CommandSteps(cmd: P.Command, executed: bool): seq<P.Step> {
    if executed then [P.Send(cmd), P.Land(cmd)] else [P.Send(cmd)]
  }

  lemma CommandRun(s: P.State, cmd: P.Command, executed: bool)
    requires cmd.FinishCmd? ==> cmd.retention >= 1
    ensures P.ValidRun(s, CommandSteps(cmd, executed))
    ensures var sent := P.Apply(s, P.Send(cmd));
            P.Run(s, CommandSteps(cmd, executed)) == if executed then P.Apply(sent, P.Land(cmd)) else sent
  {
    var sent := P.Apply(s, P.Send(cmd));
    if executed {
      OneStep(sent, P.Land(cmd));
      assert CommandSteps(cmd, executed)[1..] == [P.Land(cmd)];
    } else {
      OneStep(s, P.Send(cmd));
    }
  }

  /** An applied command logs its event, a refused one changes nothing. */
  lemma CommandLogs(s: P.State, cmd: P.Command)
    requires cmd.FinishCmd? ==> cmd.retention >= 1
    ensures var s', applied := P.Run(s, CommandSteps(cmd, true)), Opens(Live(P.Get(s, cmd.key), s.now), cmd.token, s.now);
            s'.log == (if applied then s.log + [P.LandEvent(s, cmd)] else s.log) && (!applied ==> s'.store == s.store)
  {
    CommandRun(s, cmd, true);
  }

  /** Redis still holds the key. */
  predicate Present(expires: map<string, Time>, key: string, now: Time) {
    key in expires && now < expires[key]
  }

  /** Whether the token opens the record, read from the hash. */
  predicate Reserved(hashes: map<string, Hash>, expires: map<string, Time>, key: string, token: string, now: Time)
    requires ValidKeyspace(hashes, expires)
  {
    Present(expires, key, now) && hashes[key]["st"] == "P" && hashes[key]["tok"] == token
  }

  class Redis {
    var hashes: map<string, Hash>
    var expires: map<string, Time>

    constructor ()
      ensures Valid() && hashes == map[] && Shows(P.Init)
    {
      hashes, expires := map[], map[];
    }

    ghost predicate Valid()
      reads this
    {
      ValidKeyspace(hashes, expires)
    }

    ghost predicate Shows(s: P.State)
      reads this
      requires Valid()
    {
      KeyspaceShows(hashes, expires, s)
    }

    ghost function At(key: string, now: Time): Option<Entry>
      reads this
      requires Valid()
    {
      Lookup(hashes, expires, key, now)
    }

    /** Redis removes an expired key when a command touches it. */
    method Expire(key: string, now: Time)
      requires Valid()
      modifies this
      ensures Valid() && OnlyTouches(old(hashes), old(expires), hashes, expires, key) && At(key, now) == old(At(key, now))
      ensures key in hashes <==> At(key, now).Some?
      ensures if old(Present(expires, key, now)) then hashes == old(hashes) && expires == old(expires)
              else key !in hashes
    {
      if key in expires && expires[key] <= now {
        hashes, expires := hashes - {key}, expires - {key};
      }
    }

    method BeginScript(key: string, fp: string, token: string, leaseMs: nat, now: Time)
      returns (r: Reply)
      requires Valid() && leaseMs >= 1
      modifies this
      ensures Valid() && OnlyTouches(old(hashes), old(expires), hashes, expires, key)
      ensures At(key, now) == Begin(old(At(key, now)), fp, token, leaseMs, now).0
      ensures Decode(r) == Some(Begin(old(At(key, now)), fp, token, leaseMs, now).1)
      ensures if old(!Present(expires, key, now))
              then key in hashes && hashes[key] == map["fp" := fp, "st" := "P", "tok" := token]
                   && expires[key] == now + leaseMs && r == Reply("new", token, "")
              else hashes == old(hashes) && expires == old(expires) && var h := hashes[key];
                   r == if h["fp"] != fp then Reply("mismatch", "", "")
                        else if h["st"] == "P" then Reply("inprogress", "", "") else Reply("completed", "", h["resp"])
    {
      Expire(key, now);
      if key !in hashes {
        hashes := hashes[key := map["fp" := fp, "st" := "P", "tok" := token]];
        expires := expires[key := now + leaseMs];
        return Reply("new", token, "");
      }
      var h := hashes[key];
      if h["fp"] != fp {
        return Reply("mismatch", "", "");
      }
      if h["st"] == "P" {
        return Reply("inprogress", "", "");
      }
      return Reply("completed", "", if "resp" in h then h["resp"] else "");
    }

    method FinishScript(key: string, token: string, resp: string, retentionMs: nat, now: Time) returns (n: int)
      requires Valid() && retentionMs >= 1
      modifies this
      ensures Valid() && OnlyTouches(old(hashes), old(expires), hashes, expires, key)
      ensures At(key, now) == Finish(old(At(key, now)), token, resp, retentionMs, now).0
      ensures n == if old(Reserved(hashes, expires, key, token, now)) then 0 else -1
      ensures n == 0 ==> key in hashes && hashes[key] == old(hashes)[key]["st" := "C"]["resp" := resp] - {"tok"}
                         && expires[key] == now + retentionMs
      ensures n == 0 <==> Finish(old(At(key, now)), token, resp, retentionMs, now).1
    {
      Expire(key, now);
      if key !in hashes {
        return -1;
      }
      var h := hashes[key];
      if h["st"] == "C" {
        return -1;
      }
      if h["tok"] != token {
        return -1;
      }
      var done := h["st" := "C"]["resp" := resp] - {"tok"};
      CompletedHash(h, done, resp);
      hashes := hashes[key := done];
      expires := expires[key := now + retentionMs];
      return 0;
    }

    method CancelScript(key: string, token: string, now: Time) returns (n: int)
      requires Valid()
      modifies this
      ensures Valid() && OnlyTouches(old(hashes), old(expires), hashes, expires, key)
      ensures At(key, now) == Cancel(old(At(key, now)), token, now).0
      ensures n == if old(Reserved(hashes, expires, key, token, now)) then 0 else -1
      ensures n == 0 ==> key !in hashes
      ensures n == 0 <==> Cancel(old(At(key, now)), token, now).1
    {
      Expire(key, now);
      if key !in hashes {
        return -1;
      }
      var h := hashes[key];
      if h["st"] == "C" {
        return -1;
      }
      if h["tok"] != token {
        return -1;
      }
      hashes, expires := hashes - {key}, expires - {key};
      return 0;
    }

    /** One execution of a Begin command, the first or a later one: that is its DoBegin in the protocol. */
    method ExecuteBegin(begin: P.Mint, now: Time, ghost s: P.State) returns (r: Reply)
      requires Valid() && Shows(s) && s.now == now && P.Enabled(s, BeginStep(begin))
      modifies this
      ensures Valid() && Shows(P.Apply(s, BeginStep(begin)))
      ensures OnlyTouches(old(hashes), old(expires), hashes, expires, CompositeKey(begin.key))
      ensures Decode(r).Some? && P.Apply(s, BeginStep(begin)).log
              == s.log + [P.ReplyEvent(begin.key, begin.fp, Decode(r).value, now + begin.lease, now)]
    {
      r := BeginScript(CompositeKey(begin.key), begin.fp, begin.token, begin.lease, now);
      StepShown(old(hashes), old(expires), hashes, expires, s, BeginStep(begin), begin.key);
    }

    /** One execution of a command, at once or long after its client gave up: that is its Land in the protocol. */
    method Execute(cmd: P.Command, now: Time, ghost s: P.State) returns (n: int)
      requires Valid() && Shows(s) && s.now == now && P.Enabled(s, P.Land(cmd))
      modifies this
      ensures Valid() && Shows(P.Apply(s, P.Land(cmd)))
      ensures OnlyTouches(old(hashes), old(expires), hashes, expires, CompositeKey(cmd.key))
      ensures n == if Opens(Live(P.Get(s, cmd.key), now), cmd.token, now) then 0 else -1
    {
      var key := CompositeKey(cmd.key);
      match cmd {
        case FinishCmd(_, token, resp, retention) => n := FinishScript(key, token, resp, retention, now);
        case CancelCmd(_, token) => n := CancelScript(key, token, now);
      }
      StepShown(old(hashes), old(expires), hashes, expires, s, P.Land(cmd), cmd.key);
    }
  }

  // ----- The store -----

  datatype ConfigError = NilClient | EmptyKeyPrefix | LeaseTtlTooSmall | RetentionTooSmall

  datatype StoreError = InvalidArgument | Conflict | Unavailable | Internal

  /** A command is answered, executed without an answer, or not executed now. */
  datatype Call = Answered | Unanswered | NotExecuted

  /** `leaseTtl` is set for StatusNew only. */
  datatype Reservation = Reservation(scope: string, key: string, status: BeginReply, leaseTtl: int)

  /** One millisecond, in the nanoseconds of a duration. */
  const Millisecond: int := 1_000_000

  /** New: a client, a key prefix, and durations of at least a millisecond, are needed. */
  method NewStore(redis: Redis?, prefix: string, leaseTtl: int, retention: int) returns (r: Result<Store, ConfigError>)
    ensures r.Ok? <==> redis != null && prefix != "" && leaseTtl >= 1_000_000 && retention >= 1_000_000
    ensures r.Ok? ==> fresh(r.value) && r.value.redis == redis && r.value.keyPrefix == prefix
                      && r.value.leaseTtl == leaseTtl && r.value.retention == retention
    ensures r.Ok? ==> r.value.LeaseMs() >= 1 && r.value.RetentionMs() >= 1
    ensures r.Err? ==> r.error == if redis == null then NilClient
                                  else if prefix == "" then EmptyKeyPrefix
                                  else if leaseTtl < 1_000_000 then LeaseTtlTooSmall else RetentionTooSmall
  {
    if redis == null {
      return Err(NilClient);
    }
    if prefix == "" {
      return Err(EmptyKeyPrefix);
    }
    if leaseTtl < Millisecond {
      return Err(LeaseTtlTooSmall);
    }
    if retention < Millisecond {
      return Err(RetentionTooSmall);
    }
    var store := new Store(redis, prefix, leaseTtl, retention);
    return Ok(store);
  }

  /**
   * The protocol lets time pass, sends the command and, if the script runs, lands it. Success means its event
   * was logged, a conflict that nothing changed, and no answer leaves both open.
   */
  ghost predicate CommandAnswered(s: P.State, now: Time, cmd: P.Command, call: Call, r: Result<(), StoreError>,
                                  steps: seq<P.Step>)
    requires P.ValidRun(s, steps)
  {
    var s' := P.Run(s, steps);
    && steps == [P.Tick(now)] + CommandSteps(cmd, !call.NotExecuted?)
    && (if call.Answered? then r == Ok(()) || r == Err(Conflict) else r == Err(Unavailable))
    && (r == Ok(()) ==> s'.log == s.log + [P.LandEvent(s.(now := now), cmd)])
    && (r == Err(Conflict) ==> s'.log == s.log && s'.store == s.store)
  }

  class Store {
    const redis: Redis
    const keyPrefix: string
    const leaseTtl: int
    const retention: int

    constructor (redis: Redis, keyPrefix: string, leaseTtl: int, retention: int)
      ensures this.redis == redis && this.keyPrefix == keyPrefix
      ensures this.leaseTtl == leaseTtl && this.retention == retention
    {
      this.redis, this.keyPrefix, this.leaseTtl, this.retention := redis, keyPrefix, leaseTtl, retention;
    }

    /** time.Duration.Milliseconds, which is all Redis is told. */
    function LeaseMs(): (ms: int)
      ensures ms * 1_000_000 <= leaseTtl < (ms + 1) * 1_000_000
    {
      leaseTtl / Millisecond
    }

    function RetentionMs(): (ms: int)
      ensures ms * 1_000_000 <= retention < (ms + 1) * 1_000_000
    {
      retention / Millisecond
    }

    ghost predicate Valid()
      reads redis
    {
      redis.Valid() && LeaseMs() >= 1 && RetentionMs() >= 1
    }

    /** The store as a map over (prefix, scope, key) triples. */
    ghost function View(k: Key, now: Time): Option<Entry>
      reads redis
      requires Valid()
    {
      redis.At(CompositeKey(k), now)
    }

    /**
     * `minted` is the lease token drawn for this call, None when crypto/rand fails; `call` is the fate of the
     * script; `s` is the protocol state as of some earlier time. Redis moves as the protocol does in `steps`,
     * and the reply is the one the protocol logs.
     */
    method Begin(scope: string, key: string, fp: string, minted: Option<Token>, call: Call, now: Time, ghost s: P.State)
      returns (r: Result<Reservation, StoreError>, ghost steps: seq<P.Step>)
      requires Valid() && redis.Shows(s) && s.now <= now && (minted.Some? ==> minted.value !in s.seen)
      modifies redis
      ensures Valid() && P.ValidRun(s, steps) && redis.Shows(P.Run(s, steps))
      ensures var k, refused := Key(keyPrefix, scope, key), scope == "" || key == "" || fp == "";
              && steps == [P.Tick(now)] + (if refused || minted.None? || call.NotExecuted? then []
                                           else [P.DoBegin(k, fp, minted.value, LeaseMs())])
              && (r.Ok? <==> !refused && minted.Some? && call.Answered?)
              && (r.Err? ==> r.error == if refused then InvalidArgument else if minted.None? then Internal else Unavailable)
              && (r.Ok? ==> var status := r.value.status;
                            && r.value == Reservation(scope, key, status, if status.StatusNew? then leaseTtl else 0)
                            && P.Run(s, steps).log == s.log + [
                              match status
                              case StatusNew(token) => P.New(k, fp, token, now + LeaseMs(), now)
                              case StatusInProgress => P.Busy(k, now)
                              case StatusCompleted(resp) => P.Replayed(k, fp, resp, now)
                              case StatusMismatch => P.Refused(k, fp, now)])
      ensures forall x: Key :: x != Key(keyPrefix, scope, key) ==> View(x, now) == old(View(x, now))
    {
      ghost var s0 := P.Apply(s, P.Tick(now));
      TimeShown(redis.hashes, redis.expires, s, now);
      AfterTick(s, now, []);
      steps := [P.Tick(now)] + [];
      if scope == "" || key == "" || fp == "" {
        return Err(InvalidArgument), steps;
      }
      if minted.None? {
        return Err(Internal), steps;
      }
      var k := Key(keyPrefix, scope, key);
      if call.NotExecuted? {
        return Err(Unavailable), steps;
      }
      var begin := P.Mint(k, fp, minted.value, LeaseMs());
      var raw := redis.ExecuteBegin(begin, now, s0);
      OneStep(s0, BeginStep(begin));
      AfterTick(s, now, [BeginStep(begin)]);
      steps := [P.Tick(now)] + [BeginStep(begin)];
      FlatKeyIsPrivate(old(redis.hashes), old(redis.expires), redis.hashes, redis.expires, k, now);
      if call.Unanswered? {
        return Err(Unavailable), steps;
      }
      match Decode(raw) {
        case Some(reply) => return Ok(Reservation(scope, key, reply, if reply.StatusNew? then leaseTtl else 0)), steps;
        case None => return Err(Internal), steps;
      }
    }

    /** One Finish or Cancel script call; an unanswered command may still be executed later. */
    method RunCommand(cmd: P.Command, call: Call, now: Time, ghost s: P.State)
      returns (r: Result<(), StoreError>, ghost steps: seq<P.Step>)
      requires Valid() && redis.Shows(s) && s.now <= now && (cmd.FinishCmd? ==> cmd.retention >= 1)
      modifies redis
      ensures Valid() && P.ValidRun(s, steps) && redis.Shows(P.Run(s, steps))
      ensures CommandAnswered(s, now, cmd, call, r, steps)
      ensures forall x: Key :: x != cmd.key ==> View(x, now) == old(View(x, now))
    {
      ghost var s0 := P.Apply(s, P.Tick(now));
      TimeShown(redis.hashes, redis.expires, s, now);
      CommandRun(s0, cmd, !call.NotExecuted?);
      AfterTick(s, now, CommandSteps(cmd, !call.NotExecuted?));
      steps := [P.Tick(now)] + CommandSteps(cmd, !call.NotExecuted?);
      if call.NotExecuted? {
        return Err(Unavailable), steps;
      }
      CommandLogs(s0, cmd);
      var n := redis.Execute(cmd, now, P.Apply(s0, P.Send(cmd)));
      FlatKeyIsPrivate(old(redis.hashes), old(redis.expires), redis.hashes, redis.expires, cmd.key, now);
      if call.Unanswered? {
        return Err(Unavailable), steps;
      }
      return if n != 0 then Err(Conflict) else Ok(()), steps;
    }

    /** Refused untouched, applied, conflict (surely not applied), or no answer. */
    method Finish(scope: string, key: string, token: string, resp: string, call: Call, now: Time, ghost s: P.State)
      returns (r: Result<(), StoreError>, ghost steps: seq<P.Step>)
      requires Valid() && redis.Shows(s) && s.now <= now
      modifies redis
      ensures Valid() && P.ValidRun(s, steps) && redis.Shows(P.Run(s, steps))
      ensures if scope == "" || key == "" || token == "" then r == Err(InvalidArgument) && steps == []
              else var cmd := P.FinishCmd(Key(keyPrefix, scope, key), token, resp, RetentionMs());
                   CommandAnswered(s, now, cmd, call, r, steps)
      ensures forall x: Key :: x != Key(keyPrefix, scope, key) ==> View(x, now) == old(View(x, now))
    {
      if scope == "" || key == "" || token == "" {
        return Err(InvalidArgument), [];
      }
      r, steps := RunCommand(P.FinishCmd(Key(keyPrefix, scope, key), token, resp, RetentionMs()), call, now, s);
    }

    method Cancel(scope: string, key: string, token: string, call: Call, now: Time, ghost s: P.State)
      returns (r: Result<(), StoreError>, ghost steps: seq<P.Step>)
      requires Valid() && redis.Shows(s) && s.now <= now
      modifies redis
      ensures Valid() && P.ValidRun(s, steps) && redis.Shows(P.Run(s, steps))
      ensures if scope == "" || key == "" || token == "" then r == Err(InvalidArgument) && steps == []
              else CommandAnswered(s, now, P.CancelCmd(Key(keyPrefix, scope, key), token), call, r, steps)
      ensures forall x: Key :: x != Key(keyPrefix, scope, key) ==> View(x, now) == old(View(x, now))
    {
      if scope == "" || key == "" || token == "" {
        return Err(InvalidArgument), [];
      }
      r, steps := RunCommand(P.CancelCmd(Key(keyPrefix, scope, key), token), call, now, s);
    }
  }
}
