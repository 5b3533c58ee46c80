/** The Postgres store: the statements of the outbox run against its two tables, under string record ids. */
module PgxStore {
  import opened Wrappers
  import opened Decimal
  import opened RecordId
  import opened OutboxTables
  import opened RelayJournal

  /** The OutboxRecord Fetch returns. */
  datatype Record = Record(id: string, event: Event, availableAt: int, attempts: nat)

  /** In nanoseconds, as durations are. */
  const Millisecond: int := 1_000_000

  /** WithClaimLease: anything shorter than 100ms is raised to 100ms. */
  const MinClaimLease: int := 100 * Millisecond

  /** A store call: answered; executed, but the answer was lost or unreadable; or not executed. */
  datatype Call = Answered | LandedUnanswered | Lost

  datatype StoreError = BadId | Unavailable

  /** The first of some rows in (available_at, id) order. */
  method Earliest(active: map<RowId, Row>, ids: set<RowId>) returns (first: RowId)
    requires ids <= active.Keys && ids != {}
    ensures first in ids
    ensures forall id :: id in ids && id != first ==> Before(active, first, id)
  {
    ghost var some := Element(ids);
    first :| first in ids;
    var rest := ids - {first};
    while rest != {}
      invariant rest <= ids && first in ids && first !in rest
      invariant forall id :: id in ids && id !in rest && id != first ==> Before(active, first, id)
      decreases |rest|
    {
      ghost var other := Element(rest);
      var id :| id in rest;
      rest := rest - {id};
      if Before(active, id, first) {
        first := id;
      }
    }
  }

  /** The `due` query: take the earliest candidate until the limit is reached or none is left. */
  method SelectDue(active: map<RowId, Row>, at: int, limit: int, locked: set<RowId>) returns (picked: seq<RowId>)
    ensures IsPick(active, at, limit, locked, picked)
  {
    picked := [];
    var left := set id | id in active && Candidate(active, at, locked, id);
    while left != {} && |picked| < limit
      invariant forall id :: id in left <==> Candidate(active, at, locked, id) && id !in picked
      invariant forall i :: 0 <= i < |picked| ==> Candidate(active, at, locked, picked[i])
      invariant forall i, j :: 0 <= i < j < |picked| ==> Before(active, picked[i], picked[j])
      invariant forall i, id :: 0 <= i < |picked| && id in left ==> Before(active, picked[i], id)
      invariant |picked| <= (if limit <= 0 then 0 else limit)
      decreases |left|
    {
      var id := Earliest(active, left);
      picked := picked + [id];
      left := left - {id};
    }
  }

  /** gen_random_uuid() once per updated row. */
  method DrawTokens(rows: seq<RowId>, tokens: seq<Token>) returns (claims: map<RowId, Token>)
    requires |rows| <= |tokens| && Distinct(rows) && Distinct(tokens)
    ensures claims.Keys == (set id | id in rows)
    ensures forall id :: id in claims ==> claims[id] in tokens
    ensures forall a, b :: a in claims && b in claims && claims[a] == claims[b] ==> a == b
  {
    claims := map[];
    var i := 0;
    while i < |rows|
      invariant 0 <= i <= |rows|
      invariant claims.Keys == (set id | id in rows[..i])
      invariant forall k :: 0 <= k < i ==> rows[k] in claims && claims[rows[k]] == tokens[k]
    {
      claims := claims[rows[i] := tokens[i]];
      i := i + 1;
    }
    assert rows[..i] == rows;
  }

  function ToRecord(id: RowId, token: Token, row: Row): Record {
    Record(EncodeId(id, token), row.event, row.availableAt, row.attempts)
  }

  /** The scan loop of Fetch: one record per returned row. */
  method ScanRows(rows: seq<RowId>, active: map<RowId, Row>, claims: map<RowId, Token>) returns (out: seq<Record>)
    requires forall id :: id in rows ==> id in active && id in claims
    ensures |out| == |rows|
    ensures forall i :: 0 <= i < |rows| ==> out[i] == ToRecord(rows[i], claims[rows[i]], active[rows[i]])
  {
    out := [];
    for k := 0 to |rows|
      invariant |out| == k
      invariant forall i :: 0 <= i < k ==> out[i] == ToRecord(rows[i], claims[rows[i]], active[rows[i]])
    {
      var id := rows[k];
      assert id in rows;
      out := out + [ToRecord(id, claims[id], active[id])];
    }
  }

  /** The tables after a claim. */
  function Claim(t: Tables, claims: map<RowId, Token>, until: int): Tables {
    t.(active := Stamp(t.active, claims, until))
  }

  lemma IdsParse(rows: seq<RowId>, claims: map<RowId, Token>, tokens: seq<Token>)
    requires forall id :: id in rows ==> IsInt64(id) && id in claims && claims[id] in tokens
    requires forall t :: t in tokens ==> UuidText(t)
    ensures forall id :: id in rows ==> ParseId(EncodeId(id, claims[id])) == Ok((id, claims[id]))
  {
    forall id | id in rows ensures ParseId(EncodeId(id, claims[id])) == Ok((id, claims[id])) {
      EncodeThenParse(id, claims[id]);
    }
  }

  lemma NothingToClaim(active: map<RowId, Row>, at: int, limit: int, locked: set<RowId>, until: int)
    requires limit <= 0
    ensures IsPick(active, at, limit, locked, []) && Stamp(active, map[], until) == active
  {
  }

  // ----- Settlement by record id -----

  /** The tables after a settlement call. */
  function AfterCall(t: Tables, id: string, action: Action, call: Call, now: int): Tables {
    match ParseId(id)
    case Err(_) => t
    case Ok((dbId, token)) => if call.Lost? then t else Settle(t, dbId, Lower(token), action, now)
  }

  /** The call is executed and finds its row. */
  predicate TakesEffect(t: Tables, id: string, call: Call) {
    ParseId(id).Ok? && !call.Lost? && Matches(t, ParseId(id).value.0, Lower(ParseId(id).value.1))
  }

  function Reply(id: string, call: Call): Result<(), StoreError> {
    if ParseId(id).Err? then Err(BadId) else if call.Answered? then Ok(()) else Err(Unavailable)
  }

  /** A call that is not executed, or names no row, changes nothing; an executed one is its statement. */
  lemma CallInCases(t: Tables, id: string, action: Action, call: Call, now: int)
    ensures ParseId(id).Err? || call == Lost ==> AfterCall(t, id, action, call, now) == t
    ensures ParseId(id).Err? || call == Lost ==> !TakesEffect(t, id, call)
    ensures ParseId(id).Ok? && call != Lost ==>
              var (dbId, token) := ParseId(id).value;
              && AfterCall(t, id, action, call, now) == Settle(t, dbId, Lower(token), action, now)
              && (TakesEffect(t, id, call) <==> dbId in t.active && t.active[dbId].token == Some(Lower(token)))
  {
  }

  /** Only an answered call succeeds; a malformed id is refused whatever becomes of the call. */
  lemma ReplyInCases(id: string, call: Call)
    ensures Reply(id, call) == Ok(()) <==> ParseId(id).Ok? && call == Answered
    ensures Reply(id, call) == Err(BadId) <==> ParseId(id).Err?
    ensures Reply(id, call) == Err(Unavailable) <==> ParseId(id).Ok? && call != Answered
  {
  }

  /** One client of the database; `clock` is the database's own. */
  class Store {
    var records: map<RowId, Row>
    var deadLetters: seq<DeadLetter>
    var clock: int
    const claimLease: int
    const journal: Journal

    ghost function View(): Tables
      reads this
    {
      Tables(records, deadLetters)
    }

    /** Ids come from a BIGINT identity column. */
    ghost predicate Valid()
      reads this
    {
      MinClaimLease <= claimLease && forall id :: id in records ==> IsInt64(id)
    }

    /** The configured lease, but never less than the minimum. */
    constructor (lease: int, journal: Journal)
      ensures Valid() && View() == Tables(map[], []) && clock == 0 && this.journal == journal
      ensures claimLease >= lease && claimLease >= 100_000_000 && (lease >= 100_000_000 ==> claimLease == lease)
      ensures lease <= 100_000_000 ==> claimLease == 100_000_000
    {
      records, deadLetters, clock := map[], [], 0;
      claimLease := if lease < MinClaimLease then MinClaimLease else lease;
      this.journal := journal;
    }

    /** Postgres is told whole milliseconds. */
    function Lease(): (ns: int)
      ensures claimLease - 1_000_000 < ns <= claimLease && ns % 1_000_000 == 0
      ensures MinClaimLease <= claimLease ==> 100_000_000 <= ns
    {
      claimLease / Millisecond * Millisecond
    }

    /**
     * Claims up to `limit` due rows that no other transaction has locked; `tokens` are the uuids the database
     * will generate. When the answer is lost or a row cannot be scanned, the claims stand all the same.
     */
    method Fetch(limit: int, locked: set<RowId>, tokens: seq<Token>, call: Call)
      returns (r: Result<seq<Record>, StoreError>, ghost picked: seq<RowId>, ghost claims: map<RowId, Token>,
               ghost until: int)
      requires Valid()
      requires limit <= |tokens| && Distinct(tokens) && forall t :: t in tokens ==> UuidText(t)
      modifies this`records
      ensures Valid()
      ensures IsPick(old(records), clock, limit, locked, picked)
      ensures claims.Keys == (set id | id in picked)
      ensures forall id :: id in claims ==> claims[id] in tokens
      ensures forall a, b :: a in claims && b in claims && claims[a] == claims[b] ==> a == b
      ensures until == clock + Lease() && View() == if call.Lost? then old(View()) else Claim(old(View()), claims, until)
      ensures r.Ok? <==> limit <= 0 || call.Answered?
      ensures r.Err? ==> r.error == Unavailable
      ensures r.Ok? ==> |r.value| == |picked| && forall i :: 0 <= i < |picked| ==>
                          && r.value[i] == ToRecord(picked[i], claims[picked[i]], old(records)[picked[i]])
                          && ParseId(r.value[i].id) == Ok((picked[i], claims[picked[i]]))
                          && r.value[i].event == old(records)[picked[i]].event
                          && r.value[i].availableAt == old(records)[picked[i]].availableAt <= clock
                          && r.value[i].attempts == old(records)[picked[i]].attempts
    {
      var leaseEnd := clock + Lease();
      until := leaseEnd;
      if limit <= 0 {
        picked, claims := [], map[];
        NothingToClaim(records, clock, limit, locked, until);
        return Ok([]), picked, claims, until;
      }
      var rows := SelectDue(records, clock, limit, locked);
      var drawn := DrawTokens(rows, tokens);
      picked, claims := rows, drawn;
      if call.Lost? {
        return Err(Unavailable), picked, claims, until;
      }
      var out := ScanRows(rows, records, drawn);
      IdsParse(rows, drawn, tokens);
      records := Stamp(records, drawn, leaseEnd);
      if call.LandedUnanswered? {
        return Err(Unavailable), picked, claims, until;
      }
      return Ok(out), picked, claims, until;
    }

    /** Deletes the row, if the id still names its current claim; an id of another shape is refused. */
    method MarkSent(id: string, call: Call) returns (r: Result<(), StoreError>)
      requires Valid()
      modifies this`records, journal
      ensures Valid() && r == Reply(id, call)
      ensures View() == AfterCall(old(View()), id, OutboxTables.MarkSent, call, clock)
      ensures journal.entries == old(journal.entries) + if TakesEffect(old(View()), id, call) then [Removed(id)] else []
    {
      var parsed := ParseId(id);
      if parsed.Err? {
        return Err(BadId);
      }
      var dbId, token := parsed.value.0, Lower(parsed.value.1);
      if !call.Lost? && dbId in records && records[dbId].token == Some(token) {
        records := records - {dbId};
        journal.Add([Removed(id)]);
      }
      return if call.Answered? then Ok(()) else Err(Unavailable);
    }

    method MarkFailed(id: string, reason: string, nextAt: int, call: Call) returns (r: Result<(), StoreError>)
      requires Valid()
      modifies this`records, journal
      ensures Valid() && r == Reply(id, call)
      ensures View() == AfterCall(old(View()), id, OutboxTables.MarkFailed(nextAt, reason), call, clock)
      ensures journal.entries == old(journal.entries) + if TakesEffect(old(View()), id, call) then [Postponed(id)] else []
    {
      var parsed := ParseId(id);
      if parsed.Err? {
        return Err(BadId);
      }
      var dbId, token := parsed.value.0, Lower(parsed.value.1);
      if !call.Lost? && dbId in records && records[dbId].token == Some(token) {
        var row := records[dbId];
        records := records[dbId := Row(row.event, nextAt, row.attempts + 1, Some(reason), None, None)];
        journal.Add([Postponed(id)]);
      }
      return if call.Answered? then Ok(()) else Err(Unavailable);
    }

    method Terminate(id: string, reason: string, call: Call) returns (r: Result<(), StoreError>)
      requires Valid()
      modifies this`records, this`deadLetters, journal
      ensures Valid() && r == Reply(id, call)
      ensures View() == AfterCall(old(View()), id, OutboxTables.Terminate(reason), call, clock)
      ensures journal.entries == old(journal.entries) + if TakesEffect(old(View()), id, call) then [Buried(id)] else []
    {
      var parsed := ParseId(id);
      if parsed.Err? {
        return Err(BadId);
      }
      var dbId, token := parsed.value.0, Lower(parsed.value.1);
      if !call.Lost? && dbId in records && records[dbId].token == Some(token) {
        var row := records[dbId];
        records := records - {dbId};
        deadLetters := deadLetters + [DeadLetter(dbId, row.event, row.availableAt, row.attempts + 1, reason, clock)];
        journal.Add([Buried(id)]);
      }
      return if call.Answered? then Ok(()) else Err(Unavailable);
    }
  }
}
