/**
 * The two tables of the Postgres outbox and the four statements that touch them.
 * A statement is a function from tables to tables: Postgres runs each one atomically.
 */
module OutboxTables {
  import opened Wrappers

  type RowId = int
  type Token = string

  datatype EventName = OrderPlaced | OrderShipped

  /** The stored message. Topic, payload bytes and headers ride along unread, so they are not kept. */
  datatype Event = Event(eventId: string, name: EventName, aggregateId: string, version: nat)

  /** One row of outbox_records. `claimedUntil` and `token` are the two nullable claim columns. */
  datatype Row = Row(
    event: Event,
    availableAt: int,
    attempts: nat,
    lastError: Option<string>,
    claimedUntil: Option<int>,
    token: Option<Token>)

  /** One row of outbox_dead_letters. */
  datatype DeadLetter = DeadLetter(
    outboxId: RowId,
    event: Event,
    availableAt: int,
    attempts: nat,
    reason: string,
    failedAt: int)

  datatype Tables = Tables(active: map<RowId, Row>, dead: seq<DeadLetter>)

  /** What a settlement statement does to the row whose id and claim token it names. */
  datatype Action =
    | MarkSent
    | MarkFailed(nextAt: int, reason: string)
    | Terminate(cause: string)

  // ----- Fetch -----

  predicate Due(row: Row, at: int) {
    && row.availableAt <= at
    && (row.claimedUntil.None? || row.claimedUntil.value <= at)
  }

  /** ORDER BY available_at, id. */
  predicate Before(active: map<RowId, Row>, a: RowId, b: RowId)
    requires a in active && b in active
  {
    || active[a].availableAt < active[b].availableAt
    || (active[a].availableAt == active[b].availableAt && a < b)
  }

  predicate Candidate(active: map<RowId, Row>, at: int, skip: set<RowId>, id: RowId) {
    id in active && Due(active[id], at) && id !in skip
  }

  /**
   * `picked` is the row list of the `due` and outer SELECT: the first `limit` due rows that no
   * other transaction has locked (`skip`), in (available_at, id) order.
   */
  ghost predicate IsPick(active: map<RowId, Row>, at: int, limit: int, skip: set<RowId>, picked: seq<RowId>) {
    && (forall i :: 0 <= i < |picked| ==> Candidate(active, at, skip, picked[i]))
    && (forall i, j :: 0 <= i < j < |picked| ==> Before(active, picked[i], picked[j]))
    && |picked| <= (if limit <= 0 then 0 else limit)
    && (forall id :: Candidate(active, at, skip, id) && id !in picked ==>
          |picked| >= limit && forall i :: 0 <= i < |picked| ==> Before(active, picked[i], id))
  }

  /** The `updated` part of Fetch: a fresh token and a lease on every picked row. */
  function Stamp(active: map<RowId, Row>, claims: map<RowId, Token>, until: int): (r: map<RowId, Row>)
    ensures r.Keys == active.Keys
  {
    map id | id in active ::
      if id in claims
      then active[id].(claimedUntil := Some(until), token := Some(claims[id]))
      else active[id]
  }

  // ----- Settlement -----

  /** `WHERE id = $1 AND claim_token = $token` finds a row. */
  predicate Matches(t: Tables, id: RowId, token: Token) {
    id in t.active && t.active[id].token == Some(token)
  }

  /** markSentSQL, markFailedSQL or terminateSQL; zero matching rows is silent success. */
  function Settle(t: Tables, id: RowId, token: Token, action: Action, now: int): Tables {
    if !Matches(t, id, token) then t else
      var row := t.active[id];
      match action
      case MarkSent => t.(active := t.active - {id})
      case MarkFailed(nextAt, reason) =>
        t.(active := t.active[id := row.(attempts := row.attempts + 1, availableAt := nextAt,
                                         lastError := Some(reason), claimedUntil := None, token := None)])
      case Terminate(reason) =>
        Tables(t.active - {id},
               t.dead + [DeadLetter(id, row.event, row.availableAt, row.attempts + 1, reason, now)])
  }

  // ----- The statements in columns -----

  /**
   * Fetch: each picked row is available, and unclaimed or its claim has run out; the picks ascend by
   * available_at and then by id; a row like that, unlocked, is left out only if the limit is full of rows
   * before it.
   */
  lemma PickInColumns(active: map<RowId, Row>, at: int, limit: int, skip: set<RowId>, picked: seq<RowId>)
    requires IsPick(active, at, limit, skip, picked)
    ensures forall i :: 0 <= i < |picked| ==>
              && picked[i] in active && picked[i] !in skip && active[picked[i]].availableAt <= at
              && (active[picked[i]].claimedUntil == None || active[picked[i]].claimedUntil.value <= at)
    ensures forall i, j :: 0 <= i < j < |picked| ==>
              || active[picked[i]].availableAt < active[picked[j]].availableAt
              || (active[picked[i]].availableAt == active[picked[j]].availableAt && picked[i] < picked[j])
    ensures |picked| <= (if limit <= 0 then 0 else limit)
    ensures forall id :: id in active && id !in skip && id !in picked && active[id].availableAt <= at
                         && (active[id].claimedUntil == None || active[id].claimedUntil.value <= at)
                         ==>
                           && |picked| >= limit
                           && forall i :: 0 <= i < |picked| ==>
                                || active[picked[i]].availableAt < active[id].availableAt
                                || (active[picked[i]].availableAt == active[id].availableAt && picked[i] < id)
  {
    forall i | 0 <= i < |picked| ensures Candidate(active, at, skip, picked[i]) {
    }
    forall id | id in active && id !in skip && id !in picked && active[id].availableAt <= at
                && (active[id].claimedUntil == None || active[id].claimedUntil.value <= at)
      ensures |picked| >= limit && forall i :: 0 <= i < |picked| ==> Before(active, picked[i], id)
    {
      assert Candidate(active, at, skip, id);
    }
  }

  /** The claim writes the two claim columns of the claimed rows, and nothing else. */
  lemma StampInColumns(active: map<RowId, Row>, claims: map<RowId, Token>, until: int, id: RowId)
    requires id in active
    ensures var row, stamped := active[id], Stamp(active, claims, until)[id];
            && stamped.event == row.event && stamped.availableAt == row.availableAt
            && stamped.attempts == row.attempts && stamped.lastError == row.lastError
            && stamped.claimedUntil == (if id in claims then Some(until) else row.claimedUntil)
            && stamped.token == (if id in claims then Some(claims[id]) else row.token)
  {
  }

  /** A statement whose token is not the row's changes nothing; one whose token is changes no other row. */
  lemma SettleElsewhere(t: Tables, id: RowId, token: Token, action: Action, now: int)
    ensures id !in t.active || t.active[id].token != Some(token) ==> Settle(t, id, token, action, now) == t
    ensures forall other :: other != id ==>
              && (other in Settle(t, id, token, action, now).active <==> other in t.active)
              && (other in t.active ==> Settle(t, id, token, action, now).active[other] == t.active[other])
  {
  }

  lemma MarkSentInColumns(t: Tables, id: RowId, token: Token, now: int)
    requires id in t.active && t.active[id].token == Some(token)
    ensures var t' := Settle(t, id, token, MarkSent, now); id !in t'.active && t'.dead == t.dead
  {
  }

  lemma MarkFailedInColumns(t: Tables, id: RowId, token: Token, nextAt: int, reason: string, now: int)
    requires id in t.active && t.active[id].token == Some(token)
    ensures var t' := Settle(t, id, token, MarkFailed(nextAt, reason), now);
            && t'.dead == t.dead && id in t'.active
            && t'.active[id].event == t.active[id].event
            && t'.active[id].attempts == t.active[id].attempts + 1
            && t'.active[id].availableAt == nextAt
            && t'.active[id].lastError == Some(reason)
            && t'.active[id].claimedUntil == None && t'.active[id].token == None
  {
  }

  lemma TerminateInColumns(t: Tables, id: RowId, token: Token, reason: string, now: int)
    requires id in t.active && t.active[id].token == Some(token)
    ensures var t' := Settle(t, id, token, Terminate(reason), now);
            && id !in t'.active && |t'.dead| == |t.dead| + 1 && t'.dead[..|t.dead|] == t.dead
            && var d := t'.dead[|t.dead|];
               && d.outboxId == id && d.event == t.active[id].event && d.availableAt == t.active[id].availableAt
               && d.attempts == t.active[id].attempts + 1 && d.reason == reason && d.failedAt == now
  {
  }

  /** The row list of Fetch is unique, so the statement's outcome is determined by the tables and the locks. */
  lemma PickIsUnique(active: map<RowId, Row>, at: int, limit: int, skip: set<RowId>,
                     p: seq<RowId>, q: seq<RowId>)
    requires IsPick(active, at, limit, skip, p) && IsPick(active, at, limit, skip, q)
    ensures p == q
  {
    PickPrefix(active, at, limit, skip, p, q, |p|);
    PickPrefix(active, at, limit, skip, q, p, |q|);
  }

  lemma {:induction false} PickPrefix(active: map<RowId, Row>, at: int, limit: int, skip: set<RowId>,
                                      p: seq<RowId>, q: seq<RowId>, n: nat)
    requires IsPick(active, at, limit, skip, p) && IsPick(active, at, limit, skip, q)
    requires n <= |p|
    ensures n <= |q| && p[..n] == q[..n]
  {
    if n > 0 {
      PickPrefix(active, at, limit, skip, p, q, n - 1);
      PickNotEarlier(active, at, limit, skip, p, q, n - 1);
      PickNotEarlier(active, at, limit, skip, q, p, n - 1);
    }
  }

  lemma PickNotEarlier(active: map<RowId, Row>, at: int, limit: int, skip: set<RowId>,
                       p: seq<RowId>, q: seq<RowId>, k: nat)
    requires IsPick(active, at, limit, skip, p) && IsPick(active, at, limit, skip, q)
    requires k < |p| && k <= |q| && p[..k] == q[..k]
    ensures k < |q|
    ensures !Before(active, p[k], q[k])
  {
    var x := p[k];
    assert Candidate(active, at, skip, x);
    forall i | 0 <= i < k ensures q[i] != x {
      assert q[i] == q[..k][i] == p[..k][i] == p[i];
      assert Before(active, p[i], x);
    }
    if k < |q| && Before(active, x, q[k]) {
      forall i | k <= i < |q| ensures q[i] != x {
        assert i == k || Before(active, q[k], q[i]);
      }
    }
  }

  lemma Element(ids: set<RowId>) returns (x: RowId)
    requires ids != {}
    ensures x in ids
  {
    assert (forall y :: y !in ids) ==> ids == {};
    x :| x in ids;
  }
}
