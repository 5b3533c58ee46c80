/** The in-process outbox: a slice of records and a dead-letter map behind one mutex. */
module MemoryOutbox {
  import opened Wrappers
  import opened RelayJournal
  import OutboxTables

  type Event = OutboxTables.Event

  datatype Record = Record(id: string, event: Event, createdAt: int, availableAt: int, attempts: nat)

  datatype DeadLetter = DeadLetter(record: Record, reason: string, failedAt: int, attempts: nat)

  datatype StageError = OutboxFull | MarshalFailed

  // ----- Order -----

  /** Go's `<` on strings: byte by byte, a proper prefix first. */
  predicate StringLess(a: string, b: string) {
    if b == [] then false
    else if a == [] then true
    else if a[0] != b[0] then a[0] < b[0]
    else StringLess(a[1..], b[1..])
  }

  lemma {:induction false} StringTrichotomy(a: string, b: string)
    ensures a != b ==> StringLess(a, b) != StringLess(b, a)
    ensures !StringLess(a, a)
  {
    if a != [] {
      StringTrichotomy(a[1..], a[1..]);
      if b != [] && a[0] == b[0] {
        StringTrichotomy(a[1..], b[1..]);
        assert a == [a[0]] + a[1..] && b == [b[0]] + b[1..];
      }
    }
  }

  lemma {:induction false} StringTransitive(a: string, b: string, c: string)
    requires StringLess(a, b) && StringLess(b, c)
    ensures StringLess(a, c)
  {
    if a != [] && a[0] == b[0] == c[0] {
      StringTransitive(a[1..], b[1..], c[1..]);
    }
  }

  /** The other way to say it: the greater byte at the first difference, or a proper extension. */
  ghost predicate Above(a: string, b: string) {
    exists k: nat :: AboveAt(a, b, k)
  }

  predicate AboveAt(a: string, b: string, k: nat) {
    k < |a| && k <= |b| && a[..k] == b[..k] && (k == |b| || a[k] > b[k])
  }

  lemma {:induction false} LessIffAbove(a: string, b: string)
    ensures StringLess(a, b) <==> Above(b, a)
  {
    if a == [] || b == [] || a[0] != b[0] {
      assert StringLess(a, b) ==> AboveAt(b, a, 0);
    } else {
      LessIffAbove(a[1..], b[1..]);
      if k: nat :| AboveAt(b, a, k) {
        assert k > 0 && b[1..][..k - 1] == b[..k][1..] && a[1..][..k - 1] == a[..k][1..];
        assert AboveAt(b[1..], a[1..], k - 1);
      }
      if k: nat :| AboveAt(b[1..], a[1..], k) {
        assert b[..k + 1] == [b[0]] + b[1..][..k] && a[..k + 1] == [a[0]] + a[1..][..k];
        assert AboveAt(b, a, k + 1);
      }
    }
  }

  predicate Precedes(a: Record, b: Record) {
    a.availableAt < b.availableAt || (a.availableAt == b.availableAt && StringLess(a.id, b.id))
  }

  /** Not preceding is transitive: records are compared by one key. */
  lemma NotPrecedesTransitive(a: Record, b: Record, c: Record)
    requires !Precedes(a, b) && !Precedes(b, c)
    ensures !Precedes(a, c)
  {
    StringTrichotomy(a.id, b.id);
    StringTrichotomy(b.id, c.id);
    if a.availableAt == b.availableAt == c.availableAt && a.id != b.id && b.id != c.id {
      StringTransitive(c.id, b.id, a.id);
      StringTrichotomy(a.id, c.id);
    }
  }

  lemma PrecedesOneWay(a: Record, b: Record)
    requires Precedes(a, b)
    ensures !Precedes(b, a)
  {
    StringTrichotomy(a.id, b.id);
  }

  ghost predicate Sorted(s: seq<Record>) {
    forall i, j :: 0 <= i < j < |s| ==> !Precedes(s[j], s[i])
  }

  /** Due no later than `b`, and with no greater id if at the same time. */
  ghost predicate NotAfter(a: Record, b: Record) {
    a.availableAt < b.availableAt || (a.availableAt == b.availableAt && !Above(a.id, b.id))
  }

  lemma NotAfterIsOrder(a: Record, b: Record)
    ensures !Precedes(b, a) <==> NotAfter(a, b)
  {
    LessIffAbove(b.id, a.id);
  }

  lemma SortedInColumns(s: seq<Record>)
    ensures Sorted(s) <==> forall i, j :: 0 <= i < j < |s| ==> NotAfter(s[i], s[j])
  {
    forall i, j | 0 <= i < j < |s| ensures !Precedes(s[j], s[i]) <==> NotAfter(s[i], s[j]) {
      NotAfterIsOrder(s[i], s[j]);
    }
  }

  /** The records with this key, in the order of the list. */
  function Ties(s: seq<Record>, at: int, id: string): seq<Record> {
    if s == [] then [] else
      var before, last := Ties(s[..|s| - 1], at, id), s[|s| - 1];
      if last.availableAt == at && last.id == id then before + [last] else before
  }

  /** Records that compare equal keep their order. */
  ghost predicate Stable(from: seq<Record>, to: seq<Record>) {
    forall at, id :: Ties(to, at, id) == Ties(from, at, id)
  }

  lemma {:induction false} TiesConcat(a: seq<Record>, b: seq<Record>, at: int, id: string)
    ensures Ties(a + b, at, id) == Ties(a, at, id) + Ties(b, at, id)
  {
    if b == [] {
      assert a + b == a;
    } else {
      assert (a + b)[..|a + b| - 1] == a + b[..|b| - 1];
      TiesConcat(a, b[..|b| - 1], at, id);
    }
  }

  lemma {:induction false} NoTies(s: seq<Record>, at: int, id: string)
    requires forall i :: 0 <= i < |s| ==> s[i].availableAt != at || s[i].id != id
    ensures Ties(s, at, id) == []
  {
    if s != [] {
      NoTies(s[..|s| - 1], at, id);
    }
  }

  ghost predicate DistinctIds(s: seq<Record>) {
    forall i, j :: 0 <= i < j < |s| ==> s[i].id != s[j].id
  }

  // ----- Fetch -----

  /** The due records in slice order. */
  function Due(s: seq<Record>, now: int): (due: seq<Record>)
    ensures forall rec :: rec in due <==> rec in s && rec.availableAt <= now
  {
    if s == [] then [] else
      var before := Due(s[..|s| - 1], now);
      if s[|s| - 1].availableAt <= now then before + [s[|s| - 1]] else before
  }

  lemma {:induction false} DueDistinct(s: seq<Record>, now: int)
    requires DistinctIds(s)
    ensures DistinctIds(Due(s, now))
  {
    if s != [] {
      var last := s[|s| - 1];
      var before := Due(s[..|s| - 1], now);
      DueDistinct(s[..|s| - 1], now);
      forall k | 0 <= k < |before| ensures before[k].id != last.id {
        assert before[k] in before;
      }
    }
  }

  /** Every occurrence of a due record, and nothing else. */
  lemma {:induction false} DueCounts(s: seq<Record>, now: int)
    ensures forall rec :: multiset(Due(s, now))[rec] == if rec.availableAt <= now then multiset(s)[rec] else 0
  {
    if s != [] {
      DueCounts(s[..|s| - 1], now);
      assert s == s[..|s| - 1] + [s[|s| - 1]];
    }
  }

  /** After the records it does not precede, before those it does. */
  method InsertSorted(s: seq<Record>, rec: Record) returns (r: seq<Record>)
    requires Sorted(s)
    ensures Sorted(r) && multiset(r) == multiset(s) + multiset{rec} && Stable(s + [rec], r)
  {
    var k := |s|;
    while k > 0 && Precedes(rec, s[k - 1])
      invariant 0 <= k <= |s|
      invariant forall i :: k <= i < |s| ==> Precedes(rec, s[i])
    {
      k := k - 1;
    }
    r := s[..k] + [rec] + s[k..];
    InsertKeepsOrder(s, rec, k);
    InsertCounts(s, rec, k);
    InsertIsStable(s, rec, k);
  }

  lemma InsertKeepsOrder(s: seq<Record>, rec: Record, k: nat)
    requires Sorted(s) && k <= |s| && (k > 0 ==> !Precedes(rec, s[k - 1]))
    requires forall i :: k <= i < |s| ==> Precedes(rec, s[i])
    ensures Sorted(s[..k] + [rec] + s[k..])
  {
    var a, b := s[..k], s[k..];
    assert s == a + b;
    forall i, j | 0 <= i < j < |a| ensures !Precedes(a[j], a[i]) {
      assert a[i] == s[i] && a[j] == s[j];
    }
    NotBeforeAny(a, rec);
    forall i | 0 <= i < |b| ensures !Precedes(b[i], rec) {
      assert b[i] == s[k + i];
      PrecedesOneWay(rec, b[i]);
    }
    SortedJoin(a, rec, b);
  }

  lemma InsertCounts(s: seq<Record>, rec: Record, k: nat)
    requires k <= |s|
    ensures multiset(s[..k] + [rec] + s[k..]) == multiset(s) + multiset{rec}
  {
    assert s == s[..k] + s[k..];
  }

  lemma NotBeforeAny(a: seq<Record>, rec: Record)
    requires Sorted(a) && (a != [] ==> !Precedes(rec, a[|a| - 1]))
    ensures forall i :: 0 <= i < |a| ==> !Precedes(rec, a[i])
  {
    forall i | 0 <= i < |a| ensures !Precedes(rec, a[i]) {
      if i < |a| - 1 {
        NotPrecedesTransitive(rec, a[|a| - 1], a[i]);
      }
    }
  }

  lemma SortedJoin(a: seq<Record>, rec: Record, b: seq<Record>)
    requires Sorted(a + b)
    requires forall i :: 0 <= i < |a| ==> !Precedes(rec, a[i])
    requires forall i :: 0 <= i < |b| ==> !Precedes(b[i], rec)
    ensures Sorted(a + [rec] + b)
  {
    var r := a + [rec] + b;
    forall i, j | 0 <= i < j < |r| ensures !Precedes(r[j], r[i]) {
      if i != |a| && j != |a| {
        assert r[i] == (a + b)[if i < |a| then i else i - 1];
        assert r[j] == (a + b)[if j < |a| then j else j - 1];
      }
    }
  }

  lemma InsertIsStable(s: seq<Record>, rec: Record, k: nat)
    requires k <= |s| && forall i :: k <= i < |s| ==> Precedes(rec, s[i])
    ensures Stable(s + [rec], s[..k] + [rec] + s[k..])
  {
    var a, b := s[..k], s[k..];
    assert s == a + b;
    forall at, id ensures Ties(a + [rec] + b, at, id) == Ties(s + [rec], at, id) {
      TiesConcat(a + [rec], b, at, id);
      TiesConcat(a, [rec], at, id);
      TiesConcat(s, [rec], at, id);
      TiesConcat(a, b, at, id);
      if at == rec.availableAt && id == rec.id {
        StringTrichotomy(id, id);
        NoTies(b, at, id);
      } else {
        NoTies([rec], at, id);
      }
    }
  }

  /** sort.SliceStable by (AvailableAt, ID). */
  method SortDue(due: seq<Record>) returns (r: seq<Record>)
    ensures Sorted(r) && multiset(r) == multiset(due) && Stable(due, r)
    ensures forall i, j :: 0 <= i < j < |r| ==>
              r[i].availableAt < r[j].availableAt || (r[i].availableAt == r[j].availableAt && !Above(r[i].id, r[j].id))
  {
    r := [];
    var i := 0;
    while i < |due|
      invariant 0 <= i <= |due|
      invariant Sorted(r) && multiset(r) == multiset(due[..i]) && Stable(due[..i], r)
    {
      ghost var sorted := r;
      r := InsertSorted(r, due[i]);
      assert due[..i + 1] == due[..i] + [due[i]];
      StableStep(due[..i], sorted, due[i], r);
      i := i + 1;
    }
    assert due[..i] == due;
    SortedInColumns(r);
  }

  lemma StableStep(done: seq<Record>, sorted: seq<Record>, rec: Record, r: seq<Record>)
    requires Stable(done, sorted) && Stable(sorted + [rec], r)
    ensures Stable(done + [rec], r)
  {
    forall at, id ensures Ties(r, at, id) == Ties(done + [rec], at, id) {
      TiesConcat(sorted, [rec], at, id);
      TiesConcat(done, [rec], at, id);
    }
  }

  /** The first of some records in order, as many as fit; none left out precedes one taken. */
  ghost predicate IsFirst(due: seq<Record>, limit: int, batch: seq<Record>) {
    && |batch| == (if limit <= 0 then 0 else if |due| < limit then |due| else limit)
    && Sorted(batch) && multiset(batch) <= multiset(due)
    && (forall rec, b :: rec in multiset(due) - multiset(batch) && b in batch ==> !Precedes(rec, b))
  }

  /** The batch Fetch promises: the earliest due records, as many as fit, in order. */
  ghost predicate IsBatch(s: seq<Record>, limit: int, now: int, batch: seq<Record>) {
    IsFirst(Due(s, now), limit, batch)
  }

  /**
   * The same in columns: due records in order of time, then id, each at most as often as it is stored; all of
   * them if they fit, otherwise none left out comes before one taken.
   */
  ghost predicate FirstDue(s: seq<Record>, limit: int, now: int, batch: seq<Record>) {
    && (forall i, j :: 0 <= i < j < |batch| ==> NotAfter(batch[i], batch[j]))
    && (forall rec :: rec in batch ==> rec.availableAt <= now)
    && multiset(batch) <= multiset(s)
    && |batch| <= (if limit <= 0 then 0 else limit)
    && (forall rec :: rec in multiset(s) - multiset(batch) && rec.availableAt <= now ==>
          limit <= |batch| && forall b :: b in batch ==> NotAfter(b, rec))
  }

  lemma BatchIsFirstDue(s: seq<Record>, limit: int, now: int, batch: seq<Record>)
    requires IsBatch(s, limit, now, batch)
    ensures FirstDue(s, limit, now, batch)
  {
    var due := Due(s, now);
    SortedInColumns(batch);
    DueCounts(s, now);
    forall rec | rec in batch ensures rec.availableAt <= now {
      assert rec in multiset(due);
    }
    forall rec | rec in multiset(s) - multiset(batch) && rec.availableAt <= now
      ensures limit <= |batch| && forall b :: b in batch ==> NotAfter(b, rec)
    {
      assert rec in multiset(due) - multiset(batch);
      LeftOutMeansFull(due, batch, rec);
      forall b | b in batch ensures NotAfter(b, rec) {
        NotAfterIsOrder(b, rec);
      }
    }
  }

  lemma LeftOutMeansFull(due: seq<Record>, batch: seq<Record>, rec: Record)
    requires multiset(batch) <= multiset(due) && rec in multiset(due) - multiset(batch)
    ensures |batch| < |due|
  {
    assert multiset(due) == multiset(batch) + (multiset(due) - multiset(batch));
    assert |multiset(due)| == |multiset(batch)| + |multiset(due) - multiset(batch)|;
  }

  lemma SortedCut(batch: seq<Record>, rest: seq<Record>)
    requires Sorted(batch + rest)
    ensures Sorted(batch) && forall rec, b :: rec in rest && b in batch ==> !Precedes(rec, b)
  {
    var all := batch + rest;
    forall i, j | 0 <= i < j < |batch| ensures !Precedes(batch[j], batch[i]) {
      assert all[i] == batch[i] && all[j] == batch[j];
    }
    forall rec, b | rec in rest && b in batch ensures !Precedes(rec, b) {
      var j :| 0 <= j < |rest| && rest[j] == rec;
      var i :| 0 <= i < |batch| && batch[i] == b;
      assert all[|batch| + j] == rec && all[i] == b;
    }
  }

  lemma CutIsFirst(due: seq<Record>, limit: int, sorted: seq<Record>, n: nat)
    requires 0 < limit && Sorted(sorted) && multiset(sorted) == multiset(due)
    requires n == if |sorted| < limit then |sorted| else limit
    ensures IsFirst(due, limit, sorted[..n])
  {
    var batch, rest := sorted[..n], sorted[n..];
    assert |sorted| == |multiset(sorted)| == |multiset(due)| == |due|;
    assert sorted == batch + rest;
    SortedCut(batch, rest);
    assert multiset(due) == multiset(batch) + multiset(rest);
    forall rec, b | rec in multiset(due) - multiset(batch) && b in batch ensures !Precedes(rec, b) {
      assert rec in multiset(rest);
      assert rec in rest;
    }
  }

  // ----- The record list under the three settlement calls -----

  /** The first record with this id is taken out. */
  function Remove(s: seq<Record>, id: string): seq<Record> {
    if s == [] then [] else if s[0].id == id then s[1..] else [s[0]] + Remove(s[1..], id)
  }

  /** The first record with this id has one more attempt behind it and waits until `nextAt`. */
  function Postpone(s: seq<Record>, id: string, nextAt: int): seq<Record> {
    if s == [] then []
    else if s[0].id == id then [s[0].(attempts := s[0].attempts + 1, availableAt := nextAt)] + s[1..]
    else [s[0]] + Postpone(s[1..], id, nextAt)
  }

  lemma {:induction false} RemoveAt(s: seq<Record>, id: string, i: nat)
    requires i < |s| && s[i].id == id && forall k :: 0 <= k < i ==> s[k].id != id
    ensures Remove(s, id) == s[..i] + s[i + 1..]
  {
    if i > 0 {
      RemoveAt(s[1..], id, i - 1);
    }
  }

  lemma {:induction false} PostponeAt(s: seq<Record>, id: string, nextAt: int, i: nat)
    requires i < |s| && s[i].id == id && forall k :: 0 <= k < i ==> s[k].id != id
    ensures Postpone(s, id, nextAt) == s[i := s[i].(attempts := s[i].attempts + 1, availableAt := nextAt)]
  {
    if i > 0 {
      PostponeAt(s[1..], id, nextAt, i - 1);
    }
  }

  lemma {:induction false} AbsentId(s: seq<Record>, id: string, nextAt: int)
    requires forall k :: 0 <= k < |s| ==> s[k].id != id
    ensures Remove(s, id) == s && Postpone(s, id, nextAt) == s
  {
    if s != [] {
      AbsentId(s[1..], id, nextAt);
    }
  }

  /** The record an id names: the first one that carries it. */
  function Find(s: seq<Record>, id: string): Option<Record> {
    if s == [] then None else if s[0].id == id then Some(s[0]) else Find(s[1..], id)
  }

  lemma {:induction false} FindAt(s: seq<Record>, id: string, i: nat)
    requires i <= |s| && (i < |s| ==> s[i].id == id) && forall k :: 0 <= k < i ==> s[k].id != id
    ensures Find(s, id) == if i < |s| then Some(s[i]) else None
  {
    if i > 0 {
      FindAt(s[1..], id, i - 1);
    }
  }

  lemma NewIdsDistinct(before: seq<Record>, after: seq<Record>, ids: seq<string>)
    requires before <= after && |after| == |before| + |ids|
    requires forall k :: 0 <= k < |ids| ==> after[|before| + k].id == ids[k]
    ensures DistinctIds(before) && Distinct(ids) && (forall rec :: rec in before ==> rec.id !in ids) ==> DistinctIds(after)
  {
    if DistinctIds(before) && Distinct(ids) && forall rec :: rec in before ==> rec.id !in ids {
      forall i, j | 0 <= i < j < |after| ensures after[i].id != after[j].id {
        if |before| <= j {
          assert after[j].id == ids[j - |before|];
          if i < |before| {
            assert after[i] == before[i] && before[i] in before;
          } else {
            assert after[i].id == ids[i - |before|];
          }
        }
      }
    }
  }

  class Memory {
    var records: seq<Record>
    var dlq: map<string, DeadLetter>
    const maxSize: int
    const journal: Journal

    constructor (maxSize: int, journal: Journal)
      ensures this.maxSize == maxSize && this.journal == journal && records == [] && dlq == map[]
    {
      this.maxSize, this.journal, records, dlq := maxSize, journal, [], map[];
    }

    /**
     * All or nothing: the whole batch is appended, or an event does not encode, or the cap is hit. `encodes`
     * says which events the codec accepts, `ids` are what idGen returns.
     */
    method Stage(events: seq<Event>, encodes: seq<bool>, ids: seq<string>, now: int) returns (r: Result<(), StageError>)
      requires |ids| == |events| == |encodes|
      modifies this`records
      ensures r == if events == [] then Ok(()) else if false in encodes then Err(MarshalFailed)
                   else if maxSize > 0 && |old(records)| + |events| > maxSize then Err(OutboxFull) else Ok(())
      ensures r.Err? ==> records == old(records)
      ensures r.Ok? ==> |records| == |old(records)| + |events| && old(records) <= records
      ensures r.Ok? ==> forall k :: 0 <= k < |events| ==>
                          records[|old(records)| + k] == Record(ids[k], events[k], now, now, 0)
      ensures DistinctIds(old(records)) && Distinct(ids) && (forall rec :: rec in old(records) ==> rec.id !in ids)
              ==> DistinctIds(records)
    {
      if |events| == 0 {
        return Ok(());
      }
      var i := 0;
      while i < |events|
        invariant 0 <= i <= |events| && false !in encodes[..i]
      {
        if !encodes[i] {
          return Err(MarshalFailed);
        }
        i := i + 1;
      }
      assert encodes[..i] == encodes;
      if maxSize > 0 && |records| + |events| > maxSize {
        return Err(OutboxFull);
      }
      i := 0;
      while i < |events|
        invariant 0 <= i <= |events|
        invariant |records| == |old(records)| + i && old(records) <= records
        invariant forall k :: 0 <= k < i ==> records[|old(records)| + k] == Record(ids[k], events[k], now, now, 0)
      {
        records := records + [Record(ids[i], events[i], now, now, 0)];
        i := i + 1;
      }
      NewIdsDistinct(old(records), records, ids);
      return Ok(());
    }

    /** Reads only. */
    method Fetch(limit: int, now: int) returns (out: seq<Record>)
      ensures IsBatch(records, limit, now, out) && FirstDue(records, limit, now, out)
    {
      if limit <= 0 {
        BatchIsFirstDue(records, limit, now, []);
        return [];
      }
      var due := [];
      var i := 0;
      while i < |records|
        invariant 0 <= i <= |records|
        invariant due == Due(records[..i], now)
      {
        assert records[..i + 1][..i] == records[..i];
        if records[i].availableAt <= now {
          due := due + [records[i]];
        }
        i := i + 1;
      }
      assert records[..i] == records;
      var sorted := SortDue(due);
      var n := if |sorted| > limit then limit else |sorted|;
      CutIsFirst(due, limit, sorted, n);
      BatchIsFirstDue(records, limit, now, sorted[..n]);
      return sorted[..n];
    }

    method MarkSent(id: string)
      modifies this`records, journal
      ensures records == Remove(old(records), id)
      ensures journal.entries == old(journal.entries) + if Find(old(records), id).Some? then [Removed(id)] else []
    {
      var i := 0;
      while i < |records|
        invariant 0 <= i <= |records| && records == old(records) && journal.entries == old(journal.entries)
        invariant forall k :: 0 <= k < i ==> records[k].id != id
      {
        if records[i].id == id {
          RemoveAt(records, id, i);
          FindAt(records, id, i);
          records := records[..i] + records[i + 1..];
          journal.Add([Removed(id)]);
          return;
        }
        i := i + 1;
      }
      AbsentId(records, id, 0);
      FindAt(records, id, i);
    }

    method MarkFailed(id: string, nextAt: int)
      modifies this`records, journal
      ensures records == Postpone(old(records), id, nextAt)
      ensures journal.entries == old(journal.entries) + if Find(old(records), id).Some? then [Postponed(id)] else []
    {
      var i := 0;
      while i < |records|
        invariant 0 <= i <= |records| && records == old(records) && journal.entries == old(journal.entries)
        invariant forall k :: 0 <= k < i ==> records[k].id != id
      {
        if records[i].id == id {
          PostponeAt(records, id, nextAt, i);
          FindAt(records, id, i);
          records := records[i := records[i].(attempts := records[i].attempts + 1, availableAt := nextAt)];
          journal.Add([Postponed(id)]);
          return;
        }
        i := i + 1;
      }
      AbsentId(records, id, nextAt);
      FindAt(records, id, i);
    }

    method Terminate(id: string, reason: string, now: int)
      modifies this, journal
      ensures records == Remove(old(records), id)
      ensures journal.entries == old(journal.entries) + if Find(old(records), id).Some? then [Buried(id)] else []
      ensures dlq == match Find(old(records), id)
                     case None => old(dlq)
                     case Some(rec) => old(dlq)[id := DeadLetter(rec, reason, now, rec.attempts + 1)]
    {
      var i := 0;
      while i < |records|
        invariant 0 <= i <= |records| && records == old(records) && dlq == old(dlq)
        invariant journal.entries == old(journal.entries)
        invariant forall k :: 0 <= k < i ==> records[k].id != id
      {
        if records[i].id == id {
          RemoveAt(records, id, i);
          FindAt(records, id, i);
          var rec := records[i];
          records := records[..i] + records[i + 1..];
          dlq := dlq[id := DeadLetter(rec, reason, now, rec.attempts + 1)];
          journal.Add([Buried(id)]);
          return;
        }
        i := i + 1;
      }
      AbsentId(records, id, 0);
      FindAt(records, id, i);
    }
  }
}
