/**
 * The in-memory inbox: which events a consumer has handled, bounded by dropping the older half. With a
 * strictly increasing clock the most recently stamped keys always survive.
 */
module Inbox {
  import opened Wrappers

  datatype Key = Key(consumer: string, eventId: string)

  datatype Stamp = Stamp(key: Key, at: int)

  // ----- The insertion sort -----

  predicate SortedFrom(s: seq<Stamp>, lo: nat, hi: nat) {
    forall i, j :: lo <= i < j < hi && j < |s| ==> s[i].at <= s[j].at
  }

  method Swap(a: array<Stamp>, i: nat, j: nat)
    requires i < j < a.Length
    modifies a
    ensures a[..] == old(a[..])[i := old(a[j])][j := old(a[i])]
    ensures multiset(a[..]) == old(multiset(a[..]))
  {
    a[i], a[j] := a[j], a[i];
  }

  /** Sorted by time apart from the element at `hole`, which is no later than anything after it up to `hi`. */
  predicate SortedAround(s: seq<Stamp>, hole: nat, hi: nat) {
    forall i, j :: 0 <= i < j < hi && j < |s| && j != hole ==> s[i].at <= s[j].at
  }

  /** Oldest first. */
  method SortByTime(a: array<Stamp>)
    modifies a
    ensures SortedFrom(a[..], 0, a.Length)
    ensures multiset(a[..]) == old(multiset(a[..]))
  {
    var i := 1;
    while i < a.Length
      invariant 1 <= i
      invariant SortedFrom(a[..], 0, if i <= a.Length then i else a.Length)
      invariant multiset(a[..]) == old(multiset(a[..]))
    {
      var j := i;
      while j > 0 && a[j - 1].at > a[j].at
        invariant 0 <= j <= i < a.Length
        invariant SortedAround(a[..], j, i + 1)
        invariant multiset(a[..]) == old(multiset(a[..]))
      {
        Swap(a, j - 1, j);
        j := j - 1;
      }
      i := i + 1;
    }
  }

  // ----- From the map to the slice and back -----

  predicate DistinctKeys(s: seq<Stamp>) {
    forall i, j :: 0 <= i < j < |s| ==> s[i].key != s[j].key
  }

  /** The slice holds exactly the map's entries. */
  ghost predicate Lists(s: seq<Stamp>, m: map<Key, int>) {
    && DistinctKeys(s) && |s| == |m|
    && (forall k :: k in m <==> exists i :: 0 <= i < |s| && s[i].key == k)
    && (forall i :: 0 <= i < |s| ==> s[i].key in m && s[i].at == m[s[i].key])
  }

  lemma NoRepeats(s: seq<Stamp>, t: seq<Stamp>)
    requires multiset(s) == multiset(t) && DistinctKeys(s)
    ensures DistinctKeys(t)
  {
    forall i, j | 0 <= i < j < |t| ensures t[i].key != t[j].key {
      if t[i].key == t[j].key {
        assert t[i] in multiset(s) && t[j] in multiset(s);
        var k :| 0 <= k < |s| && s[k] == t[i];
        var l :| 0 <= l < |s| && s[l] == t[j];
        assert k == l;
        Repeated(t, i, j);
        Single(s, k);
      }
    }
  }

  lemma SortedLists(s: seq<Stamp>, t: seq<Stamp>, m: map<Key, int>)
    requires Lists(s, m) && multiset(s) == multiset(t)
    ensures Lists(t, m)
  {
    assert |multiset(s)| == |multiset(t)|;
    forall x ensures x in s <==> x in t {
      assert x in multiset(s) <==> x in multiset(t);
    }
    NoRepeats(s, t);
    forall k ensures k in m <==> exists i :: 0 <= i < |t| && t[i].key == k {
      if k in m {
        var i :| 0 <= i < |s| && s[i].key == k;
        assert s[i] in t;
      }
      if i :| 0 <= i < |t| && t[i].key == k {
        assert t[i] in s;
      }
    }
    forall i | 0 <= i < |t| ensures t[i].key in m && t[i].at == m[t[i].key] {
      assert t[i] in s;
    }
  }

  method Collect(m: map<Key, int>) returns (all: seq<Stamp>)
    ensures Lists(all, m)
  {
    all := [];
    var left := m.Keys;
    while left != {}
      invariant left <= m.Keys && |all| + |left| == |m|
      invariant DistinctKeys(all)
      invariant forall k :: k in m && k !in left <==> exists i :: 0 <= i < |all| && all[i].key == k
      invariant forall i :: 0 <= i < |all| ==> all[i].key in m && all[i].at == m[all[i].key]
      decreases |left|
    {
      var k :| k in left;
      assert forall i :: 0 <= i < |all| ==> all[i].key != k;
      ghost var before := all;
      all := all + [Stamp(k, m[k])];
      left := left - {k};
      forall x ensures x in m && x !in left <==> exists i :: 0 <= i < |all| && all[i].key == x {
        if x == k {
          assert all[|before|].key == k;
        } else if i :| 0 <= i < |before| && before[i].key == x {
          assert all[i].key == x;
        }
      }
    }
  }

  method SortedEntries(m: map<Key, int>) returns (all: seq<Stamp>)
    ensures Lists(all, m) && SortedFrom(all, 0, |all|)
  {
    var entries := Collect(m);
    var a := new Stamp[|entries|](i requires 0 <= i < |entries| => entries[i]);
    assert a[..] == entries;
    SortByTime(a);
    SortedLists(entries, a[..], m);
    all := a[..];
  }

  class Memory {
    var seenAt: map<Key, int>
    const maxSize: int
    const ttl: int
    /** When each key was last stamped, evicted keys included, and a time no stamp is later than. */
    ghost var stamped: map<Key, int>
    ghost var clock: int

    constructor (maxSize: int, ttl: nat)
      ensures Valid() && this.maxSize == maxSize && this.ttl == ttl && seenAt == map[] && stamped == map[] && clock == 0
    {
      this.maxSize, this.ttl, seenAt := maxSize, ttl, map[];
      stamped, clock := map[], 0;
    }

    ghost predicate Valid()
      reads this
    {
      0 <= ttl && Traces(maxSize, seenAt, stamped, clock) && (maxSize > 0 ==> |seenAt| <= maxSize)
    }

    /** Whether the key counts as handled at `now`: recorded, and not longer ago than the ttl. */
    method Seen(key: Key, now: int) returns (seen: bool)
      ensures seen <==> key in seenAt && (ttl > 0 ==> now - seenAt[key] <= ttl)
    {
      if key !in seenAt {
        return false;
      }
      if ttl > 0 && now - seenAt[key] > ttl {
        return false;
      }
      return true;
    }

    /**
     * Stamps the key unless a stamp within the ttl exists. `check` and `stamp` are the two clock readings.
     * Afterwards every key with at most maxSize/2 newer ones is present, so the newest maxSize/2 + 1 are,
     * and the key just stamped is among them. Nothing is dropped while the size stays within the limit.
     */
    method Record(key: Key, check: int, stamp: int)
      requires Valid() && clock < stamp
      modifies this
      ensures Valid() && old(clock) <= clock <= stamp
      ensures var kept := key in old(seenAt) && (ttl == 0 || check - old(seenAt)[key] <= ttl);
              if kept then seenAt == old(seenAt) && stamped == old(stamped)
              else
                && stamped == old(stamped)[key := stamp] && clock == stamp && key in seenAt && seenAt[key] == stamp
                && (|old(seenAt)[key := stamp]| <= maxSize ==> seenAt == old(seenAt)[key := stamp])
      ensures forall k :: k in stamped && |Newer(stamped, k)| <= maxSize / 2 ==> k in seenAt && seenAt[k] == stamped[k]
      ensures maxSize <= 0 ==> seenAt == stamped
    {
      if key in seenAt {
        if ttl == 0 || check - seenAt[key] <= ttl {
          AllKept(maxSize, seenAt, stamped, clock);
          return;
        }
      }
      StampTraced(maxSize, seenAt, stamped, clock, key, stamp);
      seenAt := seenAt[key := stamp];
      stamped, clock := stamped[key := stamp], stamp;
      if maxSize > 0 && |seenAt| > maxSize {
        ghost var full := seenAt;
        EvictOldestHalf();
        EvictionTraced(maxSize, full, seenAt, stamped, clock);
      }
      NewestKept(maxSize, seenAt, stamped, clock, key);
      AllKept(maxSize, seenAt, stamped, clock);
    }

    /** Deletes the older half of the entries; among equally old ones map iteration order decides. */
    method EvictOldestHalf()
      modifies this`seenAt
      ensures seenAt.Keys <= old(seenAt).Keys && forall k :: k in seenAt ==> seenAt[k] == old(seenAt)[k]
      ensures |seenAt| == |old(seenAt)| - |old(seenAt)| / 2
      ensures forall d, k :: d in old(seenAt) && d !in seenAt && k in seenAt ==> old(seenAt)[d] <= old(seenAt)[k]
    {
      var all := SortedEntries(seenAt);
      ghost var m := seenAt;
      DropFirst(all, |all| / 2);
      OlderDropped(all, m, seenAt.Keys, |all| / 2);
    }

    /** The delete loop. */
    method DropFirst(all: seq<Stamp>, cutoff: nat)
      requires cutoff <= |all| && DistinctKeys(all) && forall j :: 0 <= j < |all| ==> all[j].key in seenAt
      modifies this`seenAt
      ensures seenAt.Keys <= old(seenAt).Keys && forall k :: k in seenAt ==> seenAt[k] == old(seenAt)[k]
      ensures |seenAt| == |old(seenAt)| - cutoff
      ensures forall j :: 0 <= j < |all| ==> (all[j].key in seenAt <==> cutoff <= j)
    {
      var i := 0;
      while i < cutoff
        invariant 0 <= i <= cutoff
        invariant seenAt.Keys <= old(seenAt).Keys && forall k :: k in seenAt ==> seenAt[k] == old(seenAt)[k]
        invariant |seenAt| == |old(seenAt)| - i
        invariant forall j :: 0 <= j < |all| ==> (all[j].key in seenAt <==> i <= j)
      {
        seenAt := seenAt - {all[i].key};
        i := i + 1;
      }
    }
  }

  lemma Fewer<T>(a: set<T>, b: set<T>)
    requires a <= b
    ensures |a| <= |b|
  {
    assert b == a + (b - a);
  }

  /** The inbox is a part of the stamp history, and no two stamps have the same time. */
  ghost predicate Recorded(seenAt: map<Key, int>, stamped: map<Key, int>, clock: int) {
    && (forall k :: k in seenAt ==> k in stamped && stamped[k] == seenAt[k])
    && (forall k :: k in stamped ==> stamped[k] <= clock)
    && (forall a, b :: a in stamped && b in stamped && stamped[a] == stamped[b] ==> a == b)
  }

  /** A key is missing only if enough newer ones exist. */
  ghost predicate MissingAreOld(maxSize: int, seenAt: map<Key, int>, stamped: map<Key, int>) {
    forall k :: k in stamped && k !in seenAt ==> maxSize > 0 && |Newer(stamped, k)| > maxSize / 2
  }

  ghost predicate Traces(maxSize: int, seenAt: map<Key, int>, stamped: map<Key, int>, clock: int) {
    Recorded(seenAt, stamped, clock) && MissingAreOld(maxSize, seenAt, stamped)
  }

  /** A stamp with the latest time never takes newer keys away from another key. */
  lemma NewerGrows(stamped: map<Key, int>, key: Key, stamp: int)
    requires forall k :: k in stamped ==> stamped[k] < stamp
    ensures forall k :: k in stamped && k != key ==> |Newer(stamped, k)| <= |Newer(stamped[key := stamp], k)|
  {
    forall k | k in stamped && k != key ensures |Newer(stamped, k)| <= |Newer(stamped[key := stamp], k)| {
      Fewer(Newer(stamped, k), Newer(stamped[key := stamp], k));
    }
  }

  lemma StampCovered(maxSize: int, seenAt: map<Key, int>, stamped: map<Key, int>, key: Key, stamp: int)
    requires MissingAreOld(maxSize, seenAt, stamped) && forall k :: k in stamped ==> stamped[k] < stamp
    ensures MissingAreOld(maxSize, seenAt[key := stamp], stamped[key := stamp])
  {
    var later := stamped[key := stamp];
    forall k | k in later && k !in seenAt[key := stamp] ensures maxSize > 0 && |Newer(later, k)| > maxSize / 2 {
      NewerGrows(stamped, key, stamp);
    }
  }

  lemma StampTraced(maxSize: int, seenAt: map<Key, int>, stamped: map<Key, int>, clock: int, key: Key, stamp: int)
    requires Traces(maxSize, seenAt, stamped, clock) && clock < stamp
    ensures Traces(maxSize, seenAt[key := stamp], stamped[key := stamp], stamp)
    ensures |seenAt[key := stamp]| <= |seenAt| + 1
  {
    StampCovered(maxSize, seenAt, stamped, key, stamp);
  }

  lemma NewestKept(maxSize: int, seenAt: map<Key, int>, stamped: map<Key, int>, clock: int, key: Key)
    requires Traces(maxSize, seenAt, stamped, clock) && key in stamped && stamped[key] == clock
    ensures key in seenAt
  {
    assert Newer(stamped, key) == {};
  }

  lemma AllKept(maxSize: int, seenAt: map<Key, int>, stamped: map<Key, int>, clock: int)
    requires Traces(maxSize, seenAt, stamped, clock)
    ensures maxSize <= 0 ==> seenAt == stamped
  {
  }

  lemma EvictionTraced(maxSize: int, full: map<Key, int>, kept: map<Key, int>, stamped: map<Key, int>, clock: int)
    requires Traces(maxSize, full, stamped, clock)
    requires maxSize > 0 && |full| == maxSize + 1 && |kept| == |full| - |full| / 2
    requires kept.Keys <= full.Keys && forall k :: k in kept ==> kept[k] == full[k]
    requires forall d, k :: d in full && d !in kept && k in kept ==> full[d] <= full[k]
    ensures Traces(maxSize, kept, stamped, clock) && |kept| <= maxSize
  {
    // No two stamps have the same time.
    forall d, k | d in full && d !in kept && k in kept ensures full[d] < full[k] {
      assert d in stamped && k in stamped;
    }
    DroppedHaveNewer(stamped, full, kept, maxSize);
  }

  /** After an eviction the surviving half, maxSize/2 + 1 keys, is newer than every key dropped. */
  lemma DroppedHaveNewer(stamped: map<Key, int>, full: map<Key, int>, kept: map<Key, int>, maxSize: int)
    requires maxSize > 0 && |full| == maxSize + 1 && |kept| == |full| - |full| / 2
    requires kept.Keys <= full.Keys && forall k :: k in full ==> k in stamped && stamped[k] == full[k]
    requires forall d, k :: d in full && d !in kept && k in kept ==> full[d] < full[k]
    ensures |kept| <= maxSize
    ensures forall d :: d in full && d !in kept ==> |Newer(stamped, d)| > maxSize / 2
  {
    forall d | d in full && d !in kept ensures |Newer(stamped, d)| > maxSize / 2 {
      Fewer(kept.Keys, Newer(stamped, d));
    }
  }

  lemma OlderDropped(all: seq<Stamp>, m: map<Key, int>, kept: set<Key>, cutoff: nat)
    requires Lists(all, m) && SortedFrom(all, 0, |all|) && kept <= m.Keys
    requires forall j :: 0 <= j < |all| ==> (all[j].key in kept <==> cutoff <= j)
    ensures forall d, k :: d in m && d !in kept && k in kept ==> m[d] <= m[k]
  {
    forall d, k | d in m && d !in kept && k in kept ensures m[d] <= m[k] {
      var x :| 0 <= x < |all| && all[x].key == d;
      var y :| 0 <= y < |all| && all[y].key == k;
      assert x < cutoff <= y;
      assert all[x].at <= all[y].at;
    }
  }

  /** The keys stamped after `k` was. */
  function Newer(stamped: map<Key, int>, k: Key): set<Key>
    requires k in stamped
  {
    set x | x in stamped && stamped[x] > stamped[k]
  }
}
