/** The flat Redis keys of the idempotency store, the cache and the rate limiter. */
module RedisKeys {
  import opened Decimal

  datatype Key = Key(prefix: string, scope: string, key: string)

  /** idempotency: both the prefix and the scope carry their length. */
  function CompositeKey(k: Key): string {
    Itoa(|k.prefix|) + ":" + k.prefix + ":" + Itoa(|k.scope|) + ":" + k.scope + k.key
  }

  /** cache and rate limiter: "%d:%s:%s". */
  function Encode(prefix: string, key: string): string {
    Itoa(|prefix|) + ":" + prefix + ":" + key
  }

  /** The layouts of the keys, on one example each. */
  lemma KeyLayouts()
    ensures CompositeKey(Key("idem", "s", "k")) == "4:idem:1:sk"
    ensures CompositeKey(Key("x", "", ":1:bc")) == "1:x:0::1:bc"
    ensures Encode("a", "b:c") == "1:a:b:c" && Encode("", "k") == "0::k"
  {
    assert Itoa(4) == "4" && Itoa(1) == "1" && Itoa(0) == "0";
  }

  /** A key is its header, its prefix, and then the rest, whatever the rest is. */
  lemma KeyParts(k: Key)
    ensures CompositeKey(k) == Encode(k.prefix, Encode(k.scope, "")[..|Itoa(|k.scope|)| + 1 + |k.scope|] + k.key)
    ensures Encode(k.prefix, k.key)[..|Itoa(|k.prefix|)|] == Itoa(|k.prefix|)
    ensures Encode(k.prefix, k.key)[|Itoa(|k.prefix|)|..] == ":" + k.prefix + ":" + k.key
  {
    var n := Itoa(|k.scope|);
    assert Encode(k.scope, "")[..|n| + 1 + |k.scope|] == n + ":" + k.scope;
    var rest := n + ":" + k.scope + k.key;
    assert CompositeKey(k) == Itoa(|k.prefix|) + ":" + k.prefix + ":" + rest;
  }

  lemma SplitAt<T>(a: seq<T>, b: seq<T>, x: seq<T>, y: seq<T>)
    requires |a| == |b| && a + x == b + y
    ensures a == b && x == y
  {
    assert a == (a + x)[..|a|] && b == (b + y)[..|b|];
    assert x == (a + x)[|a|..] && y == (b + y)[|b|..];
  }

  lemma EncodeInjective(p: string, k: string, p': string, k': string)
    requires Encode(p, k) == Encode(p', k')
    ensures p == p' && k == k'
  {
    assert Encode(p, k) == Itoa(|p|) + ":" + (p + (":" + k));
    assert Encode(p', k') == Itoa(|p'|) + ":" + (p' + (":" + k'));
    LengthHeader(|p|, |p'|, p + (":" + k), p' + (":" + k'));
    SplitAt(p, p', ":" + k, ":" + k');
    SplitAt(":", ":", k, k');
  }

  /** Distinct (prefix, scope, key) triples never share a Redis key. */
  lemma CompositeKeyInjective(a: Key, b: Key)
    requires CompositeKey(a) == CompositeKey(b)
    ensures a == b
  {
    var ra, rb := Itoa(|a.scope|) + ":" + (a.scope + a.key), Itoa(|b.scope|) + ":" + (b.scope + b.key);
    assert CompositeKey(a) == Encode(a.prefix, ra);
    assert CompositeKey(b) == Encode(b.prefix, rb);
    EncodeInjective(a.prefix, ra, b.prefix, rb);
    LengthHeader(|a.scope|, |b.scope|, a.scope + a.key, b.scope + b.key);
    SplitAt(a.scope, b.scope, a.key, b.key);
  }
}
