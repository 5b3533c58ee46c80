/** The record id the Postgres store hands out: "<dbid>:<claim token>". */
module RecordId {
  import opened Wrappers
  import opened Decimal

  datatype IdError = MalformedId

  predicate IsHex(c: char) {
    '0' <= c <= '9' || 'a' <= c <= 'f' || 'A' <= c <= 'F'
  }

  predicate AllHex(s: string) {
    forall i :: 0 <= i < |s| ==> IsHex(s[i])
  }

  /** The text form of section 4 of RFC 9562: 8-4-4-4-12 hex digits. */
  predicate UuidShape(s: string) {
    && |s| == 36
    && s[8] == '-' && s[13] == '-' && s[18] == '-' && s[23] == '-'
    && AllHex(s[..8]) && AllHex(s[9..13]) && AllHex(s[14..18]) && AllHex(s[19..23]) && AllHex(s[24..])
  }

  /** Position by position: dashes at 8, 13, 18 and 23, a hex digit of either case everywhere else. */
  lemma UuidByPosition(s: string)
    ensures UuidShape(s) <==>
            && |s| == 36
            && forall i :: 0 <= i < 36 ==>
                 if i in {8, 13, 18, 23} then s[i] == '-'
                 else '0' <= s[i] <= '9' || 'a' <= s[i] <= 'f' || 'A' <= s[i] <= 'F'
  {
    if UuidShape(s) {
      forall i | 0 <= i < 36 && i !in {8, 13, 18, 23} ensures IsHex(s[i]) {
        if i < 8 { assert s[..8][i] == s[i]; }
        else if i < 13 { assert s[9..13][i - 9] == s[i]; }
        else if i < 18 { assert s[14..18][i - 14] == s[i]; }
        else if i < 23 { assert s[19..23][i - 19] == s[i]; }
        else { assert s[24..][i - 24] == s[i]; }
      }
    }
  }

  /** strings.LastIndex(s, ":"), or -1. */
  function LastColon(s: string): (k: int)
    ensures -1 <= k < |s|
    ensures k >= 0 ==> s[k] == ':'
    ensures forall i :: k < i < |s| ==> s[i] != ':'
  {
    if s == [] then -1
    else if s[|s| - 1] == ':' then |s| - 1
    else LastColon(s[..|s| - 1])
  }

  function EncodeId(dbId: int, token: string): string {
    FormatInt(dbId) + ":" + token
  }

  /** "<dbid>:<UUID>", the number in canonical decimal. */
  lemma EncodedShape(dbId: int, token: string)
    ensures var id := EncodeId(dbId, token);
            && |id| > |token| && id[|id| - |token|..] == token && id[|id| - |token| - 1] == ':'
            && id[..|id| - |token| - 1] == FormatInt(dbId)
  {
  }

  function ParseId(id: string): Result<(int, string), IdError> {
    var k := LastColon(id);
    if k <= 0 || k == |id| - 1 then Err(MalformedId) else
      match ParseInt(id[..k])
      case None => Err(MalformedId)
      case Some(dbId) =>
        var token := id[k + 1..];
        if UuidShape(token) then Ok((dbId, token)) else Err(MalformedId)
  }

  lemma UuidHasNoColon(s: string)
    requires UuidShape(s)
    ensures ':' !in s
  {
    forall i | 0 <= i < |s| ensures s[i] != ':' {
      if i < 8 { assert s[..8][i] == s[i]; }
      else if 8 < i < 13 { assert s[9..13][i - 9] == s[i]; }
      else if 13 < i < 18 { assert s[14..18][i - 14] == s[i]; }
      else if 18 < i < 23 { assert s[19..23][i - 19] == s[i]; }
      else if 23 < i { assert s[24..][i - 24] == s[i]; }
    }
  }

  lemma ColonBefore(head: string, token: string)
    requires ':' !in token
    ensures var id := head + ":" + token;
            LastColon(id) == |head| && id[..|head|] == head && id[|head| + 1..] == token
  {
    var id := head + ":" + token;
    assert id[|head|] == ':';
    forall i | |head| < i < |id| ensures id[i] != ':' {
      assert id[i] == token[i - |head| - 1];
    }
  }

  lemma WellFormedAccepted(head: string, dbId: int, token: string)
    requires ParseInt(head) == Some(dbId) && UuidShape(token)
    ensures ParseId(head + ":" + token) == Ok((dbId, token))
  {
    UuidHasNoColon(token);
    ColonBefore(head, token);
    assert head != [];
  }

  /** What is accepted, stated on the string: a base-10 int64, a colon, a token. */
  lemma AcceptedIffWellFormed(id: string, dbId: int, token: string)
    ensures ParseId(id) == Ok((dbId, token)) <==>
            exists head :: id == head + ":" + token && ParseInt(head) == Some(dbId) && UuidShape(token)
  {
    if ParseId(id) == Ok((dbId, token)) {
      var k := LastColon(id);
      assert id == id[..k] + ":" + token;
    }
    if head :| id == head + ":" + token && ParseInt(head) == Some(dbId) && UuidShape(token) {
      WellFormedAccepted(head, dbId, token);
    }
  }

  /** ParseId undoes EncodeId for every int64, negative ones and the least one included. */
  lemma EncodeThenParse(dbId: int, token: string)
    requires IsInt64(dbId) && UuidShape(token)
    ensures ParseId(EncodeId(dbId, token)) == Ok((dbId, token))
  {
    ParseFormat(dbId);
    WellFormedAccepted(FormatInt(dbId), dbId, token);
  }

  /** Any accepted id, canonical or not, names the same row and claim once it is re-encoded. */
  lemma ParseThenEncode(id: string)
    requires ParseId(id).Ok?
    ensures var (dbId, token) := ParseId(id).value;
            IsInt64(dbId) && UuidShape(token) && ParseId(EncodeId(dbId, token)) == ParseId(id)
  {
    var (dbId, token) := ParseId(id).value;
    EncodeThenParse(dbId, token);
  }

  // ----- The uuid column -----

  /** The uuid type ignores letter case; its text form is lower-case. */
  function LowerHex(c: char): char {
    if 'A' <= c <= 'F' then (c as int + 32) as char else c
  }

  /** Only the six upper-case hex letters change, each to its lower-case form. */
  lemma LowerHexInCases(c: char)
    ensures LowerHex(c) as int == if 'A' <= c <= 'F' then c as int + 32 else c as int
    ensures 'A' as int + 32 == 'a' as int && 'F' as int + 32 == 'f' as int
  {
  }

  function Lower(s: string): (r: string)
    ensures |r| == |s| && forall i :: 0 <= i < |s| ==> r[i] == LowerHex(s[i])
  {
    seq(|s|, i requires 0 <= i < |s| => LowerHex(s[i]))
  }

  /** claim_token::text */
  predicate UuidText(token: string) {
    UuidShape(token) && Lower(token) == token
  }

  /** A record id leads the settlement calls to this row and this claim. */
  ghost predicate Addresses(recordId: string, dbId: int, token: string) {
    ParseId(recordId).Ok? && ParseId(recordId).value.0 == dbId && Lower(ParseId(recordId).value.1) == token
  }

  /** An id addresses its row and claim in every spelling of its token. */
  lemma EverySpellingAddresses(dbId: int, token: string, spelled: string)
    requires IsInt64(dbId) && UuidShape(spelled) && Lower(spelled) == token
    ensures Addresses(EncodeId(dbId, spelled), dbId, token)
  {
    EncodeThenParse(dbId, spelled);
  }
}
