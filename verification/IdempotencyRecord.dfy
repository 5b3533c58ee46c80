/** One idempotency record: absent, reserved under a lease token, or completed with a stored response. */
module IdempotencyRecord {
  import opened Wrappers

  type Token = string
  type Time = int

  datatype Entry =
    | InProgress(fp: string, token: Token, expireAt: Time)
    | Completed(fp: string, resp: string, expireAt: Time)

  datatype BeginReply =
    | StatusNew(token: Token)
    | StatusInProgress
    | StatusCompleted(response: string)
    | StatusMismatch

  /** A key exists strictly before its expiry instant; Redis drops it from then on. */
  function Live(e: Option<Entry>, now: Time): Option<Entry> {
    if e.Some? && now < e.value.expireAt then e else None
  }

  function Begin(e: Option<Entry>, fp: string, token: Token, lease: nat, now: Time): (Option<Entry>, BeginReply) {
    match Live(e, now)
    case None => (Some(InProgress(fp, token, now + lease)), StatusNew(token))
    case Some(entry) =>
      (e, if entry.fp != fp then StatusMismatch
          else if entry.InProgress? then StatusInProgress
          else StatusCompleted(entry.resp))
  }

  /** A lease token still opens the record. */
  predicate Opens(e: Option<Entry>, token: Token, now: Time) {
    Live(e, now).Some? && e.value.InProgress? && e.value.token == token
  }

  /** The second component says whether the call was applied; if not, it is a conflict. */
  function Finish(e: Option<Entry>, token: Token, resp: string, retention: nat, now: Time): (Option<Entry>, bool) {
    if Opens(e, token, now) then (Some(Completed(e.value.fp, resp, now + retention)), true) else (e, false)
  }

  function Cancel(e: Option<Entry>, token: Token, now: Time): (Option<Entry>, bool) {
    if Opens(e, token, now) then (None, true) else (e, false)
  }
}
