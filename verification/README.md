# Outbox, idempotency, inbox, orders: a verified model

A Dafny model of the delivery core of the adapters repository, with proofs about every run.

* **Transactional outbox** (`OutboxTables`, `OutboxProtocol`). Any number of relays drain one Postgres table.
  The state is the two tables, the relays' in-memory batches, all settlement statements issued so far, and a log
  of what took effect. An issued statement may land at any later time, any number of times, or never; this covers
  lost, late and duplicated replies and crashed relays. A Fetch has its own `now()`, which may lie before the
  moment it lands, and skips an arbitrary set of locked rows. `OutboxSafety`, `OutboxLease`, `OutboxSchedule`,
  `OutboxErasure` and `OutboxProgress` prove the theorems. `OutboxSkipLocked` opens Fetch up: a snapshot, an ordered scan that locks
  row by row, skips what others hold and checks changed rows again, a stamp, a second sort. It shows that nothing
  is lost by treating Fetch as atomic, and says why a due row can be left out; `OutboxOvertaking` is a schedule that
  shows the odd case.
* **The code over it** (`RecordId`, `PgxStore`, `Backoff`, `RelayJournal`, `PgxRelay`): the store's methods, the
  publisher and the relay loop as classes. Between any two actions of the loop everybody else may take any number
  of protocol steps; the loop's own turns, and the journal of what it publishes and settles, are shown to be those
  of a run of the protocol. `MemoryOutbox` and `MemoryRelay` are the in-process store and the relay over it, with
  the termination argument for draining.
* **Orders** (`Order`, `OrderHandlers`, `OrderSystem`): the aggregate, the handlers and `WithinTx` as classes; and a
  protocol in which api handlers, worker handlers and relays interleave over one database, Ship reading outside
  its transaction.
* **Idempotency** (`IdempotencyRecord`, `IdempotencyProtocol`, `IdempotencySafety`, `IdempotencyGrants`,
  `IdempotencyReplies`, `RedisKeys`, `RedisStore`): the record's state machine under late and repeated commands and
  guessed tokens; what becomes of every grant; every answer told from the history of grants; the Lua scripts over hashes under flat keys, and the store that calls them, which move as the
  protocol does.
* **Inbox** (`Inbox`) and **Kafka consumers** (`KafkaPipeline`, `KafkaLifecycle`).

A function that a method is proved against is also written out by itself, column by column or case by case, in lemmas
named `...InColumns` and `...InCases` and a few others beside it, so that code and specification cannot be wrong
together.

`dafny verify dfyconfig.toml` checks everything.

## Assumptions

* Tokens from `gen_random_uuid()` and `crypto/rand` never repeat one minted or guessed before; row ids are unique. A
  Begin command with its token may be executed any number of times.
* Clocks do not go back; the inbox clock strictly increases and its ttl is not negative.
* An aggregate's version starts at 0 and each increment adds one (`BaseAggregate` is not part of this model).
* A Redis key lives strictly before its expiry instant. Strings are byte strings: one `char` is one byte.
* All relays share one retry cap, as does every deployment in the repository.

## Where code and prose differ

The model follows the code.

* `eventbus/outbox/relay.go:70-72` says the failure after Attempts has reached the cap goes to the dead letters. The
  code terminates on the failure that would make it reach the cap (line 235), so an active row never has that many
  attempts; `OutboxSafety.RetryBudgetExact` states this.
* `eventbus/inbox/memory.go:46-47` says eviction happens when the map reaches the limit. The code evicts only when a
  stamp takes it above the limit (line 114); `Inbox.Memory.Record` states that nothing is dropped before.
* `eventbus/outbox/pgx/sql.go:35-38` says the outer ORDER BY gives the lock order. It does unless a locked row changed
  between the snapshot and its lock and traded places with another: `OutboxOvertaking.LockOrderIsLost` is such a
  run, `OutboxSkipLocked.AnswerInLockOrder` the exact condition.
* `examples/orders/README.md:165-166` calls the version column unused; `Save` enforces it.

## Model

| member | source | states |
|---|---|---|
| `OutboxTables.PickIsUnique` | eventbus/outbox/pgx/sql.go:46-53 | The row list of Fetch (first `limit` due, unlocked rows by available_at and id, described declaratively) is unique |
| `OutboxTables.PickInColumns` | eventbus/outbox/pgx/sql.go:46-53 | In columns: a picked row is available and unclaimed or past its claim, picks ascend by available_at and then id, and such a row, unlocked, is left out only if the limit is full of rows before it |
| `OutboxTables.MarkFailedInColumns` | eventbus/outbox/pgx/sql.go:98-104 | When it takes effect: attempts + 1, available_at the time given, last_error the reason, both claim columns null, the event kept |
| `OutboxTables.TerminateInColumns` | eventbus/outbox/pgx/sql.go:112-124 | When it takes effect the row is gone and the last dead letter has its columns, one more attempt, the reason and the time |
| `OutboxSchedule.BackoffIsKept` | eventbus/outbox/pgx/sql.go:46-48 | In every run, after an effective MarkFailed no Fetch whose now() lies before the time it gave picks the row until another MarkFailed on it takes effect |
| `OutboxSchedule.StageTimeIsKept` | eventbus/outbox/pgx/sql.go:46-48 | The same from the commit of a row on: no Fetch picks it before the time it was staged for, unless it was retried |
| `OutboxSafety.InvStep` | eventbus/outbox/pgx/sql.go:46-124 | Every step of any relay, of the clock, of a committing transaction, and every late or repeated statement keeps the accounting invariant |
| `OutboxSafety.RowInExactlyOnePlace` | eventbus/outbox/pgx/sql.go:88-124 | In every run each committed row is in exactly one of active, sent and dead-lettered, once, and an uncommitted one in none |
| `OutboxSafety.SentAfterPublishUnderSameClaim` | eventbus/outbox/relay.go:194-231 | A row is deleted as sent only after its committed event was published by the relay whose claim token the deletion carried, claim before publish before delete |
| `OutboxSafety.RetryBudgetExact` | eventbus/outbox/relay.go:233-249 | With a cap M > 0: attempts equal the effective MarkFailed calls and stay below M, and a dead letter has attempts M after M - 1 effective retries |
| `OutboxSafety.UnlimitedRetriesNeverBury` | eventbus/outbox/relay.go:233-241 | With no cap the dead-letter table stays empty in every run |
| `OutboxLease.LeaseStep` | eventbus/outbox/pgx/sql.go:46-62 | Every step keeps the lease invariant: claims, leases and tokens agree with the history |
| `OutboxLease.ReclaimAfterLeaseEnd` | eventbus/outbox/pgx/sql.go:46-62 | A later claim on a row starts no earlier than the previous lease end unless a MarkFailed took effect in between |
| `OutboxLease.FetchesInLeaseWindowDisjoint` | eventbus/outbox/pgx/store.go:163-172 | Fetch results inside one lease window share a row only if a retry released it in between |
| `OutboxLease.AtMostOneHolder` | eventbus/outbox/pgx/doc.go:38-52 | At any moment at most one claim per row is unexpired and unsettled |
| `OutboxLease.EffectiveIffClaimIsLastWord` | eventbus/outbox/pgx/doc.go:85-93 | A settlement statement takes effect if and only if the claim that issued its token is the last thing that happened to the row |
| `OutboxLease.TokenNamesOneClaim` | eventbus/outbox/pgx/sql.go:55-62 | A token belongs to exactly one claim on one row |
| `OutboxErasure.ErasureInvisible` | eventbus/outbox/pgx/store.go:230-275 | Erasing every statement that carries a superseded token gives a valid run with the same final state |
| `OutboxErasure.SupersededForever` | eventbus/outbox/pgx/sql.go:88-124 | A superseded token stays superseded, and all its later statements can be struck from any continuation by the token alone |
| `OutboxErasure.OnlyStaleErased` | eventbus/outbox/pgx/store.go:230-275 | After the erasure every statement that lands finds its row under its own token, and every step that is no statement is still there |
| `OutboxErasure.AtMostOneDeadLetter` | eventbus/outbox/pgx/sql.go:105-124 | Racing Terminate calls leave at most one dead letter per row, and none beside an active row |
| `OutboxProgress.EveryStateCanDrain` | eventbus/outbox/pgx/doc.go:71-83 | From every reachable state (crashes, lost replies, stale leases) an idle relay, with its own batch size and claim lease, has a continuation that sends every active row and buries none |
| `OutboxSkipLocked.SkipLockedRefinesAtomicFetch` | eventbus/outbox/pgx/sql.go:46-62 | Every run of fetches that scan, skip, lock and stamp row by row reaches a state of the atomic protocol, and open fetches hold disjoint rows |
| `OutboxSkipLocked.PassedOverForCause` | eventbus/outbox/pgx/sql.go:46-53 | Each due row an atomic Fetch would have preferred was, while the fetch was open, locked by another transaction or changed since its snapshot; or a row it did lock changed and fell behind |
| `OutboxSkipLocked.WithoutCauseIffOvertaken` | eventbus/outbox/pgx/sql.go:46-53 | A row that nothing was in the way of is passed over if and only if it is due and was overtaken in that way |
| `OutboxOvertaking.PassedOverWithoutCause` | eventbus/outbox/pgx/sql.go:46-53 | A run in which a due row is passed over although nothing was ever in its way: a late MarkFailed moved the locked row behind it |
| `OutboxSkipLocked.UndisturbedFetchTakesTheFirst` | eventbus/outbox/pgx/sql.go:46-53 | Left in peace, a fetch takes exactly the first `limit` due rows of its snapshot |
| `OutboxSkipLocked.AnswerInLockOrder` | eventbus/outbox/pgx/sql.go:32-38 | The second sort gives back the lock order if and only if no two locked rows, one of them changed since the snapshot, have traded places |
| `OutboxOvertaking.LockOrderIsLost` | eventbus/outbox/pgx/sql.go:32-38 | A run in which a fetch locks row 1 before row 2 and answers with row 2 first |
| `OutboxSkipLocked.OpenFetchNeverWaits` | eventbus/outbox/pgx/sql.go:23-27 | In every reachable state an open fetch can scan on or stamp what it holds |
| `OutboxSkipLocked.SettlementLocks` | eventbus/outbox/pgx/sql.go:46-53 | A settlement statement can lock a row nobody holds; an open fetch skips the row until the statement lets go |
| `RecordId.EncodeThenParse` | eventbus/outbox/pgx/store.go:280-303 | parseID undoes encodeID for every int64 and every token in uuid form |
| `RecordId.ParseThenEncode` | eventbus/outbox/pgx/store.go:284-303 | Re-encoding any accepted id, canonical or not, parses to the same pair |
| `RecordId.AcceptedIffWellFormed` | eventbus/outbox/pgx/store.go:284-303 | An id is accepted if and only if it is a base-10 int64, a colon and a uuid |
| `RecordId.EverySpellingAddresses` | eventbus/outbox/pgx/sql.go:88-92 | The uuid column ignores letter case, so an id in any spelling of its token addresses its row and claim |
| `PgxStore.SelectDue` | eventbus/outbox/pgx/sql.go:46-53 | The due query yields exactly the declarative row list, which `OutboxTables.PickInColumns` spells out in columns |
| `PgxStore.Store.Fetch` | eventbus/outbox/pgx/store.go:168-228 | Claims exactly those rows, one distinct token each, for the lease in whole milliseconds, at least 100ms; one record per row in order with the event, the due time (not after now) and the attempts of its row, each id parsing to its row and claim; when the answer is lost or unreadable the claims stand |
| `PgxStore.Store.MarkSent` | eventbus/outbox/pgx/store.go:231-243 | Deletes the row whose current token the id carries; stale is silent, malformed changes nothing, an error leaves open whether the row is gone |
| `PgxStore.Store.MarkFailed` | eventbus/outbox/pgx/store.go:245-259 | Counts the attempt, makes the row available at the time given and not before, and releases the claim under the token guard, with the same errors |
| `PgxStore.Store.Terminate` | eventbus/outbox/pgx/store.go:261-275 | Moves the row to the dead letters with one more attempt under the token guard, with the same errors |
| `PgxStore.CallInCases` | eventbus/outbox/pgx/store.go:231-275 | The three calls by case: a malformed id or a lost call changes nothing, anything else is the statement for the row and token the id spells |
| `PgxStore.ReplyInCases` | eventbus/outbox/pgx/store.go:231-275 | Success exactly for an answered call with a well-formed id; an unanswered one is an error whether or not it took effect |
| `Backoff.OverflowNeverLooksShort` | eventbus/outbox/relay.go:258-262 | A shift that overflows int64 is a multiple of 2^43 ns, so it is not positive or far above a minute |
| `Backoff.ShiftThenClampIsCurve` | eventbus/outbox/relay.go:254-262 | For every attempt count the wrapping shift and the clamp equal min(2^(attempts-1), 60) seconds |
| `Backoff.CurveInCases` | eventbus/outbox/relay.go:254-262 | The bound is 1s for the first attempt, then 2, 4, 8, 16 and 32s, and a minute from the seventh on |
| `Backoff.DefaultBackoff` | eventbus/outbox/relay.go:254-267 | The jitter bound is positive and the delay lies in [0, 60s), below the curve |
| `PgxRelay.OthersKeepWork` | eventbus/outbox/relay.go:13-21 | Whatever other relays, transactions, the clock and late statements do, a relay keeps its batch and its place in it |
| `PgxRelay.TurnsAreRun` | eventbus/outbox/relay.go:178-249 | The turns of a relay and of everybody else make one run of the protocol, whose log is what they add in turn |
| `PgxRelay.Relay.TablesAreSafe` | eventbus/outbox/relay.go:178-249 | In the tables the store holds, at any moment between two actions of the relay, each committed row is in exactly one place and the retry budget is exact |
| `PgxRelay.Relay.Report` | eventbus/outbox/relay.go:233-249 | A spent budget goes to Terminate and anything else to MarkFailed, for a time not before the relay's clock and less than a minute after it, as the statement for the snapshot |
| `PgxRelay.ProcessInCases` | eventbus/outbox/relay.go:194-249 | The steps of one record for each way it can go: decode failure, publish failure, success, and a panic after the publication |
| `PgxRelay.Relay.Fail` | eventbus/outbox/relay.go:233-249 | Under any interference the turns of a failure are the call it makes and, unless it is lost, the statement that lands |
| `PgxRelay.Relay.Process` | eventbus/outbox/relay.go:194-231 | Under any interference the turns of a record are publish before settle as its errors and panics call for, and the journal of publications and settlements is what those turns add to the log |
| `PgxRelay.Relay.DrainOnce` | eventbus/outbox/relay.go:178-187 | Under any interference a drain takes the turns of its claim and of one record after the other; a failed Fetch ends it, even if it has claimed |
| `MemoryOutbox.Memory.Stage` | eventbus/outbox/memory.go:134-190 | All events are appended in order, or one does not encode, or the size cap refuses all; fresh ids stay distinct |
| `MemoryOutbox.SortDue` | eventbus/outbox/memory.go:209-214 | The sort yields a permutation that ascends by AvailableAt, then by id (no id above the next: no greater byte at the first difference, no proper extension); records that compare equal keep their order |
| `MemoryOutbox.LessIffAbove` | eventbus/outbox/memory.go:211 | The string order: less exactly when the other is a proper extension or has the greater byte at the first difference |
| `MemoryOutbox.Memory.Fetch` | eventbus/outbox/memory.go:196-223 | The first due records that fit, in that order: each due at now and stored as often as it is returned; one left out means the limit is full of records none of which comes after it, duplicate ids included |
| `MemoryOutbox.Memory.MarkSent` | eventbus/outbox/memory.go:228-238 | Takes out the first record with the id; unknown ids are ignored |
| `MemoryOutbox.Memory.MarkFailed` | eventbus/outbox/memory.go:243-254 | One more attempt and a later due time for that record only |
| `MemoryOutbox.Memory.Terminate` | eventbus/outbox/memory.go:264-280 | Moves that record to the dead letters with one more attempt |
| `MemoryRelay.ProcessSpends` | eventbus/outbox/relay.go:194-249 | Success, error or panic: one processed record strictly shrinks the retry budget, loses nothing, and is told as at most one publication followed by exactly one settlement |
| `MemoryRelay.FailInColumns` | eventbus/outbox/relay.go:233-249 | A failed record is the dead letter of its cap-th attempt, or waits with one more attempt for the jittered time; every other record and dead letter stays as it is |
| `MemoryRelay.ToldInCases` | eventbus/outbox/relay.go:194-249 | What is published and settled for each way a record can go |
| `MemoryRelay.BatchSpends` | eventbus/outbox/relay.go:178-187 | A batch of n records spends at least n units of budget and keeps every staged id accounted for |
| `MemoryRelay.Relay.DrainOnce` | eventbus/outbox/relay.go:178-187 | A drain processes the batch of Fetch, something exactly when a record is due, publishes and settles one record after the other, spends budget for each, keeps every id in one place |
| `MemoryRelay.Relay.Run` | eventbus/outbox/relay.go:156-176 | A second Run is refused; productive ticks number at most the budget; with ticks a minute after earlier waits, a budget of ticks leaves every record sent or dead-lettered |
| `Inbox.SortByTime` | eventbus/inbox/memory.go:143-147 | The in-place insertion sort gives a sorted permutation |
| `Inbox.Memory.EvictOldestHalf` | eventbus/inbox/memory.go:130-152 | Drops half of the entries, rounded down, none newer than a survivor |
| `Inbox.DroppedHaveNewer` | eventbus/inbox/memory.go:130-152 | After an eviction every dropped key has more than maxSize/2 newer survivors |
| `Inbox.Memory.Record` | eventbus/inbox/memory.go:103-118 | With a strictly increasing clock the maxSize/2 + 1 most recently stamped keys are present after every Record, the size stays within the limit, and nothing is dropped before it would pass the limit |
| `Inbox.Memory.Seen` | eventbus/inbox/memory.go:85-96 | Reports a key exactly while it is recorded and within the ttl |
| `IdempotencyProtocol.InvStep` | idempotency/redis/script.go:16-56 | Every script execution, late or repeated, Begin included, keeps responses earned and no token better than its grants |
| `IdempotencySafety.ReplayWasFinished` | idempotency/redis/script.go:16-43 | A replayed response was stored by an earlier Finish, and before that Finish a StatusNew granted its token for the same scope, key and fingerprint |
| `IdempotencySafety.AppliedWasGranted` | idempotency/redis/script.go:34-56 | An applied Finish or Cancel carries a token granted before for its key, so a guessed token never gets through |
| `IdempotencySafety.OneOpenToken` | idempotency/redis/script.go:34-56 | At any moment one token at most opens a record, and a token opens one record at most |
| `IdempotencySafety.TokenSucceedsOnce` | idempotency/redis/script.go:34-56 | Over a whole run a token is good for at most one applied Finish or Cancel per grant, so for one, unless its Begin command is executed again |
| `IdempotencySafety.RepeatedBeginSucceedsTwice` | idempotency/redis/script.go:16-56 | The bound is reached: a Begin executed again after a Cancel makes its token good twice |
| `IdempotencySafety.SpentUntilRegranted` | idempotency/redis/script.go:34-56 | A token that does not open the record now will not open it before another StatusNew has given it out for this key |
| `IdempotencySafety.CompletedIsFrozen` | idempotency/redis/doc.go:61-70 | From completion to the retention instant no mix of calls moves the record or its expiry; Begin replays or reports a mismatch |
| `IdempotencySafety.FirstBeginAfterRetentionIsNew` | idempotency/redis/doc.go:61-70 | Whatever Finish and Cancel calls come in between, the first Begin after the retention instant is StatusNew |
| `IdempotencyGrants.GrantsAreSeparated` | idempotency/redis/script.go:16-56 | By the time of a second StatusNew for a key, the token of the first has cancelled its reservation, or finished it with a retention that is over, or did neither before its lease ran out |
| `IdempotencyGrants.NewIffAllReleased` | idempotency/redis/script.go:16-28 | In every run Begin answers StatusNew if and only if every earlier grant for its key has been released in that way |
| `IdempotencyReplies.BeginIsAnswered` | idempotency/redis/script.go:16-28 | In every run, from the history of grants: in progress iff a grant for the same fingerprint runs, a replay iff a Finish of such a grant is retained, a mismatch iff either exists for another fingerprint, StatusNew iff none |
| `IdempotencyReplies.SettlesIffHeld` | idempotency/redis/script.go:34-56 | In every run a Finish or Cancel takes effect iff the grant of its token for its key is unsettled and its lease runs, and otherwise changes nothing |
| `RedisKeys.CompositeKeyInjective` | idempotency/redis/store.go:85-94 | Distinct (prefix, scope, key) triples never share a Redis key |
| `RedisKeys.EncodeInjective` | cache/redis/key.go:5-12 | Distinct (prefix, key) pairs never share a key; the rate limiter encodes in the same way |
| `RedisStore.FlatKeyIsPrivate` | idempotency/redis/store.go:85-94 | A change to one flat key leaves the records of all other triples as they were |
| `RedisStore.StepShown` | idempotency/redis/store.go:85-94 | A script that does a protocol step on its own flat key carries the records of all triples to the next protocol state |
| `RedisStore.Redis.BeginScript` | idempotency/redis/script.go:16-28 | The hash and expiry it writes and the three-element reply, field by field; seen through the record that is the abstract Begin, and it touches one key |
| `RedisStore.Redis.FinishScript` | idempotency/redis/script.go:34-43 | 0 exactly for a reserved hash with this token: state and response set, token removed, expiry moved; seen through the record that is the abstract Finish |
| `RedisStore.Redis.CancelScript` | idempotency/redis/script.go:49-56 | 0 exactly for a reserved hash with this token, which is gone then; seen through the record that is the abstract Cancel |
| `RedisStore.Redis.ExecuteBegin` | idempotency/redis/script.go:16-28 | A Begin command executed at any time, for the first time or again, is the protocol's DoBegin and answers what it logs, which `IdempotencyReplies.BeginIsAnswered` tells from the history |
| `RedisStore.Redis.Execute` | idempotency/redis/script.go:34-56 | A Finish or Cancel executed at any time, however late, is the protocol's Land |
| `RedisStore.NewStore` | idempotency/redis/store.go:42-83 | Accepts exactly a client, a non-empty prefix and durations of at least 1ms, which then last at least one whole millisecond |
| `RedisStore.Store.Begin` | idempotency/redis/store.go:112-155 | Refuses empty arguments and a failed token draw untouched; otherwise Redis moves as the protocol does, time passing included, for the lease in whole milliseconds, and each status is answered exactly when the event of that status is logged, lease TTL for StatusNew only |
| `RedisStore.Store.RunCommand` | idempotency/redis/store.go:165-175 | Redis moves as the protocol lets time pass, sends the command and lands it; success means applied, conflict means surely not applied, an error is indeterminate |
| `RedisStore.Store.Finish` | idempotency/redis/store.go:160-176 | Refuses empty arguments untouched; otherwise the script call of a Finish for this triple |
| `RedisStore.Store.Cancel` | idempotency/redis/store.go:181-197 | The same for Cancel |
| `Order.Aggregate.Place` | examples/orders/domain/order/order.go:69-90 | Accepted exactly for a draft with positive quantities; totals the items, records one event, and changes nothing on refusal |
| `Order.Aggregate.Ship` | examples/orders/domain/order/order.go:94-105 | Accepted exactly for a placed order; records one event |
| `Order.TotalIsAdditive` | examples/orders/domain/order/order.go:76-84 | A line costs quantity times price, and lists of lines add up |
| `Order.ReplayInCases` | examples/orders/domain/order/order.go:69-105 | Only no event, an OrderPlaced, and an OrderPlaced then an OrderShipped replay to a status |
| `OrderSystem.MoveKeeps` | examples/orders/application/order/ship_order.go:48-74 | Every move of api, worker and relay keeps rows, histories and pending ships consistent |
| `OrderSystem.VersionCountsEvents` | examples/orders/infra/pgxrepo/order_repo.go:69-102 | The row version counts the events ever staged, their versions are 1..n, and replaying them gives the status |
| `OrderSystem.AtMostOnePlacedOneShipped` | examples/orders/application/order/place_order.go:50-69 | Under any interleaving and rollbacks at most one OrderPlaced and one OrderShipped are staged per order, in that order |
| `OrderSystem.ShippedImpliesPlacedPublished` | examples/orders/workerflow/handler.go:33-57 | OrderShipped is staged only after a relay published the order's OrderPlaced |
| `OrderSystem.ShippedForever` | examples/orders/infra/pgxrepo/order_repo.go:61-84 | A shipped order never changes again, whatever the api, the workers and the relays go on to do |
| `OrderSystem.LostRaceIsHarmless` | examples/orders/application/order/ship_order.go:48-74 | A Ship that loses the version race changes nothing, its order is already shipped, and after any further moves of anybody a delivery still changes nothing |
| `OrderSystem.UndisturbedShip` | examples/orders/application/order/ship_order.go:48-74 | A Ship nobody interferes with makes the placed row shipped at the next version and stages its OrderShipped |
| `OrderHandlers.Repository.FindById` | examples/orders/infra/pgxrepo/order_repo.go:33-60 | The aggregate rebuilt from the row with no recorded events, or not found, or unreadable |
| `OrderHandlers.Repository.Save` | examples/orders/infra/pgxrepo/order_repo.go:69-102 | The guarded upsert, inside the open transaction if there is one; a conflict or a database error writes nothing |
| `OrderHandlers.Outbox.Stage` | eventbus/outbox/pgx/store.go:97-161 | All events get a row inside the open transaction, or none does; without a transaction it refuses |
| `OrderHandlers.TxManager.Close` | ports/database/pgx/txmanager.go:60-93 | Whatever function ran in the transaction, whatever it did and however it ended, all of it is committed or none and nothing stays open |
| `OrderHandlers.TxManager.WithinTx` | ports/database/pgx/txmanager.go:60-93 | With the body of the handlers: what it leaves and what its caller sees, for a failure of every call in it, a panic anywhere and a lost commit |
| `OrderHandlers.AllOrNothing` | ports/database/pgx/txmanager.go:60-93 | A handler transaction that takes effect leaves the row and a row for every one of its events |
| `OrderHandlers.TransactionIsCommit` | examples/orders/application/order/place_order.go:56-61 | A committed handler transaction is the Commit of the system protocol, row for row |
| `OrderHandlers.AnswerInCases` | ports/database/pgx/txmanager.go:60-93 | Call by call: the first call that fails gives the caller its own error, a panic reached before it passes through, and success takes every call |
| `OrderHandlers.ContentInCases` | ports/database/pgx/txmanager.go:60-93 | What is left behind: the row and the event's row under the next id together, or everything as it was |
| `OrderHandlers.PlaceOrderHandler.Handle` | examples/orders/application/order/place_order.go:50-69 | A broken rule touches nothing and is the answer; otherwise the row at version 1 and its OrderPlaced are written together or not at all, and the total is answered exactly when they were and the commit was answered |
| `OrderHandlers.ShipOrderHandler.Load` | examples/orders/application/order/ship_order.go:48-60 | Unreadable, not found and already shipped end the command; otherwise the shipped order and its event await the transaction |
| `OrderHandlers.ShipOrderHandler.Write` | examples/orders/application/order/ship_order.go:62-73 | The transaction over the database as it is by then: success is answered exactly when row and event were written and the commit was answered; a lost race changes nothing |
| `KafkaPipeline.SettledExactlyOnce` | eventbus/kafka/subscriber.go:95-118 | When both goroutines have returned every message taken was acked or nacked exactly once, and the handler saw the decodable ones in order, all but at most the last |
| `KafkaPipeline.AckedIffHandlerSucceeded` | eventbus/kafka/module.go:158-185 | Acked exactly when the handler returned nil; nacked when it failed or panicked, when the message does not decode, and when a cancel kept it from the handler |
| `KafkaPipeline.CleanEndHandlesAll` | eventbus/kafka/subscriber.go:95-118 | A subscription that ends without a cancel has handled exactly the decodable messages delivered to it, in order |
| `KafkaPipeline.EveryPipeCanFinish` | eventbus/kafka/subscriber.go:95-118 | From every reachable situation, once the raw channel is closed both goroutines can finish without a cancel |
| `KafkaPipeline.CancelledNeverStuck` | eventbus/kafka/subscriber.go:95-118 | After a cancel some goroutine can always move until both have returned |
| `KafkaPipeline.InternalRunsAreShort` | eventbus/kafka/subscriber.go:95-118 | The goroutines make only a bounded number of moves under any schedule |
| `KafkaLifecycle.Lifecycle.Wait` | eventbus/kafka/module.go:118-122 | After a cancel waiting ends with every goroutine returned |
| `KafkaLifecycle.Lifecycle.Start` | eventbus/kafka/module.go:114-135 | Succeeds with one live pair per topic, or fails with no goroutine alive |

## Left out

* JWT, Casbin, jobs, the rate limiter's algorithm, HTTP server and client, OTel, slog and health handlers: thin wrappers over libraries, or single-branch checks.
* Postgres, Redis and Kafka wire behaviour, error classification, JSON encoding, tickers and randomness are inputs of the model.
* Payload bytes, topics, headers and their restoration into the publish context: copied along unread. The aggregate id, name and version of an event are kept, and the worker's causation id is not.
* Exactly-once delivery: the outbox promises at least once; a crash after Publish leads to a second one.
* Stage order among equal timestamps in the in-process outbox: ties are broken by string order of the ids.
* Several relays on one in-process store, which its documentation excludes; draining with duplicate ids from a custom
  id generator, for which only the store's own methods are covered.
* Survival of a just-recorded inbox key when timestamps tie: map iteration order decides.
* The read projection, the in-memory order repository, deleting orders, and seeding that bypasses the handlers.
* Panics inside `fail` itself, and in the codec inside the subscriber pump.
* int64 overflow of order totals, attempt counts and versions: mathematical integers are used.
* Retries inside the Redis client library: a command that is executed twice is answered the second time as the record
  then is; the protocol covers what happens to the record, not which of the two replies the caller sees.
* Identity values burnt by rolled-back inserts: the handlers reuse them, the protocol only asks that row ids are new.
* Stop of a consumer module with its own deadline; `Start` and `Wait` cover the drain.
* Messages the broker delivers while `Wait` runs: the watermill subscriber closes its channel on cancel.
* OrderHandlers.TxManager.WithinTx: its body is the one both handlers pass; Close covers any function.
* OrderHandlers: encoding errors of Save and Stage count as failures of those calls.
* OutboxSkipLocked: the row versions Postgres keeps are reduced to the snapshot and the current row; a settlement
  statement's own lock may be held for any time before and after it lands.
* KafkaLifecycle.Lifecycle.Wait: assumes that a handler that was started returns.
* OutboxProgress.EveryStateCanDrain: shows that a draining continuation exists, not that a given scheduler takes it.
