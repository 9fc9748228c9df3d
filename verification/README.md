# Verified model of the Miogram bot fleet

A Dafny model of the parts of the Miogram Telegram chat service whose
correctness is decided by code: the chat and coin ledger, the consistent-hash
ring, the pending-delivery queue and its sweeper, the routing table and its
durable mirror, the batch migration, lease locks with the inbound workers, the
sharded outbound queues, the adaptive rate limiter, the Jalali calendar, coin
payments and the decimal printers.

`dafny verify dfyconfig.toml` checks the whole project.

Code that updates state in place is a class or a loop here, and each of its
methods is proved equal to a function of the old state; whole runs are then
about that function.  Redis scripts, single SQL statements and transactions that
hold their row locks are atomic steps; a payment handler that reads first and
writes later is two steps with anything in between.  The hash function,
the clock, the deliverer's answers, the gateway's answers and the chat checks
are arbitrary parameters.

| file | modules | what it models |
|---|---|---|
| `ChatLedger.dfy` | ChatLedger | whole transactions on users, chats and searches; exclusivity and coins |
| `ChatTransactions.dfy` | ChatTransactions | the same transactions split into lock, check, write and commit steps |
| `Ring.dfy` | Ordering, HashRing | the ring of helper bots |
| `PendingQueue.dfy` | PendingQueue | pending lists, their index and the sweep |
| `PendingRuns.dfy` | PendingRuns | runs mixing enqueues, drains and sweep steps |
| `Routing.dfy` | Routing, Resolver | routing hashes, reverse index, three-tier resolver |
| `Migration.dfy` | Migration | batch return of users to the main bot |
| `Leases.dfy` | Leases, Workers | lease locks, deduplicated updates and the worker loop |
| `Outbound.dfy` | Outbound | sharded outbound queues |
| `Limiter.dfy` | Limiter | additive-increase, multiplicative-decrease limiter |
| `Jalali.dfy` | Jalali | Gregorian to Jalali conversion |
| `Payments.dfy` | Payments | the payment status machine and its two crediting paths |
| `Options.dfy` | Options | a value that may be absent |
| `Decimal.dfy` | Decimal | itoa, int64String and formatNumber |

What the proofs found about the code itself:

- `EndChat` refunds only rows whose step is still `chatting;%`, so a handler
  that rewrites a chatting user's step loses that user's refund:
  `ChatLedger.RewrittenStepLosesRefund` is such a run.  No coin is ever created,
  and a run conserves a user's coins exactly when no ending skips the row of a
  user it owes a refund (`ChatLedger.RunConservesExactlyWhen`).
- `int64String` and `formatNumber` are wrong for the smallest 64-bit integer
  and right for every other one.
- The Jalali conversion is faithful from Gregorian year -3 on.  Earlier years
  are miscounted exactly as `Jalali.Miscounted` says, because integer division
  truncates, and a negative day number is converted rightly exactly when it is a
  whole number of cycles (`Jalali.TruncatedIsRightExactlyWhen`).
- A resolver call made off-peak answers with a live helper when the Redis
  entry has been lost; the exact condition is `Resolver.AnswersMainExactlyWhen`.
- "Credited at most once" and "success is never left" fail when a handler whose
  `UPDATE` has no status guard writes late: requesting a gateway page, starting
  a card payment and expiring a payment (internal/payments/service.go:84,
  internal/bot/static.go:410, internal/jobs/scheduler.go:312).
  `Payments.LateCardWriteCreditsTwice` is a run that credits twice;
  `Payments.BooksKeptExactlyWhen` proves that the books stay right in exactly
  the runs in which every such write finds a payment that is not successful,
  which a `status<>'success'` guard on the write would ensure.

## Model

| member | source | states |
|---|---|---|
| ChatLedger.Store.IsUserChattingTx | internal/storage/store.go:364-368 | finds an active chat of the user exactly when there is one |
| ChatLedger.Store.CreateChatTx | internal/storage/store.go:220-252 | connects exactly two different free users: the chat row, both charges and steps, and the end of all searches of the two and of no other; no effect on any refusal |
| ChatLedger.Store.CreateFakeChatFromSearch | internal/storage/store.go:256-362 | turns a search that has been open for 60 seconds, of an existing free user, into a synthetic chat and ends that search; exactly when it refuses, with no effect then |
| ChatLedger.Store.FindAnonMatch | internal/bot/main.go:379-424 | claims the oldest open search of somebody else that suits, and only that; nothing when there is none |
| ChatLedger.Store.ConnectAnonUsers | internal/bot/main.go:440-448 | a chat with the claimed search's user, or the claim is given back and nothing else changes |
| ChatLedger.Store.EndChatTx | internal/storage/store.go:385-417 | closes an active chat once, refunds both sides below five messages, and only rows still marked as chatting |
| ChatLedger.ApplyKeepsInv | internal/storage/store.go:220-417 | every modelled change keeps: no user in two active chats, one synthetic chat per search, refunds within what was spent |
| ChatLedger.RunKeepsInv | internal/storage/store.go:220-417 | the same after any run of creations, endings, claims, releases, deletions and step rewrites |
| ChatLedger.EndSearchesEnds | internal/storage/store.go:239 | the matched searches have status end and are otherwise as before; so are all others |
| ChatLedger.UserStatements | internal/storage/store.go:163-191 | registering adds one row without coins, a step write changes that step alone |
| ChatLedger.SearchSteps | internal/bot/main.go:420-442 | a search is claimed from doing, released from connecting, ended from either and deleted once ended; its user, price and date never change |
| ChatLedger.SearchStatements | internal/jobs/scheduler.go:62-63 | each of these statements has its effect when it finds its row |
| ChatLedger.OverForGood | internal/storage/store.go:256-362 | once a search is over, no run reopens it or turns it into a synthetic chat |
| ChatLedger.ConnectedSearchesAreOver | internal/storage/store.go:239 | the searches ended by connecting two users never become a synthetic chat in any later run |
| ChatLedger.CreateConserves | internal/storage/store.go:242-250 | connecting moves each price from the balance into the chat, if and only if the row exists or the price is zero |
| ChatLedger.MakeFakeConserves | internal/storage/store.go:339-357 | a synthetic chat moves the search's price into the chat and creates no coin |
| ChatLedger.EndConserves | internal/storage/store.go:403-415 | ending creates no coin, and loses none of a user's exactly when the user's row was matched or nothing was due |
| ChatLedger.RunNeverCreatesCoins | internal/storage/store.go:220-417 | balance, coins in active chats and coins kept by ended chats never grow for any user, in any run with arbitrary step rewrites |
| ChatLedger.RunConservesExactly | internal/storage/store.go:220-417 | that sum is constant when only the transactions write chatting users' steps |
| ChatLedger.RunConservesExactlyWhen | internal/storage/store.go:403-415 | over any run, with arbitrary step rewrites, a user's coins are conserved if and only if each ending matches the user's row, follows at least five messages, or owes the user nothing |
| ChatLedger.RewrittenStepLosesRefund | internal/storage/store.go:413 | a run in which a rewritten step costs a user two of five coins although nobody wrote a message |
| ChatLedger.TotalNeverGrows | internal/storage/store.go:220-417 | the total over any list of users never grows, and is constant when only the transactions write chatting users' steps |
| ChatLedger.EndedChatPaysBack | internal/storage/store.go:403-415 | a chat ended below five messages returns precisely what each side spent; a longer one returns nothing; both users are free again |
| ChatLedger.MissingRowCountsCoinsTwice | internal/storage/store.go:242-250 | the concrete case in which a price is recorded that nobody paid |
| ChatLedger.InitialDb | internal/storage/store.go:220-417 | the empty tables satisfy every invariant |
| ChatTransactions.CreateCommitIsAtomic | internal/storage/store.go:220-252 | the split CreateChat commits exactly what the whole one would do at that moment |
| ChatTransactions.FakeCommitIsAtomic | internal/storage/store.go:256-362 | the same for the synthetic chat |
| ChatTransactions.EndCommitIsAtomic | internal/storage/store.go:385-417 | the same for EndChat, whatever rows its UPDATE had matched |
| ChatTransactions.CommitIsAtomic | internal/storage/store.go:220-417 | every commit is one enabled, successful atomic action |
| ChatTransactions.CommitUndisturbed | internal/storage/store.go:230-412 | a commit leaves alone every row another transaction has locked and every check it has made |
| ChatTransactions.FireKeepsSafe | internal/storage/store.go:220-417 | every single step keeps what the open transactions rely on, and changes the committed data by at most one atomic action |
| ChatTransactions.InitialState | internal/storage/store.go:220-417 | empty tables without transactions satisfy what the interleavings start from |
| ChatTransactions.InterleavingRefinesAtomicRun | internal/storage/store.go:220-417 | every interleaving of split transactions is a run of whole ones in commit order |
| ChatTransactions.InterleavingsAreSafe | internal/storage/store.go:220-417 | in every interleaving: no user in two active chats, at most one synthetic chat per search, no coin created |
| ChatTransactions.InstallEndsSearches | internal/storage/store.go:239 | the commit of a split CreateChat ends the matched searches and changes no other |
| ChatTransactions.EndedSearchesAreOver | internal/storage/store.go:239 | in every interleaving after that commit they stay ended or are deleted, and never become a synthetic chat |
| ChatTransactions.InterleavingsConserveExactlyWhen | internal/storage/store.go:385-417 | the same if and only if for every interleaving, over its endings in commit order |
| ChatTransactions.PoliteFireIsRespectful | internal/bot/service.go:94-121 | a step that rewrites no chatting user's step keeps EndChat's UPDATE matching both rows |
| ChatTransactions.PoliteInterleavingsConserve | internal/storage/store.go:220-417 | with chatting users' steps left alone every interleaving conserves every user's coins exactly |
| HashRing.OwnerUnique | internal/fleet/ring.go:52-64 | a key has one owner, determined by the set of members and not their order |
| HashRing.AddingDisturbsOnlyForNewcomer | internal/fleet/ring.go:29-64 | adding a member moves users only to it, for every hash function, collisions included |
| HashRing.RemovingDisturbsOnlyItsUsers | internal/fleet/ring.go:29-64 | removing a member moves only the users it owned, for every hash function |
| HashRing.Search | internal/fleet/ring.go:57 | the binary search finds the first point not below the key |
| HashRing.SameStrings | internal/fleet/ring.go:92-102 | true exactly for equal lists |
| HashRing.PlaceAll | internal/fleet/ring.go:37-47 | the placing loops give every point to its largest-named member |
| HashRing.Ring.Set | internal/fleet/ring.go:29-49 | the rebuilt ring is that of the given set of names; order and repetition do not matter |
| HashRing.Ring.Assign | internal/fleet/ring.go:52-64 | the largest-named member at the first point clockwise from the hash of "user:id#0", points being the hashes of "member#i"; nothing for an empty ring |
| HashRing.KeyOfUser | internal/fleet/ring.go:58 | a user's key is the hash of "user:id#0" |
| HashRing.PointsOfMember | internal/fleet/ring.go:37-46 | a member's points are the hashes of "member#i" for each virtual node |
| HashRing.UsersAreTold | internal/fleet/ring.go:58 | for any two users some hash gives them different owners |
| HashRing.ClockwiseIsDistance | internal/fleet/ring.go:59-63 | the search order with wraparound is that of the distance on a circle |
| Ordering.StringLeIsLexicographic | internal/fleet/ring.go:32 | names are ordered character by character |
| PendingQueue.StoreOperations | internal/queue/redis.go:199-284 | push, take and pop keep the index exact and every job in its own user's list, and touch no other user |
| PendingQueue.Queue.PushPending | internal/queue/redis.go:199-216 | appends the stamped job and indexes the user |
| PendingQueue.Queue.TakePending | internal/queue/redis.go:219-243 | hands out exactly the well-formed jobs in order and empties list and index |
| PendingQueue.Queue.WellFormed | internal/queue/redis.go:234-241 | the decoding loop keeps exactly the jobs that name a method, in order |
| PendingQueue.Queue.PopOldestPending | internal/queue/redis.go:248-263 | removes the head, drops the index entry with the last job, returns nothing for a job without a method |
| PendingQueue.Manager.FallbackDeliver | internal/fleet/manager.go:470-513 | from the answer itself: a good reply is a delivery, a refusal a give-up, and a failure or missing start puts the message back with one attempt more, or gives up when that was the last one |
| PendingQueue.Manager.SweepOne | internal/fleet/manager.go:447-464 | the inner loop terminates for every deliverer and leaves the list and log of the reference sweep of that user |
| PendingQueue.FreshHeadIsRotated | internal/fleet/manager.go:455-461 | a head younger than the fallback delay goes to the tail with its time kept and ends the user's sweep |
| PendingQueue.StaleHeadIsTried | internal/fleet/manager.go:455-462 | any other head that names a method is tried, first of all |
| PendingQueue.WithMethodKeeps | internal/queue/redis.go:234-241 | exactly the jobs that name a method are handed out |
| PendingQueue.Manager.SweepPending | internal/fleet/manager.go:439-466 | a whole sweep terminates for every deliverer and any fallback delay, and treats each indexed user as if alone |
| PendingRuns.FireKeepsInv | internal/fleet/manager.go:439-513 | every enqueue, drain and sweep step keeps places, attempts, index and ownership consistent |
| PendingRuns.RunKeepsInv | internal/fleet/manager.go:439-513 | the same after any run |
| PendingRuns.EveryMessageInOnePlace | internal/fleet/manager.go:439-513 | in every run each accepted message is in exactly one of queue, hand, drain, delivered, given up or discarded, gets at most PendingAttempts fallback calls, and index and lists agree |
| PendingRuns.MessagesEndRightly | internal/fleet/manager.go:482-512 | in every run a delivered message was accepted by its last answer, and one that was given up was refused by it or has had exactly PendingAttempts calls |
| PendingRuns.PositionFollowsJob | internal/fleet/manager.go:447-464 | popping brings a job one position nearer, and nothing but a drain of its user moves it otherwise |
| PendingRuns.ReachedInTime | internal/fleet/manager.go:439-466 | a job at position i is examined in i+1 sweeps, one more when the current sweep has passed its user |
| PendingRuns.ExaminedWithinSweeps | internal/fleet/manager.go:439-466 | between sweeps: a job at position i, if not drained, is examined within i+1 sweeps while new jobs keep arriving |
| PendingRuns.SweepIsARun | internal/fleet/manager.go:447-464 | sweeping one user in one go is one of these runs and ends in the same list |
| Routing.UserShard | internal/queue/redis.go:510-517 | the code-point sum modulo 10000 |
| Routing.ShardsAdd | internal/queue/redis.go:510-517 | every character adds its code, wherever it stands |
| Routing.RoutingTable.GetUserBot | internal/queue/redis.go:123-131 | the user's entry, or nothing |
| Routing.RoutingTable.RegisterUserBot | internal/queue/redis.go:105-115 | the compare-then-skip write of hash and reverse sets, with its changed flag |
| Routing.RoutingTable.UsersMappedTo | internal/queue/redis.go:134-136 | the reverse set of a bot |
| Routing.RegisterRefinesFlatMap | internal/queue/redis.go:414-428 | the 10000 hashes behave as one flat map, and the flag is true exactly when the mapping changed |
| Routing.RegisterKeepsReverse | internal/queue/redis.go:414-428 | a registration keeps the reverse sets exact for named bots |
| Routing.RegistrationsAreExact | internal/queue/redis.go:105-136 | after any sequence of calls a user is routed to the bot given last and listed under that bot and no other |
| Routing.TableFromEmpty | internal/queue/redis.go:105-136 | from empty stores, under any sequence of calls, the table is one flat map and a user is in a bot's reverse set exactly when that map sends the user there |
| Routing.EmptyBotLeavesStaleEntry | internal/queue/redis.go:414-428 | the concrete case in which an empty bot id leaves a stale reverse entry |
| Resolver.Service.RegisterBotForUser | internal/bot/service.go:323-337 | writes both stores, the durable one only on a change |
| Resolver.Service.Deliver | internal/bot/service.go:413-437 | answers with an active helper, else the main bot, moving users who are not chatting |
| Resolver.Service.ResolveDelivery | internal/bot/service.go:339-411 | the three tiers with their writes, the cached helper untouched outside off-peak hours, and the refusal of an empty user |
| Resolver.CachedAnswer | internal/bot/service.go:346-365 | a cached user keeps its bot and nothing is written, except that off-peak a helper's user goes to the main bot in both stores |
| Resolver.UncachedAnswer | internal/bot/service.go:368-411 | an uncached user gets a row and the restored bot in both stores; the exact answer, and when a dead helper's user is moved |
| Resolver.MovesWriteBoth | internal/bot/service.go:228-281 | a join or a bounce writes both stores |
| Resolver.JoinedUsersStay | internal/bot/service.go:346-365 | in peak time a user who has joined a helper is answered with it by every later call, which writes nothing, until a join, a bounce or a lost entry |
| Resolver.FireKeepsMirror | internal/bot/service.go:228-437 | every resolve, join, bounce and lost entry keeps each Redis entry equal to the durable assignment |
| Resolver.RunKeepsMirror | internal/bot/service.go:228-437 | the same after any run |
| Resolver.OneCallCaches | internal/bot/service.go:339-411 | after any call the user's entry is in Redis |
| Resolver.TwoCallsComeHome | internal/bot/service.go:339-411 | two off-peak calls in a row bring a user to the main bot in both stores and answer with it |
| Resolver.ResolveLeavesOthers | internal/bot/service.go:339-437 | a call for one user changes nobody else's entry or row |
| Resolver.HomeIsStable | internal/bot/service.go:339-437 | off-peak a user at home stays home, even when entries are lost |
| Resolver.CachedCallComesHome | internal/bot/service.go:351-365 | an off-peak call that finds the user's entry brings both stores to the main bot and answers with it |
| Resolver.RunKeepsEntry | internal/bot/service.go:228-437 | no run empties a user's entry unless Redis loses it |
| Resolver.SecondCallOnward | internal/bot/service.go:339-437 | off-peak, a user's second call and every later one answer with the main bot and leave both stores there; anything may happen between the calls, except that this user's entry is lost between the first two |
| Resolver.AnswersMainExactlyWhen | internal/bot/service.go:339-437 | off-peak a call answers with the main bot if and only if the entry is cached or the bot it restores is not a live helper |
| Resolver.LossBetweenCallsDelays | internal/bot/service.go:370-385 | the concrete case in which an entry lost between the first two calls delays the return |
| Migration.Manager.MigrateHelpersToMain | internal/fleet/manager.go:689-740 | no free user stays on a helper; exactly those move, each with one durable write and one notice if notices are on; everyone else stays |
| Migration.Manager.MigrateOne | internal/fleet/manager.go:699-728 | the same for the users of one helper |
| Migration.Manager.MoveUser | internal/fleet/manager.go:711-727 | one free user moves in both stores, with one write and at most one notice |
| Leases.Redis.TryLock | internal/queue/redis.go:296-298 | takes the lease exactly when no live one exists |
| Leases.Redis.ReleaseLock | internal/queue/redis.go:406-411 | deletes a live lease only under its own token |
| Leases.Redis.RenewLock | internal/queue/redis.go:301-307 | extends a live lease only under its own token |
| Leases.Redis.AcquireLock | internal/queue/redis.go:380-402 | whatever other clients do meanwhile, polling ends: with a lease taken when none was alive, or in front of a live one after the whole wait |
| Leases.StaleTokenIsHarmless | internal/queue/redis.go:406-411 | a token never deletes or extends a lease held under another token, however late |
| Leases.FireKeepsInv | internal/queue/redis.go:296-312 | whoever is inside and in time still owns the lease, after every step |
| Leases.ExclusionUnlessOverstayed | internal/queue/redis.go:380-402 | two agents inside one section mean that one of them has overstayed |
| Leases.MutualExclusion | internal/fleet/manager.go:196-278 | if every holder leaves within its lease, no two managers run the leader duties and no two workers process one user |
| Leases.OverstayingBreaksExclusion | internal/queue/redis.go:380-402 | the concrete run in which overstaying lets a second agent in |
| Leases.LeavingLetsTheNextIn | internal/queue/redis.go:406-411 | an agent that leaves in time frees its section for whoever comes next |
| Leases.RenewalInTimeSucceeds | internal/queue/redis.go:301-307 | an agent in time gets the whole new interval |
| Workers.WebhookAccepts | cmd/miogram/main.go:227-241 | an update is refused only if it has an id that was accepted before |
| Workers.WorkersTakeTurns | cmd/miogram/main.go:249-277 | a free worker takes the oldest update; one whose lock does not come puts it back last |
| Workers.FreeLockIsTaken | cmd/miogram/main.go:268-279 | an update is processed when nobody holds its user's lock, under that lock, and at once without a user |
| Workers.FireKeepsPlace | cmd/miogram/main.go:247-284 | every step of webhook and workers keeps each accepted update in exactly one place |
| Workers.FireKeepsLocks | cmd/miogram/main.go:271-282 | a worker holds a user's lock exactly while it processes that user's update |
| Workers.UpdatesAreHandledOnce | cmd/miogram/main.go:227-284 | in every run each accepted update is in the queue, one worker's hands or done, once; one user's updates are processed by one worker unless a lock was outstayed |
| Outbound.Queues.EnqueueJob | internal/telegram/client.go:107-128 | pushes to the chat's shard, to the front for answerCallbackQuery |
| Outbound.ShardIsTheRemainder | internal/telegram/client.go:408-417 | the chat's hash modulo the shard count, also for a negative hash |
| Outbound.WorkersAnswer | internal/telegram/client.go:299-361 | a worker sends the head of its shard and posts the answer under the job's id until it is received |
| Outbound.Queues.Next | internal/telegram/client.go:299-309 | takes the head of one shard and nothing else |
| Outbound.Queues.TotalLength | internal/queue/redis.go:316-343 | the summed depth of all the bot's keys, those left over from another shard count included |
| Outbound.DepthCountsJobs | internal/queue/redis.go:316-343 | the depth is the number of jobs in all queues |
| Outbound.FireKeepsOrder | internal/telegram/client.go:289-369 | every step keeps: pushed for a chat = sent, then in hand, then queued, in that order |
| Outbound.FireKeepsResults | internal/telegram/client.go:355-361 | every step keeps each posted result the answer to the job with that id |
| Outbound.ShardsHoldOneQueue | internal/telegram/client.go:408-417 | the shards together hold the multiset of jobs a single queue would |
| Outbound.FireLosesNothing | internal/telegram/client.go:289-369 | every step keeps each push queued, in hand or sent, once |
| Outbound.SentInOrderWithOwnResults | internal/telegram/client.go:98-154 | under every interleaving a chat's jobs are sent in push order (answerCallbackQuery aside), none is lost or doubled, and each call can only receive its own result |
| Limiter.Limiter.Prune | internal/fleet/limiter.go:138-144 | drops the leading slots older than a second |
| Limiter.Limiter.Grow | internal/fleet/limiter.go:146-165 | one increment per whole second outside the cooldown, capped by Max |
| Limiter.Limiter.TryReserve | internal/fleet/limiter.go:83-98 | records an admission only within the budget, or as the only one; else the wait until the oldest slot is one second old, when one more would not fit |
| Limiter.NormalizedValues | internal/fleet/limiter.go:39-61 | the configured values that make sense stay, the others get their defaults |
| Limiter.GrownExactlyWhen | internal/fleet/limiter.go:146-165 | the budget grows by one increment, up to Max, exactly when no flood is within the cooldown and a whole second has passed |
| Limiter.ReservedExactlyWhen | internal/fleet/limiter.go:83-98 | which slots are dropped, exactly when a reservation is admitted, and how long it waits otherwise |
| Limiter.PenaltyValues | internal/fleet/limiter.go:102-121 | the budget after a flood in every case, when it happened and until when the limiter is flooded |
| Limiter.Limiter.Flood | internal/fleet/limiter.go:102-121 | the penalty, its cooldown and the returned pause |
| Limiter.WindowNeverExceedsBudget | internal/fleet/limiter.go:83-98 | at every recorded admission, in any run and with readings in any order, the last 1,000,000,000 nanoseconds hold one admission or no more than the budget |
| Limiter.AdmittedExactlyWhen | internal/fleet/limiter.go:83-98 | with a running clock a reservation is admitted at once if and only if the last second is empty or one more fits into the budget |
| Limiter.ZeroWaitWithoutRecord | internal/fleet/limiter.go:91-97 | a wait is never negative, and is zero without a record exactly when the oldest slot is one second old |
| Limiter.BudgetStaysInBounds | internal/fleet/limiter.go:39-61 | the budget stays at least Floor, at most max(Seed, Max), and at most Seed plus Increment per second since the first tick |
| Limiter.QuietSecondsGrow | internal/fleet/limiter.go:146-165 | without a flood and without a Max each second of sending adds one increment |
| Limiter.RepeatedPenalties | internal/fleet/limiter.go:102-121 | k penalties without a Max give max(Floor, b times Decay to the k) |
| Limiter.ConsecutiveFloods | internal/fleet/limiter.go:102-121 | after any run with a running clock and no Max, k floods in a row leave the budget at max(Floor, budget times Decay to the k) |
| Jalali.GregorianToJalali | internal/bot/util.go:203-227 | the step-by-step conversion computes the truncated date of the day number, which is the Jalali date when the number is not negative |
| Jalali.TruncatedIsRightExactlyWhen | internal/bot/util.go:210-226 | the computed date is valid and has the right number if and only if the day number is not negative or is a whole number of cycles |
| Jalali.JalaliOfIsInverse | internal/bot/util.go:210-226 | every day number has a valid Jalali date, and the Jalali day number undoes the conversion |
| Jalali.NextJalaliCounts | internal/bot/util.go:210-226 | consecutive Jalali days have consecutive numbers under the 33-year leap cycle |
| Jalali.JalaliNumbersAreOrdered | internal/bot/util.go:210-226 | Jalali dates and their numbers are ordered alike |
| Jalali.NextGregorianCounts | internal/bot/util.go:203-209 | consecutive Gregorian days have consecutive numbers |
| Jalali.ConversionIsFaithful | internal/bot/util.go:203-227 | a valid date becomes a valid date, the next day the next day, and the inverse gives the day back |
| Jalali.ConversionIsMonotone | internal/bot/util.go:203-227 | the conversion keeps the order of dates, both ways, and is injective |
| Jalali.MiscountedExactly | internal/bot/util.go:204-209 | a year's leap day is miscounted if and only if the year is below -3, is not -399, and is a leap year, follows one, or is -99 |
| Jalali.NextDayCountsExactlyWhen | internal/bot/util.go:203-209 | for every year: the next day counts one more if and only if it does not follow the February of such a year |
| Jalali.LeapDaysCounted | internal/bot/util.go:203-209 | no year from -3 on is miscounted; in year -4 two days share a number |
| Jalali.KnownDates | internal/bot/util.go:203-227 | two dates that fix the calendar's position |
| Payments.Service.BuyCoin | internal/bot/static.go:312-347 | the user's newest open payment for the same coins touched within 750 seconds, else a new row with the owner, coins and price asked for |
| Payments.Service.LoadOpen | internal/payments/service.go:41-49 | the copy a gateway request works on, if the payment is open |
| Payments.Service.StoreAuthority | internal/payments/service.go:84 | the later write, which does not look at the status: to the gateway under an authority nobody else holds |
| Payments.Service.GatewayRequest | internal/payments/service.go:34-86 | both in a row: moves an open payment to the gateway, leaves any other alone |
| Payments.Service.PaymentByAuthority | internal/payments/service.go:211-223 | a payment at the gateway with that authority, if there is one |
| Payments.Service.MarkPaid | internal/payments/service.go:173-189 | credits exactly when the payment is still at the gateway and the reference is new |
| Payments.Service.Verify | internal/payments/service.go:88-115 | credits exactly the payment of that authority, when the gateway accepts and the amounts agree |
| Payments.Service.LoadForCard | internal/bot/static.go:390-402 | the copy a card payment works on, if it is the user's own and in one of the three early statuses |
| Payments.Service.StoreCardReceipt | internal/bot/static.go:410 | the later write, which looks at the owner but not at the status |
| Payments.Service.StartCardPayment | internal/bot/static.go:389-410 | both in a row: moves the user's own payment to the card path from its three early statuses |
| Payments.Service.SubmitCardReceipt | internal/bot/static.go:445-472 | moves the user's own payment from card_receipt to card_review only |
| Payments.Service.AdminReviewCardReceipt | internal/bot/admin.go:191-292 | approve makes a reviewed payment successful and adds its coins, reject makes it rejected, edit reopens a rejected one; under their guards alone, and nothing else changes |
| Payments.Service.SelectStale | internal/jobs/scheduler.go:286-303 | at most fifty open payments untouched for more than 900 seconds as they stand, all of them when fewer |
| Payments.Service.StoreExpired | internal/jobs/scheduler.go:312 | the later write of one of them, which does not look at the status |
| Payments.Service.ExpirePayments | internal/jobs/scheduler.go:285-315 | the two phases in a row are a run of single expiries and leave no stale payment when there were fewer than fifty |
| Payments.FireKeepsInv | internal/payments/service.go:173-189 | every step that does not write over a successful payment keeps: credited once exactly when successful, unique authorities and references, existing owners |
| Payments.RunKeepsInv | internal/payments/service.go:173-189 | the same after any such run, with every handler acting on arbitrarily old copies |
| Payments.BooksKeptExactlyWhen | internal/payments/service.go:84 | over every run, every payment is credited once exactly when it is successful, at every moment, if and only if each unguarded write finds a payment that is not successful |
| Payments.LateCardWriteCreditsTwice | internal/bot/static.go:397-410 | a run in which a late card write reopens a credited payment and ten coins are credited twice |
| Payments.ForwardExactlyWhen | internal/bot/static.go:400-410 | a step moves every payment forward if and only if its unguarded write still finds a status its handler accepts (for an expiry: not a successful payment) |
| Payments.StagesNeverFall | internal/bot/admin.go:191-292 | in runs of such steps no stage ever falls, and success and expired are final |
| Payments.StatusSteps | internal/bot/admin.go:191-292 | the status changes that a step in time can make |
| Payments.SuccessIsFinal | internal/payments/service.go:173-189 | success is never left, and the payment never changes again, as long as no unguarded write hits it |
| Payments.PriceIsFixed | internal/bot/admin.go:191-292 | in every run a payment's owner, coins and amount stay as inserted |
| Payments.CreditedExactlyWhenItSucceeds | internal/payments/service.go:173-189 | a run without such a hit credits a payment exactly once if it becomes successful in it, else not at all |
| Payments.CreditPays | internal/bot/admin.go:272-292 | a credit matches the payment's coins if and only if the owner's row exists or there are none |
| Payments.BalanceFollowsPayments | internal/payments/service.go:173-189 | over every run without such a hit a balance changes by the coins of the user's newly successful payments and by what the rest of the bot did |
| Payments.BalanceIsWhatWasPaid | internal/payments/service.go:173-189 | from empty tables a balance is the coins of the user's successful payments and what the rest of the bot did, and nothing was credited twice |
| Payments.StatementKeepsBooksExactlyWhen | internal/payments/service.go:84 | any one statement keeps the books if and only if it is not an unguarded write over a successful payment |
| Decimal.FillDigits | internal/queue/redis.go:492-502 | the digit loop stays inside the 20-byte buffer and writes the numeral |
| Decimal.NumeralIsDecimal | internal/queue/redis.go:497-500 | the last digit is the remainder by ten |
| Decimal.Itoa | internal/fleet/ring.go:78-90 | the numeral of every non-negative number, nothing for a negative one |
| Decimal.Int64String | internal/queue/redis.go:488-508 | the signed numeral, with the smallest integer printed as a bare minus sign |
| Decimal.Int64StringParsesBack | internal/queue/redis.go:488-508 | parsing gives the number back if and only if it is not the smallest 64-bit integer |
| Decimal.SeedInjective | internal/fleet/ring.go:73-76 | different (member, vnode) pairs are hashed from different seeds |
| Decimal.FormatNumber | internal/bot/util.go:68-83 | the loop writes the separated numeral of the wrapped magnitude |
| Decimal.FormatNumberParsesBack | internal/bot/util.go:68-83 | without its commas it parses back if and only if it is not the smallest 64-bit integer |
| Decimal.SeparatedIsGrouped | internal/bot/util.go:74-81 | exactly three digits in every group but the first |

## Left out

- HTTP handlers, the Telegram API, JSON, files, message texts, keyboards and process wiring: jobs, parameters and answers are opaque values.
- Columns no branch reads (`num_chats`, timestamps of chats, profile fields) and the random profile of a synthetic user; the drawn record is a parameter.
- Deletion of ended chats and of old synthetic users by the scheduler (internal/jobs/scheduler.go:60-61): the ledger keeps them, so kept coins stay countable.
- Coins the bot grants or takes outside chats and payments (referrals, bonuses, admin grants): no transaction of the ledger; `Payments` counts them as adjustments.
- Exclusive search claims: a claim is released after 30 seconds by the search's date (internal/jobs/scheduler.go:63), so two requesters may hold one search; only the chat creation decides.
- Non-negative balances: `CreateChat` never checks the balance, so none is claimed.
- Distance searches (trigonometry in SQL), mode evaluation, peak windows, tic-tac-toe, broadcast paging and monitoring.
- Redis expiry of pending lists and of dedupe keys, store errors and worker crashes: outside the runs. Loss of routing entries and expiry of leases are modelled.
- A sweep without a deliverer: with none wired, a list of stale jobs is repushed for ever (internal/fleet/manager.go:471-474).
- Order of pending messages: a fresh head is rotated to the tail, so none is claimed; two sweepers of one bot at a time are not modelled either.
- Pending jobs whose parameters do not decode, and the sender notices with their cooldown.
- The order and contents of `sort.Strings` and `sort.Slice` come from a reference sort; that `Set` sorts its caller's slice in place is not shown.
- HashRing.Search: the sorted-search routine is Go's `sort.Search`, written out as its binary search.
- Leases.MutualExclusion: a delayed release or renewal is an event of its own; that a lease interval is long enough for the work is the hypothesis, not a result.
- Retries after a 429 answer inside one send count as one send; a job that does not decode is never sent and not modelled; at most one process works each bot's shards.
- Floating point: budgets are real numbers, so rounding is not modelled.
- Resolver.Service.ResolveDelivery: store errors and missing stores are left out; creating a row stands for `CreateUser`, and a cached entry is read and written in one step per user.
- Migration.Manager.MigrateHelpersToMain: no other call moves users while it runs, and no store error occurs; a failed chat check is modelled.
- Jalali.ConversionIsFaithful: stated from year -3 on; before, `Jalali.NextDayCountsExactlyWhen` and `Jalali.TruncatedIsRightExactlyWhen` give the exact conditions of its two halves.
- Payments.StagesNeverFall: likewise holds only while unguarded writes come in time; `Payments.ForwardExactlyWhen` is the exact condition of each step.
- Payments.RunKeepsInv: the property is promised for every run and holds only without late unguarded writes over a successful payment, as said above.
- Tracking numbers, the `amounts` table, coin counts as 32-bit columns and the texts sent to buyers and admins.
- 64-bit overflow outside the printers.
- `SetUserBot`, `EnqueueUnique` and the other unused variants of queue calls.
