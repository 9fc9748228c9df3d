/** Token-checked lease locks (internal/queue/redis.go): the per-user locks of the
    workers and the fleet leadership lease.  Times are milliseconds. */
module Leases {

  type Key = string
  type Token = nat
  type AgentId = nat

  datatype Lease = Lease(token: Token, expiry: int)

  datatype Server = Server(locks: map<Key, Lease>, now: int)

  /** An expired key is the same as no key. */
  predicate Live(s: Server, key: Key) {
    key in s.locks && s.now < s.locks[key].expiry
  }

  predicate HeldBy(s: Server, key: Key, token: Token) {
    Live(s, key) && s.locks[key].token == token
  }

  /** SET key token NX PX ttl. */
  function SetNX(s: Server, key: Key, token: Token, ttl: int): (Server, bool) {
    if Live(s, key) then (s, false) else (s.(locks := s.locks[key := Lease(token, s.now + ttl)]), true)
  }

  /** releaseScript and releaseLeaderScript: delete only one's own lease. */
  function Release(s: Server, key: Key, token: Token): Server {
    if HeldBy(s, key, token) then s.(locks := s.locks - {key}) else s
  }

  /** renewLeaderScript: extend only one's own lease. */
  function Renew(s: Server, key: Key, token: Token, ttl: int): (Server, bool) {
    if HeldBy(s, key, token) then (s.(locks := s.locks[key := Lease(token, s.now + ttl)]), true) else (s, false)
  }

  class Redis {
    var locks: map<Key, Lease>
    var now: int

    ghost function View(): Server
      reads this
    {
      Server(locks, now)
    }

    constructor (now: int)
      ensures View() == Server(map[], now)
    {
      locks, this.now := map[], now;
    }

    method TryLock(key: Key, token: Token, ttl: int) returns (ok: bool)
      modifies this`locks
      ensures (View(), ok) == SetNX(old(View()), key, token, ttl)
      ensures ok <==> !(key in old(locks) && now < old(locks)[key].expiry)
      ensures locks == if ok then old(locks)[key := Lease(token, now + ttl)] else old(locks)
    {
      if key in locks && now < locks[key].expiry {
        return false;
      }
      locks := locks[key := Lease(token, now + ttl)];
      return true;
    }

    method ReleaseLock(key: Key, token: Token)
      modifies this`locks
      ensures View() == Release(old(View()), key, token)
      ensures locks == if key in old(locks) && now < old(locks)[key].expiry && old(locks)[key].token == token
                       then old(locks) - {key} else old(locks)
    {
      if key in locks && now < locks[key].expiry && locks[key].token == token {
        locks := locks - {key};
      }
    }

    method RenewLock(key: Key, token: Token, ttl: int) returns (ok: bool)
      modifies this`locks
      ensures (View(), ok) == Renew(old(View()), key, token, ttl)
      ensures ok <==> key in old(locks) && now < old(locks)[key].expiry && old(locks)[key].token == token
      ensures locks == if ok then old(locks)[key := Lease(token, now + ttl)] else old(locks)
    {
      ok := key in locks && now < locks[key].expiry && locks[key].token == token;
      if ok {
        locks := locks[key := Lease(token, now + ttl)];
      }
    }

    /** AcquireLock's polling loop.  `extra(k)` is how late the k-th wake-up is, and
        `others(k, locks)` what the other clients have made of the locks by then.
        It takes the lease when it finds none alive, and fails only in front of a
        live one, after the whole wait. */
    method AcquireLock(key: Key, token: Token, ttl: int, wait: int, extra: nat -> nat,
                       others: (nat, map<Key, Lease>) -> map<Key, Lease>) returns (ok: bool, ghost sleeps: nat)
      modifies this
      ensures old(now) + 100 * sleeps <= now
      ensures var seen := Server(Meanwhile(others, old(locks), sleeps), now);
              if ok then (View(), true) == SetNX(seen, key, token, ttl)
              else View() == seen && Live(seen, key) && (if wait <= 0 then sleeps == 0 else now > old(now) + wait)
    {
      var deadline := now + wait;
      var k := 0;
      while true
        invariant locks == Meanwhile(others, old(locks), k)
        invariant deadline == old(now) + wait && old(now) + 100 * k <= now && (wait <= 0 ==> k == 0)
        decreases deadline + 100 - now
      {
        ok := TryLock(key, token, ttl);
        if ok {
          return true, k;
        }
        if wait <= 0 || now > deadline {
          return false, k;
        }
        now := now + 100 + extra(k);
        locks := others(k, locks);
        k := k + 1;
      }
    }
  }

  /** The locks after the other clients' acts during `sleeps` sleeps. */
  function Meanwhile(others: (nat, map<Key, Lease>) -> map<Key, Lease>, locks: map<Key, Lease>, sleeps: nat)
    : map<Key, Lease>
  {
    if sleeps == 0 then locks else others(sleeps - 1, Meanwhile(others, locks, sleeps - 1))
  }

  // ----- Stale tokens -----

  /** A token never deletes or extends a lease held under another token, however
      late its release or renewal arrives. */
  lemma StaleTokenIsHarmless(s: Server, key: Key, token: Token, ttl: int, other: Key)
    requires other in s.locks && s.locks[other].token != token
    ensures other in Release(s, key, token).locks && Release(s, key, token).locks[other] == s.locks[other]
    ensures other in Renew(s, key, token, ttl).0.locks && Renew(s, key, token, ttl).0.locks[other] == s.locks[other]
  {}

  // ----- Holders and their critical sections -----

  /** An agent inside the critical section of `key`; `deadline` is when the lease
      it acquired or last renewed runs out. */
  datatype Holder = Holder(key: Key, token: Token, deadline: int)

  datatype State = State(server: Server, inside: map<AgentId, Holder>, nextToken: Token)

  datatype Event =
    | Tick(d: nat)
    | Enter(a: AgentId, key: Key, ttl: int)
    | Extend(a: AgentId, ttl: int, stays: bool)
    | Leave(a: AgentId)
    | LateRelease(key: Key, token: Token)
    | LateRenew(key: Key, token: Token, ttl: int)

  /** Tokens are fresh; a late script runs for an agent that has left.  A renewal
      may ask for any lease, and an agent whose renewal fails may go on. */
  predicate CanFire(s: State, e: Event) {
    match e
    case Tick(_) => true
    case Enter(a, _, ttl) => a !in s.inside && ttl > 0
    case Extend(a, _, _) => a in s.inside
    case Leave(a) => a in s.inside
    case LateRelease(_, token) => forall a | a in s.inside :: s.inside[a].token != token
    case LateRenew(_, token, _) => forall a | a in s.inside :: s.inside[a].token != token
  }

  function Fire(s: State, e: Event): State
    requires CanFire(s, e)
  {
    match e
    case Tick(d) => s.(server := s.server.(now := s.server.now + d))
    case Enter(a, key, ttl) =>
      var (server, ok) := SetNX(s.server, key, s.nextToken, ttl);
      State(server,
            if ok then s.inside[a := Holder(key, s.nextToken, s.server.now + ttl)] else s.inside,
            s.nextToken + 1)
    case Extend(a, ttl, stays) =>
      var h := s.inside[a];
      var (server, ok) := Renew(s.server, h.key, h.token, ttl);
      State(server,
            if ok then s.inside[a := h.(deadline := s.server.now + ttl)]
            else if stays then s.inside else s.inside - {a},
            s.nextToken)
    case Leave(a) =>
      s.(server := Release(s.server, s.inside[a].key, s.inside[a].token), inside := s.inside - {a})
    case LateRelease(key, token) => s.(server := Release(s.server, key, token))
    case LateRenew(key, token, ttl) => s.(server := Renew(s.server, key, token, ttl).0)
  }

  predicate InTime(s: State, a: AgentId)
    requires a in s.inside
  {
    s.server.now < s.inside[a].deadline
  }

  /** Whoever is inside and in time still owns the lease on the server. */
  ghost predicate Inv(s: State) {
    && (forall a | a in s.inside :: s.inside[a].token < s.nextToken)
    && (forall a, b | a in s.inside && b in s.inside && a != b :: s.inside[a].token != s.inside[b].token)
    && (forall a | a in s.inside && InTime(s, a) ::
          var h := s.inside[a];
          h.key in s.server.locks && s.server.locks[h.key] == Lease(h.token, h.deadline))
  }

  lemma EnterKeepsInv(s: State, a: AgentId, key: Key, ttl: int)
    requires Inv(s) && CanFire(s, Enter(a, key, ttl))
    ensures Inv(Fire(s, Enter(a, key, ttl)))
  {}

  lemma ExtendKeepsInv(s: State, a: AgentId, ttl: int, stays: bool)
    requires Inv(s) && CanFire(s, Extend(a, ttl, stays))
    ensures Inv(Fire(s, Extend(a, ttl, stays)))
  {}

  lemma LeaveKeepsInv(s: State, a: AgentId)
    requires Inv(s) && CanFire(s, Leave(a))
    ensures Inv(Fire(s, Leave(a)))
  {}

  lemma FireKeepsInv(s: State, e: Event)
    requires Inv(s) && CanFire(s, e)
    ensures Inv(Fire(s, e))
  {
    match e
    case Enter(a, key, ttl) => EnterKeepsInv(s, a, key, ttl);
    case Extend(a, ttl, stays) => ExtendKeepsInv(s, a, ttl, stays);
    case Leave(a) => LeaveKeepsInv(s, a);
    case _ =>
  }

  /** With no assumption on timing: two agents inside the same section mean that
      one of them has overstayed its lease. */
  lemma ExclusionUnlessOverstayed(s: State, a: AgentId, b: AgentId)
    requires Inv(s) && a in s.inside && b in s.inside && s.inside[a].key == s.inside[b].key
    ensures a == b || !InTime(s, a) || !InTime(s, b)
  {}

  /** Time never passes an agent's deadline while it is inside, and no agent cuts
      its own lease to nothing. */
  predicate Timely(s: State, e: Event) {
    && (e.Tick? ==> forall a | a in s.inside :: s.server.now + e.d < s.inside[a].deadline)
    && (e.Extend? ==> e.ttl > 0)
  }

  ghost predicate TimelyRun(s: State, events: seq<Event>)
    decreases |events|
  {
    events == [] ||
    (CanFire(s, events[0]) && Timely(s, events[0]) && TimelyRun(Fire(s, events[0]), events[1..]))
  }

  ghost function Final(s: State, events: seq<Event>): State
    requires TimelyRun(s, events)
    decreases |events|
  {
    if events == [] then s else Final(Fire(s, events[0]), events[1..])
  }

  ghost predicate AllInTime(s: State) {
    forall a | a in s.inside :: InTime(s, a)
  }

  /** If every holder leaves within the lease of its acquisition or last
      successful renewal, no two agents are ever inside the same section: no two
      workers process one user, and no two managers run the leader duties. */
  lemma {:induction false} MutualExclusion(s: State, events: seq<Event>, a: AgentId, b: AgentId)
    requires Inv(s) && AllInTime(s) && TimelyRun(s, events)
    ensures var s' := Final(s, events);
            a in s'.inside && b in s'.inside && s'.inside[a].key == s'.inside[b].key ==> a == b
    decreases |events|
  {
    if events == [] {
      if a in s.inside && b in s.inside && s.inside[a].key == s.inside[b].key {
        ExclusionUnlessOverstayed(s, a, b);
      }
    } else {
      FireKeepsInv(s, events[0]);
      MutualExclusion(Fire(s, events[0]), events[1..], a, b);
    }
  }

  /** An agent that leaves in time frees its section: whoever comes next gets in. */
  lemma LeavingLetsTheNextIn(s: State, a: AgentId, b: AgentId, ttl: int)
    requires Inv(s) && a in s.inside && InTime(s, a) && ttl > 0 && (b == a || b !in s.inside)
    ensures var key, left := s.inside[a].key, Fire(s, Leave(a));
            var entered := Fire(left, Enter(b, key, ttl));
            && key !in left.server.locks
            && b in entered.inside && entered.inside[b] == Holder(key, s.nextToken, s.server.now + ttl)
            && entered.server.locks[key] == Lease(s.nextToken, s.server.now + ttl)
  {}

  /** An agent in time renews its lease for the whole new interval, and so it stays
      in time until then. */
  lemma RenewalInTimeSucceeds(s: State, a: AgentId, ttl: int, stays: bool)
    requires Inv(s) && a in s.inside && InTime(s, a)
    ensures var s' := Fire(s, Extend(a, ttl, stays));
            && a in s'.inside && s'.inside[a].deadline == s.server.now + ttl
            && s'.inside[a].key in s'.server.locks
            && s'.server.locks[s'.inside[a].key] == Lease(s.inside[a].token, s.server.now + ttl)
  {}

  /** Overstaying really does let a second agent in. */
  lemma OverstayingBreaksExclusion()
    ensures var s := State(Server(map[], 0), map[], 0);
            var s1 := Fire(s, Enter(1, "k", 10));
            var s2 := Fire(s1, Tick(10));
            var s3 := Fire(s2, Enter(2, "k", 10));
            Inv(s) && 1 in s3.inside && 2 in s3.inside && s3.inside[1].key == s3.inside[2].key
  {}
}

/** The webhook and the worker loop (cmd/miogram/main.go): deduplicated updates
    that are dequeued, locked per user, processed or requeued. */
module Workers {
  import Leases

  datatype Update = Update(id: int, user: string)

  /** A worker's hand: empty, holding an update while it waits for the user's
      lock, or processing it. */
  datatype Hand = Free | Waiting(update: Update) | Processing(update: Update)

  datatype State = State(leases: Leases.State, seen: set<int>, inbound: seq<Update>, hands: seq<Hand>,
                         done: seq<Update>, dropped: seq<Update>)

  datatype Event =
    | Webhook(update: Update)
    | Dequeue(w: nat)
    | TryLock(w: nat, ttl: int)
    | LockTimeout(w: nat)
    | Finish(w: nat)
    | Tick(d: nat)

  function LockKey(user: string): Leases.Key {
    "miogram:userlock:" + user
  }

  predicate CanFire(s: State, e: Event) {
    match e
    case Webhook(_) => true
    case Dequeue(w) => w < |s.hands| && s.hands[w].Free? && s.inbound != []
    case TryLock(w, ttl) => w < |s.hands| && s.hands[w].Waiting? && ttl > 0 && w !in s.leases.inside
    case LockTimeout(w) => w < |s.hands| && s.hands[w].Waiting? && s.hands[w].update.user != ""
    case Finish(w) =>
      && w < |s.hands| && s.hands[w].Processing?
      && (s.hands[w].update.user != "" ==> w in s.leases.inside)
    case Tick(_) => true
  }

  function Fire(s: State, e: Event): State
    requires CanFire(s, e)
  {
    match e
    case Webhook(update) =>
      if update.id != 0 && update.id in s.seen then s.(dropped := s.dropped + [update])
      else s.(inbound := s.inbound + [update], seen := if update.id != 0 then s.seen + {update.id} else s.seen)
    case Dequeue(w) => s.(hands := s.hands[w := Waiting(s.inbound[0])], inbound := s.inbound[1..])
    case TryLock(w, ttl) =>
      var update := s.hands[w].update;
      if update.user == "" then s.(hands := s.hands[w := Processing(update)])
      else
        var leases := Leases.Fire(s.leases, Leases.Enter(w, LockKey(update.user), ttl));
        s.(leases := leases, hands := if w in leases.inside then s.hands[w := Processing(update)] else s.hands)
    case LockTimeout(w) => s.(inbound := s.inbound + [s.hands[w].update], hands := s.hands[w := Free])
    case Finish(w) =>
      var update := s.hands[w].update;
      s.(done := s.done + [update], hands := s.hands[w := Free],
         leases := if update.user != "" then Leases.Fire(s.leases, Leases.Leave(w)) else s.leases)
    case Tick(d) => s.(leases := Leases.Fire(s.leases, Leases.Tick(d)))
  }

  /** The webhook refuses an update only if it has an id that was accepted before. */
  lemma WebhookAccepts(s: State, update: Update)
    ensures var s' := Fire(s, Webhook(update));
            && s'.inbound == (if update.id == 0 || update.id !in s.seen then s.inbound + [update] else s.inbound)
            && s'.seen == (if update.id == 0 then s.seen else s.seen + {update.id})
            && s'.hands == s.hands && s'.done == s.done && s'.leases == s.leases
  {}

  /** A free worker takes the oldest update; one whose lock does not come in time
      puts it back last and is free again. */
  lemma WorkersTakeTurns(s: State, w: nat)
    ensures CanFire(s, Dequeue(w)) ==>
              var s' := Fire(s, Dequeue(w));
              s.inbound == [s.inbound[0]] + s'.inbound && s'.hands[w] == Waiting(s.inbound[0])
    ensures CanFire(s, LockTimeout(w)) ==>
              var s' := Fire(s, LockTimeout(w));
              s'.inbound == s.inbound + [s.hands[w].update] && s'.hands[w] == Free
  {}

  /** A user's update is processed as soon as nobody holds the user's lock, under a
      lease of that user's own, and at once when it belongs to no user. */
  lemma FreeLockIsTaken(s: State, w: nat, ttl: int)
    requires CanFire(s, TryLock(w, ttl))
    ensures var u, s' := s.hands[w].update, Fire(s, TryLock(w, ttl));
            var key := "miogram:userlock:" + u.user;
            && (u.user == "" ==> s'.hands[w] == Processing(u) && s'.leases == s.leases)
            && (u.user != "" && !Leases.Live(s.leases.server, key) ==>
                  s'.hands[w] == Processing(u) && w in s'.leases.inside && s'.leases.inside[w].key == key)
            && (u.user != "" && Leases.Live(s.leases.server, key) ==> s'.hands == s.hands)
  {}

  // ----- Exactly one place -----

  function Is(u: Update, id: int): nat {
    if u.id == id then 1 else 0
  }

  function Count(updates: seq<Update>, id: int): nat {
    if updates == [] then 0 else Is(updates[0], id) + Count(updates[1..], id)
  }

  function InHand(h: Hand, id: int): nat {
    if h.Free? then 0 else Is(h.update, id)
  }

  function Held(hands: seq<Hand>, id: int): nat {
    if hands == [] then 0 else InHand(hands[0], id) + Held(hands[1..], id)
  }

  lemma {:induction false} CountAppend(updates: seq<Update>, u: Update, id: int)
    ensures Count(updates + [u], id) == Count(updates, id) + Is(u, id)
  {
    if updates == [] {
      assert [u][1..] == [];
    } else {
      CountAppend(updates[1..], u, id);
      assert (updates + [u])[1..] == updates[1..] + [u];
    }
  }

  lemma {:induction false} HeldUpdate(hands: seq<Hand>, w: nat, h: Hand, id: int)
    requires w < |hands|
    ensures Held(hands[w := h], id) == Held(hands, id) - InHand(hands[w], id) + InHand(h, id)
  {
    if w == 0 {
      assert hands[0 := h][1..] == hands[1..];
    } else {
      HeldUpdate(hands[1..], w - 1, h, id);
      assert hands[w := h][1..] == hands[1..][w - 1 := h];
    }
  }

  /** An accepted update id is queued, in one worker's hands or done, once in
      all; an id never accepted is nowhere. */
  predicate OnePlace(s: State, id: int) {
    Count(s.inbound, id) + Held(s.hands, id) + Count(s.done, id) == if id in s.seen then 1 else 0
  }

  lemma FireKeepsPlace(s: State, e: Event, id: int)
    requires CanFire(s, e) && OnePlace(s, id) && id != 0
    ensures OnePlace(Fire(s, e), id)
  {
    match e {
      case Webhook(update) => CountAppend(s.inbound, update, id);
      case Dequeue(w) => HeldUpdate(s.hands, w, Waiting(s.inbound[0]), id);
      case TryLock(w, ttl) => HeldUpdate(s.hands, w, Processing(s.hands[w].update), id);
      case LockTimeout(w) =>
        CountAppend(s.inbound, s.hands[w].update, id);
        HeldUpdate(s.hands, w, Free, id);
      case Finish(w) =>
        CountAppend(s.done, s.hands[w].update, id);
        HeldUpdate(s.hands, w, Free, id);
      case Tick(_) =>
    }
  }

  // ----- One worker per user -----

  /** A worker is inside a user's lock exactly while it processes that user's update. */
  ghost predicate LocksMatchHands(s: State) {
    && Leases.Inv(s.leases)
    && (forall w | w in s.leases.inside :: w < |s.hands| && s.hands[w].Processing?)
    && (forall w | 0 <= w < |s.hands| && s.hands[w].Processing? && s.hands[w].update.user != "" ::
          w in s.leases.inside && s.leases.inside[w].key == LockKey(s.hands[w].update.user))
    && (forall w | w in s.leases.inside :: s.hands[w].update.user != "")
  }

  lemma TryLockKeepsLocks(s: State, w: nat, ttl: int)
    requires CanFire(s, TryLock(w, ttl)) && LocksMatchHands(s)
    ensures LocksMatchHands(Fire(s, TryLock(w, ttl)))
  {
    if s.hands[w].update.user != "" {
      Leases.FireKeepsInv(s.leases, Leases.Enter(w, LockKey(s.hands[w].update.user), ttl));
    }
  }

  lemma FinishKeepsLocks(s: State, w: nat)
    requires CanFire(s, Finish(w)) && LocksMatchHands(s)
    ensures LocksMatchHands(Fire(s, Finish(w)))
  {
    if s.hands[w].update.user != "" { Leases.FireKeepsInv(s.leases, Leases.Leave(w)); }
  }

  lemma FireKeepsLocks(s: State, e: Event)
    requires CanFire(s, e) && LocksMatchHands(s)
    ensures LocksMatchHands(Fire(s, e))
  {
    match e {
      case TryLock(w, ttl) => TryLockKeepsLocks(s, w, ttl);
      case Finish(w) => FinishKeepsLocks(s, w);
      case Tick(d) => Leases.FireKeepsInv(s.leases, Leases.Tick(d));
      case _ =>
    }
  }

  ghost predicate CanRun(s: State, events: seq<Event>)
    decreases |events|
  {
    events == [] || (CanFire(s, events[0]) && CanRun(Fire(s, events[0]), events[1..]))
  }

  ghost function Final(s: State, events: seq<Event>): State
    requires CanRun(s, events)
    decreases |events|
  {
    if events == [] then s else Final(Fire(s, events[0]), events[1..])
  }

  lemma {:induction false} RunKeeps(s: State, events: seq<Event>, id: int)
    requires CanRun(s, events) && LocksMatchHands(s) && OnePlace(s, id) && id != 0
    ensures LocksMatchHands(Final(s, events)) && OnePlace(Final(s, events), id)
    decreases |events|
  {
    if events != [] {
      FireKeepsLocks(s, events[0]);
      FireKeepsPlace(s, events[0], id);
      RunKeeps(Fire(s, events[0]), events[1..], id);
    }
  }

  function Idle(workers: nat): seq<Hand> {
    seq(workers, _ => Free)
  }

  lemma {:induction false} IdleHoldsNothing(hands: seq<Hand>, id: int)
    requires forall w | 0 <= w < |hands| :: hands[w].Free?
    ensures Held(hands, id) == 0
  {
    if hands != [] { IdleHoldsNothing(hands[1..], id); }
  }

  /** From a fresh start, however updates are redelivered, requeued and
      interleaved: every accepted non-zero update is in exactly one place, and two
      workers processing the same user are one worker, unless one of them has
      outstayed its lock. */
  lemma UpdatesAreHandledOnce(workers: nat, now: int, events: seq<Event>, id: int, v: nat, w: nat)
    requires id != 0
    requires var s := State(Leases.State(Leases.Server(map[], now), map[], 0), {}, [], Idle(workers), [], []);
             CanRun(s, events)
    ensures var s := State(Leases.State(Leases.Server(map[], now), map[], 0), {}, [], Idle(workers), [], []);
            var s' := Final(s, events);
            && OnePlace(s', id)
            && (v < |s'.hands| && w < |s'.hands| && s'.hands[v].Processing? && s'.hands[w].Processing?
                && s'.hands[v].update.user == s'.hands[w].update.user != ""
                ==> v == w || (v in s'.leases.inside && !Leases.InTime(s'.leases, v))
                           || (w in s'.leases.inside && !Leases.InTime(s'.leases, w)))
  {
    var s := State(Leases.State(Leases.Server(map[], now), map[], 0), {}, [], Idle(workers), [], []);
    IdleHoldsNothing(s.hands, id);
    RunKeeps(s, events, id);
    var s' := Final(s, events);
    if v < |s'.hands| && w < |s'.hands| && s'.hands[v].Processing? && s'.hands[w].Processing?
       && s'.hands[v].update.user == s'.hands[w].update.user != "" {
      Leases.ExclusionUnlessOverstayed(s'.leases, v, w);
    }
  }
}
