/** The user-to-bot routing table with its reverse index (internal/queue/redis.go). */
module Routing {

  type UserId = string
  type BotId = string

  const SHARDS := 10000

  /** The sum of the code points of the first `i` characters. */
  function CodeSum(s: string, i: nat): nat
    requires i <= |s|
  {
    if i == 0 then 0 else CodeSum(s, i - 1) + s[i - 1] as nat
  }

  function Shard(user: UserId): nat {
    CodeSum(user, |user|) % SHARDS
  }

  method UserShard(user: UserId) returns (shard: nat)
    ensures shard == Shard(user) < SHARDS
  {
    var sum := 0;
    for i := 0 to |user|
      invariant sum == CodeSum(user, i)
    {
      sum := sum + user[i] as nat;
    }
    shard := sum % SHARDS;
  }

  lemma {:induction false} CodeSumOfStart(s: string, t: string, i: nat)
    requires i <= |s|
    ensures CodeSum(s + t, i) == CodeSum(s, i)
  {
    if i > 0 {
      CodeSumOfStart(s, t, i - 1);
      assert (s + t)[i - 1] == s[i - 1];
    }
  }

  /** Every character adds its code to the shard number, wherever it stands. */
  lemma {:induction false} ShardsAdd(s: string, t: string)
    ensures CodeSum(s + t, |s + t|) == CodeSum(s, |s|) + CodeSum(t, |t|)
    ensures forall c: char :: CodeSum([c], 1) == c as nat
    decreases |t|
  {
    forall c: char ensures CodeSum([c], 1) == c as nat { assert CodeSum([c], 0) == 0; }
    if t == [] {
      assert s + t == s;
    } else {
      var front, last := t[..|t| - 1], t[|t| - 1];
      ShardsAdd(s, front);
      assert s + t == (s + front) + [last] && t == front + [last];
      CodeSumOfStart(s + front, [last], |s + front|);
      CodeSumOfStart(front, [last], |front|);
    }
  }

  /** The Redis hashes user_bot_routing:<shard> and sets user_bot_reverse:<bot>. */
  datatype Table = Table(hashes: map<nat, map<UserId, BotId>>, reverse: map<BotId, set<UserId>>)

  function HashOf(t: Table, shard: nat): map<UserId, BotId> {
    if shard in t.hashes then t.hashes[shard] else map[]
  }

  /** HGET in the user's shard; the empty string when there is no entry. */
  function Lookup(t: Table, u: UserId): BotId {
    var hash := HashOf(t, Shard(u));
    if u in hash then hash[u] else ""
  }

  predicate HasEntry(t: Table, u: UserId) {
    u in HashOf(t, Shard(u))
  }

  function Members(t: Table, b: BotId): set<UserId> {
    if b in t.reverse then t.reverse[b] else {}
  }

  function SAdd(reverse: map<BotId, set<UserId>>, b: BotId, u: UserId): map<BotId, set<UserId>> {
    reverse[b := (if b in reverse then reverse[b] else {}) + {u}]
  }

  function SRem(reverse: map<BotId, set<UserId>>, b: BotId, u: UserId): map<BotId, set<UserId>> {
    if b in reverse then reverse[b := reverse[b] - {u}] else reverse
  }

  /** registerUserBotScript; MoveUserBot is the same call. */
  function Register(t: Table, u: UserId, b: BotId): (Table, bool) {
    var shard := Shard(u);
    if HasEntry(t, u) && Lookup(t, u) == b then (t, false)
    else
      var added := SAdd(t.reverse, b, u);
      (Table(t.hashes[shard := HashOf(t, shard)[u := b]],
             if Lookup(t, u) != "" then SRem(added, Lookup(t, u), u) else added), true)
  }

  /** An entry of the routing hash is lost; the reverse index stays. */
  function Lose(t: Table, u: UserId): Table {
    Table(t.hashes[Shard(u) := HashOf(t, Shard(u)) - {u}], t.reverse)
  }

  const EMPTY := Table(map[], map[])

  class RoutingTable {
    var hashes: map<nat, map<UserId, BotId>>
    var reverse: map<BotId, set<UserId>>

    ghost function View(): Table
      reads this
    {
      Table(hashes, reverse)
    }

    constructor ()
      ensures View() == EMPTY
    {
      hashes, reverse := map[], map[];
    }

    method GetUserBot(u: UserId) returns (b: BotId)
      ensures b == Lookup(View(), u)
    {
      var shard := UserShard(u);
      b := if shard in hashes && u in hashes[shard] then hashes[shard][u] else "";
    }

    method RegisterUserBot(u: UserId, b: BotId) returns (changed: bool)
      modifies this
      ensures (View(), changed) == Register(old(View()), u, b)
    {
      var shard := UserShard(u);
      var hash := if shard in hashes then hashes[shard] else map[];
      if u in hash && hash[u] == b {
        return false;
      }
      var previous := if u in hash then hash[u] else "";
      hashes := hashes[shard := hash[u := b]];
      reverse := SAdd(reverse, b, u);
      if previous != "" {
        reverse := SRem(reverse, previous, u);
      }
      return true;
    }

    method UsersMappedTo(b: BotId) returns (users: set<UserId>)
      ensures users == Members(View(), b)
    {
      users := if b in reverse then reverse[b] else {};
    }
  }

  // ----- The reverse index -----

  /** For every named bot, the reverse set holds exactly the users routed to it. */
  ghost predicate ReverseAgrees(t: Table) {
    forall b, u | b != "" :: u in Members(t, b) <==> Lookup(t, u) == b
  }

  /** Every entry lies in the shard of its user, so the sharded hashes are one flat map. */
  ghost predicate WellSharded(t: Table) {
    forall shard, u | shard in t.hashes && u in t.hashes[shard] :: shard == Shard(u)
  }

  /** The sharded hashes read as one map. */
  ghost predicate Refines(t: Table, flat: map<UserId, BotId>) {
    forall u :: (u in flat <==> HasEntry(t, u)) && (u in flat ==> flat[u] == Lookup(t, u))
  }

  /** Registering is one assignment to the flat map, whatever the users' shards;
      the flag says whether the mapping changed. */
  lemma RegisterRefinesFlatMap(t: Table, flat: map<UserId, BotId>, u: UserId, b: BotId)
    requires Refines(t, flat)
    ensures Refines(Register(t, u, b).0, flat[u := b])
    ensures Register(t, u, b).1 <==> flat[u := b] != flat
  {
    var t' := Register(t, u, b).0;
    assert u in flat <==> HasEntry(t, u);
    assert u in flat && flat[u] == b <==> flat[u := b] == flat;
    forall v
      ensures (v in flat[u := b] <==> HasEntry(t', v)) && (v in flat[u := b] ==> flat[u := b][v] == Lookup(t', v))
    {
      assert v in flat <==> HasEntry(t, v);
    }
  }

  /** The index stays exact for named bots even when some call names no bot. */
  lemma RegisterKeepsReverse(t: Table, u: UserId, b: BotId)
    requires ReverseAgrees(t) && WellSharded(t)
    ensures ReverseAgrees(Register(t, u, b).0) && WellSharded(Register(t, u, b).0)
  {
    var t' := Register(t, u, b).0;
    forall c, v | c != ""
      ensures v in Members(t', c) <==> Lookup(t', v) == c
    {
      assert v in Members(t, c) <==> Lookup(t, v) == c;
    }
  }

  lemma RegisteredLookups(t: Table, u: UserId, b: BotId)
    ensures forall w :: Lookup(Register(t, u, b).0, w) == if w == u then b else Lookup(t, w)
  {}

  function RegisterAll(t: Table, calls: seq<(UserId, BotId)>): Table
    decreases |calls|
  {
    if calls == [] then t else RegisterAll(Register(t, calls[0].0, calls[0].1).0, calls[1..])
  }

  /** The last bot each user was given, if any. */
  function LastBot(calls: seq<(UserId, BotId)>, u: UserId, default: BotId): BotId {
    if calls == [] then default
    else LastBot(calls[1..], u, if calls[0].0 == u then calls[0].1 else default)
  }

  /** After any sequence of registrations and moves a user is routed to the bot
      it was given last, and is listed under that bot and under no other. */
  lemma {:induction false} RegistrationsAreExact(t: Table, calls: seq<(UserId, BotId)>, u: UserId)
    requires ReverseAgrees(t) && WellSharded(t)
    ensures var t' := RegisterAll(t, calls);
            && ReverseAgrees(t') && WellSharded(t')
            && Lookup(t', u) == LastBot(calls, u, Lookup(t, u))
            && (forall b | b != "" :: u in Members(t', b) <==> b == LastBot(calls, u, Lookup(t, u)))
    decreases |calls|
  {
    if calls != [] {
      var next := Register(t, calls[0].0, calls[0].1).0;
      RegisterKeepsReverse(t, calls[0].0, calls[0].1);
      RegistrationsAreExact(next, calls[1..], u);
      assert Lookup(next, u) == if calls[0].0 == u then calls[0].1 else Lookup(t, u);
    }
  }

  /** The empty table satisfies what the calls keep, and reads as the empty map. */
  lemma InitialTable()
    ensures ReverseAgrees(EMPTY) && WellSharded(EMPTY) && Refines(EMPTY, map[])
  {}

  function AssignAll(flat: map<UserId, BotId>, calls: seq<(UserId, BotId)>): map<UserId, BotId>
    decreases |calls|
  {
    if calls == [] then flat else AssignAll(flat[calls[0].0 := calls[0].1], calls[1..])
  }

  lemma {:induction false} RegistrationsRefineFlatMap(t: Table, flat: map<UserId, BotId>, calls: seq<(UserId, BotId)>)
    requires Refines(t, flat)
    ensures Refines(RegisterAll(t, calls), AssignAll(flat, calls))
    decreases |calls|
  {
    if calls != [] {
      RegisterRefinesFlatMap(t, flat, calls[0].0, calls[0].1);
      RegistrationsRefineFlatMap(Register(t, calls[0].0, calls[0].1).0, flat[calls[0].0 := calls[0].1], calls[1..]);
    }
  }

  /** From empty stores, under any sequence of calls: the 10000 hashes are one
      flat map, and a user is in a named bot's reverse set exactly when that map
      sends the user to it. */
  lemma TableFromEmpty(calls: seq<(UserId, BotId)>, u: UserId, b: BotId)
    requires b != ""
    ensures var t, flat := RegisterAll(EMPTY, calls), AssignAll(map[], calls);
            && Refines(t, flat)
            && (u in Members(t, b) <==> u in flat && flat[u] == b)
  {
    InitialTable();
    RegistrationsAreExact(EMPTY, calls, u);
    RegistrationsRefineFlatMap(EMPTY, map[], calls);
    var t, flat := RegisterAll(EMPTY, calls), AssignAll(map[], calls);
    assert u in flat <==> HasEntry(t, u);
    assert u in Members(t, b) <==> Lookup(t, u) == b;
  }

  /** A call that names no bot leaves a stale entry under the empty name: the
      index is exact for every bot id only if none is empty. */
  lemma EmptyBotLeavesStaleEntry()
    ensures var t := RegisterAll(EMPTY, [("7", ""), ("7", "main")]);
            "7" in Members(t, "") && Lookup(t, "7") == "main"
  {
    var calls := [("7", ""), ("7", "main")];
    var t1 := Register(EMPTY, "7", "").0;
    var t2 := Register(t1, "7", "main").0;
    assert calls[1..] == [("7", "main")] && calls[1..][1..] == [];
    assert RegisterAll(t1, calls[1..]) == RegisterAll(t2, []);
  }
}

/** The three-tier resolver (internal/bot/service.go): Redis as a cache of the
    durable users.assigned_bot, with lazy return to the main bot off-peak. */
module Resolver {
  import opened Routing

  /** `durable` maps each existing users row to its assigned_bot, empty when never assigned. */
  datatype Stores = Stores(table: Table, durable: map<UserId, BotId>)

  /** What one call sees of its surroundings: this instance's bot, the main bot,
      the mode, whether a bot is alive, and whether the user is mid-chat. */
  datatype View = View(current: BotId, main: BotId, offPeak: bool, alive: BotId -> bool, chatting: bool)

  /** UPDATE users SET assigned_bot: no row, no change. */
  function Assign(durable: map<UserId, BotId>, u: UserId, b: BotId): map<UserId, BotId> {
    if u in durable then durable[u := b] else durable
  }

  function RegisterBoth(s: Stores, u: UserId, b: BotId): Stores {
    if u == "" || b == "" then s
    else
      var (table, changed) := Register(s.table, u, b);
      Stores(table, if changed then Assign(s.durable, u, b) else s.durable)
  }

  /** IsActive: the main bot always is; a helper is while its heartbeat lives. */
  predicate Active(v: View, b: BotId) {
    b != "" && (b == v.main || v.alive(b))
  }

  function DeliverVia(s: Stores, v: View, u: UserId, b: BotId): (Stores, BotId) {
    if b == "" || b == v.main then (s, v.main)
    else if Active(v, b) then (s, b)
    else if v.chatting then (s, v.main)
    else
      var (table, changed) := Register(s.table, u, v.main);
      (Stores(table, if changed then Assign(s.durable, u, v.main) else s.durable), v.main)
  }

  function Resolve(s: Stores, v: View, u: UserId): (Stores, BotId) {
    var cached := Lookup(s.table, u);
    if cached != "" then
      if cached != v.main then
        if v.offPeak then (Stores(Register(s.table, u, v.main).0, Assign(s.durable, u, v.main)), v.main)
        else (s, cached)
      else DeliverVia(s, v, u, cached)
    else if u in s.durable then
      var b := if s.durable[u] != "" then s.durable[u] else v.current;
      DeliverVia(RegisterBoth(s, u, b), v, u, b)
    else
      var created := s.(durable := s.durable[u := ""]);
      DeliverVia(RegisterBoth(created, u, v.current), v, u, v.current)
  }

  class Service {
    const redis: RoutingTable
    var durable: map<UserId, BotId>

    ghost function Both(): Stores
      reads this, redis
    {
      Stores(redis.View(), durable)
    }

    constructor (redis: RoutingTable)
      ensures this.redis == redis && durable == map[]
    {
      this.redis, durable := redis, map[];
    }

    method UpdateAssignedBot(u: UserId, b: BotId)
      modifies this
      ensures durable == Assign(old(durable), u, b)
    {
      if u in durable {
        durable := durable[u := b];
      }
    }

    method RegisterBotForUser(u: UserId, b: BotId) returns (changed: bool)
      modifies this, redis
      ensures Both() == RegisterBoth(old(Both()), u, b)
      ensures u == "" || b == "" ==> !changed && Both() == old(Both())
      ensures u != "" && b != "" ==>
                && Lookup(redis.View(), u) == b && (changed <==> Lookup(old(redis.View()), u) != b)
                && durable.Keys == old(durable).Keys
                && forall w | w in durable :: durable[w] == if w == u && changed then b else old(durable)[w]
    {
      if u == "" || b == "" {
        return false;
      }
      changed := redis.RegisterUserBot(u, b);
      if changed {
        UpdateAssignedBot(u, b);
      }
    }

    method Deliver(v: View, u: UserId, b: BotId) returns (target: BotId)
      modifies this, redis
      ensures (Both(), target) == DeliverVia(old(Both()), v, u, b)
      ensures target == if b != "" && b != v.main && v.alive(b) then b else v.main
      // Only a user of a dead helper who is not chatting is moved.
      ensures b == "" || b == v.main || v.alive(b) || v.chatting ==> Both() == old(Both())
      ensures !(b == "" || b == v.main || v.alive(b) || v.chatting) ==>
                Lookup(redis.View(), u) == v.main && durable.Keys == old(durable).Keys
    {
      if b == "" || b == v.main {
        return v.main;
      }
      if Active(v, b) {
        return b;
      }
      if v.chatting {
        return v.main;
      }
      var changed := redis.RegisterUserBot(u, v.main);
      if changed {
        UpdateAssignedBot(u, v.main);
      }
      return v.main;
    }

    /** An empty user id is refused before anything is read. */
    method ResolveDelivery(v: View, u: UserId) returns (ok: bool, target: BotId)
      modifies this, redis
      ensures u == "" ==> !ok && Both() == old(Both())
      ensures u != "" ==> ok && (Both(), target) == Resolve(old(Both()), v, u)
      // Outside off-peak hours a user stays with the cached bot.
      ensures u != "" && Lookup(old(redis.View()), u) !in {"", v.main} && !v.offPeak ==>
                target == Lookup(old(redis.View()), u) && Both() == old(Both())
    {
      if u == "" {
        return false, "";
      }
      ok := true;
      var cached := redis.GetUserBot(u);
      if cached != "" {
        if cached != v.main {
          if v.offPeak {
            var _ := redis.RegisterUserBot(u, v.main);
            UpdateAssignedBot(u, v.main);
            target := v.main;
            return;
          }
          target := cached;
          return;
        }
        target := Deliver(v, u, cached);
        return;
      }
      if u in durable {
        var b := if durable[u] != "" then durable[u] else v.current;
        var _ := RegisterBotForUser(u, b);
        target := Deliver(v, u, b);
        return;
      }
      durable := durable[u := ""];
      var _ := RegisterBotForUser(u, v.current);
      target := Deliver(v, u, v.current);
    }
  }

  // ----- The answer, case by case -----

  /** A cached user: the main bot's users and, outside off-peak hours, a helper's
      users are answered with their bot and nothing is written; off-peak a helper's
      user is moved to the main bot in both stores. */
  lemma CachedAnswer(s: Stores, v: View, u: UserId)
    requires Lookup(s.table, u) != ""
    ensures var cached, (s', target) := Lookup(s.table, u), Resolve(s, v, u);
            && (cached == v.main || !v.offPeak ==> s' == s && target == cached)
            && (cached != v.main && v.offPeak ==>
                  && target == v.main && Lookup(s'.table, u) == v.main
                  && s'.durable.Keys == s.durable.Keys && (u in s.durable ==> s'.durable[u] == v.main))
  {
    RegisterEffect(s.table, u, v.main, u);
  }

  /** The bot an uncached user belongs to: the durable one, else this instance's. */
  function Restored(s: Stores, v: View, u: UserId): BotId {
    if u in s.durable && s.durable[u] != "" then s.durable[u] else v.current
  }

  /** An uncached user gets a row if there is none, and the restored bot is written
      to both stores.  The answer is that bot if it is a live helper, else the main
      bot; a dead helper's user is then moved as well, unless in a chat. */
  lemma UncachedAnswer(s: Stores, v: View, u: UserId)
    requires Lookup(s.table, u) == "" && u != "" && v.main != "" && v.current != ""
    ensures var b, (s', target) := Restored(s, v, u), Resolve(s, v, u);
            && s'.durable.Keys == s.durable.Keys + {u}
            && target == (if b != v.main && v.alive(b) then b else v.main)
            && s'.durable[u] == Lookup(s'.table, u)
            && Lookup(s'.table, u) == if b == v.main || v.alive(b) || v.chatting then b else v.main
  {
    var row := if u in s.durable then s else s.(durable := s.durable[u := ""]);
    var b := Restored(s, v, u);
    RegisterEffect(s.table, u, b, u);
    RegisterEffect(RegisterBoth(row, u, b).table, u, v.main, u);
  }

  // ----- The cache is a mirror -----

  /** Every Redis mapping equals the durable assignment of an existing row. */
  ghost predicate Mirror(s: Stores) {
    forall u | HasEntry(s.table, u) :: Lookup(s.table, u) != "" && u in s.durable && s.durable[u] == Lookup(s.table, u)
  }

  /** The calls that touch the two stores, and the loss of a Redis entry. */
  datatype Event =
    | ResolveFor(v: View, u: UserId)
    | JoinHelper(u: UserId, helper: BotId)  // handleClassroomChoice
    | Bounce(u: UserId, main: BotId)        // bounceToMain
    | NewUser(u: UserId)
    | LoseEntry(u: UserId)

  function Fire(s: Stores, e: Event): Stores {
    match e
    case ResolveFor(v, u) => Resolve(s, v, u).0
    case JoinHelper(u, helper) =>
      var (table, changed) := Register(s.table, u, helper);
      Stores(table, if changed then Assign(s.durable, u, helper) else s.durable)
    case Bounce(u, main) => Stores(Register(s.table, u, main).0, Assign(s.durable, u, main))
    case NewUser(u) => if u in s.durable then s else s.(durable := s.durable[u := ""])
    case LoseEntry(u) => s.(table := Lose(s.table, u))
  }

  /** Bot ids are configured and non-empty; a user who joins a helper or is
      bounced has a row (the handlers create it first or run after it exists). */
  predicate Enabled(s: Stores, e: Event) {
    match e
    case ResolveFor(v, u) => u != "" && v.current != "" && v.main != ""
    case JoinHelper(u, helper) => u in s.durable && helper != ""
    case Bounce(u, main) => u in s.durable && main != ""
    case _ => true
  }

  lemma RegisterEffect(t: Table, u: UserId, b: BotId, w: UserId)
    ensures HasEntry(Register(t, u, b).0, w) <==> w == u || HasEntry(t, w)
    ensures HasEntry(Register(t, u, b).0, w) ==> Lookup(Register(t, u, b).0, w) == if w == u then b else Lookup(t, w)
  {}

  lemma WriteKeepsMirror(s: Stores, u: UserId, b: BotId, always: bool)
    requires Mirror(s) && b != "" && u in s.durable
    ensures var (table, changed) := Register(s.table, u, b);
            Mirror(Stores(table, if always || changed then Assign(s.durable, u, b) else s.durable))
  {
    var (table, changed) := Register(s.table, u, b);
    var s' := Stores(table, if always || changed then Assign(s.durable, u, b) else s.durable);
    forall w | HasEntry(table, w)
      ensures Lookup(table, w) != "" && w in s'.durable && s'.durable[w] == Lookup(table, w)
    {
      RegisterEffect(s.table, u, b, w);
    }
  }

  lemma FireKeepsMirror(s: Stores, e: Event)
    requires Mirror(s) && Enabled(s, e)
    ensures Mirror(Fire(s, e))
  {
    match e {
      case ResolveFor(v, u) =>
        if Lookup(s.table, u) != "" {
          WriteKeepsMirror(s, u, v.main, true);
        } else {
          var row := if u in s.durable then s else s.(durable := s.durable[u := ""]);
          var b := if row.durable[u] != "" then row.durable[u] else v.current;
          assert Mirror(row);
          WriteKeepsMirror(row, u, b, false);
          var registered := RegisterBoth(row, u, b);
          assert u in registered.durable;
          WriteKeepsMirror(registered, u, v.main, false);
        }
      case JoinHelper(u, helper) => WriteKeepsMirror(s, u, helper, false);
      case Bounce(u, main) => WriteKeepsMirror(s, u, main, true);
      case NewUser(u) =>
      case LoseEntry(u) =>
        forall w | HasEntry(Lose(s.table, u), w)
          ensures HasEntry(s.table, w) && Lookup(Lose(s.table, u), w) == Lookup(s.table, w)
        {}
    }
  }

  function Run(s: Stores, events: seq<Event>): Stores
    decreases |events|
  {
    if events == [] then s else Run(Fire(s, events[0]), events[1..])
  }

  predicate EnabledRun(s: Stores, events: seq<Event>)
    decreases |events|
  {
    events == [] || (Enabled(s, events[0]) && EnabledRun(Fire(s, events[0]), events[1..]))
  }

  /** Whatever is resolved, moved or lost, Redis never contradicts PostgreSQL. */
  lemma {:induction false} RunKeepsMirror(s: Stores, events: seq<Event>)
    requires Mirror(s) && EnabledRun(s, events)
    ensures Mirror(Run(s, events))
    decreases |events|
  {
    if events != [] {
      FireKeepsMirror(s, events[0]);
      RunKeepsMirror(Fire(s, events[0]), events[1..]);
    }
  }

  // ----- Coming home off-peak -----

  /** Both stores have the user at `main`; Redis may have lost the entry. */
  predicate HomeAt(s: Stores, main: BotId, u: UserId) {
    && u in s.durable && s.durable[u] == main
    && (Lookup(s.table, u) == main || Lookup(s.table, u) == "")
  }

  /** Events that do not send `u` to a helper on purpose; resolving is done off-peak. */
  predicate OffPeakEvent(e: Event, main: BotId, u: UserId) {
    match e
    case ResolveFor(v, w) => w == u ==> v.offPeak && v.main == main
    case JoinHelper(w, _) => w != u
    case Bounce(w, m) => w == u ==> m == main
    case _ => true
  }

  /** Two calls in a row bring a user to the main bot in both stores, wherever it
      was; the second already answers with the main bot. */
  lemma TwoCallsComeHome(s: Stores, v1: View, v2: View, u: UserId)
    requires Mirror(s) && u != "" && v1.main == v2.main != "" && v1.current != "" && v1.offPeak && v2.offPeak
    ensures var (s1, _) := Resolve(s, v1, u);
            var (s2, target) := Resolve(s1, v2, u);
            target == v1.main && HomeAt(s2, v1.main, u) && Lookup(s2.table, u) == v1.main
  {
    FireKeepsMirror(s, ResolveFor(v1, u));
    OneCallCaches(s, v1, u);
    CachedCallComesHome(Resolve(s, v1, u).0, v2, u);
  }

  /** After any call the user's entry is present in Redis. */
  lemma OneCallCaches(s: Stores, v: View, u: UserId)
    requires u != "" && v.main != "" && v.current != ""
    ensures Lookup(Resolve(s, v, u).0.table, u) != ""
  {
    RegisterEffect(s.table, u, v.main, u);
    if Lookup(s.table, u) == "" {
      var b := if u in s.durable && s.durable[u] != "" then s.durable[u] else v.current;
      RegisterEffect(s.table, u, b, u);
      RegisterEffect(Register(s.table, u, b).0, u, v.main, u);
    }
  }

  ghost predicate SameFor(s: Stores, s': Stores, u: UserId) {
    && Lookup(s'.table, u) == Lookup(s.table, u)
    && (u in s'.durable <==> u in s.durable)
    && (u in s.durable ==> s'.durable[u] == s.durable[u])
  }

  lemma DeliverLeavesOthers(s: Stores, v: View, w: UserId, b: BotId, u: UserId)
    requires w != u
    ensures SameFor(s, DeliverVia(s, v, w, b).0, u)
    ensures SameFor(s, RegisterBoth(s, w, b), u)
  {
    RegisterEffect(s.table, w, v.main, u);
    RegisterEffect(s.table, w, b, u);
  }

  /** A call for one user leaves every other user's entry and row alone. */
  lemma ResolveLeavesOthers(s: Stores, v: View, w: UserId, u: UserId)
    requires w != u
    ensures SameFor(s, Resolve(s, v, w).0, u)
  {
    if Lookup(s.table, w) != "" {
      RegisterEffect(s.table, w, v.main, u);
      DeliverLeavesOthers(s, v, w, Lookup(s.table, w), u);
    } else {
      var row := if w in s.durable then s else s.(durable := s.durable[w := ""]);
      var b := if row.durable[w] != "" then row.durable[w] else v.current;
      DeliverLeavesOthers(row, v, w, b, u);
      DeliverLeavesOthers(RegisterBoth(row, w, b), v, w, b, u);
    }
  }

  lemma ResolveAtHome(s: Stores, v: View, u: UserId)
    requires HomeAt(s, v.main, u) && v.main != "" && u != ""
    ensures var (s', target) := Resolve(s, v, u);
            HomeAt(s', v.main, u) && target == v.main && Lookup(s'.table, u) == v.main
  {
    RegisterEffect(s.table, u, v.main, u);
  }

  /** A user at home stays home and is answered with the main bot, even when
      Redis keeps losing the entry. */
  lemma HomeIsStable(s: Stores, e: Event, main: BotId, u: UserId)
    requires Enabled(s, e) && HomeAt(s, main, u) && main != "" && OffPeakEvent(e, main, u)
    ensures HomeAt(Fire(s, e), main, u)
    ensures e.ResolveFor? && e.u == u ==> Resolve(s, e.v, u).1 == main && Lookup(Fire(s, e).table, u) == main
  {
    match e {
      case ResolveFor(v, w) =>
        if w == u { ResolveAtHome(s, v, u); } else { ResolveLeavesOthers(s, v, w, u); }
      case JoinHelper(w, helper) => RegisterEffect(s.table, w, helper, u);
      case Bounce(w, m) => RegisterEffect(s.table, w, m, u);
      case _ =>
    }
  }

  predicate OffPeakRun(events: seq<Event>, main: BotId, u: UserId) {
    forall i | 0 <= i < |events| :: OffPeakEvent(events[i], main, u)
  }

  lemma {:induction false} HomeForGood(s: Stores, events: seq<Event>, main: BotId, u: UserId)
    requires EnabledRun(s, events) && HomeAt(s, main, u) && main != "" && OffPeakRun(events, main, u)
    ensures HomeAt(Run(s, events), main, u)
    decreases |events|
  {
    if events != [] {
      HomeIsStable(s, events[0], main, u);
      assert OffPeakRun(events[1..], main, u);
      HomeForGood(Fire(s, events[0]), events[1..], main, u);
    }
  }

  /** A cached entry can only be moved, not emptied, unless Redis loses it. */
  lemma StepKeepsEntry(s: Stores, e: Event, u: UserId)
    requires Mirror(s) && Enabled(s, e) && e != LoseEntry(u) && Lookup(s.table, u) != ""
    ensures Lookup(Fire(s, e).table, u) != ""
  {
    match e {
      case ResolveFor(v, w) =>
        if w == u { OneCallCaches(s, v, u); } else { ResolveLeavesOthers(s, v, w, u); }
      case JoinHelper(w, helper) => RegisterEffect(s.table, w, helper, u);
      case Bounce(w, m) => RegisterEffect(s.table, w, m, u);
      case LoseEntry(w) => assert w != u;
      case NewUser(_) =>
    }
  }

  lemma {:induction false} RunKeepsEntry(s: Stores, events: seq<Event>, u: UserId)
    requires Mirror(s) && EnabledRun(s, events) && LoseEntry(u) !in events && Lookup(s.table, u) != ""
    ensures Mirror(Run(s, events)) && Lookup(Run(s, events).table, u) != ""
    decreases |events|
  {
    if events != [] {
      assert events[0] in events;
      FireKeepsMirror(s, events[0]);
      StepKeepsEntry(s, events[0], u);
      RunKeepsEntry(Fire(s, events[0]), events[1..], u);
    }
  }

  /** From a user's second off-peak call on.  Anything may happen between the
      first call, whatever its mode, and the second, to this user and to others,
      as long as Redis does not lose this user's entry: the second call answers
      with the main bot and leaves both stores there.  After that entries may be
      lost too, and every later call does the same. */
  lemma SecondCallOnward(s: Stores, v1: View, v2: View, u: UserId, between: seq<Event>, after: seq<Event>, v: View)
    requires Mirror(s) && u != "" && v1.main != "" && v1.current != ""
    requires v2.main == v.main != "" && v.current != "" && v2.offPeak && v.offPeak
    requires var s1 := Resolve(s, v1, u).0;
             EnabledRun(s1, between) && LoseEntry(u) !in between
    requires var s2 := Resolve(Run(Resolve(s, v1, u).0, between), v2, u).0;
             EnabledRun(s2, after) && OffPeakRun(after, v.main, u)
    ensures var (s2, second) := Resolve(Run(Resolve(s, v1, u).0, between), v2, u);
            var (s3, later) := Resolve(Run(s2, after), v, u);
            && second == v.main && HomeAt(s2, v.main, u)
            && later == v.main && HomeAt(s3, v.main, u)
  {
    var s1 := Resolve(s, v1, u).0;
    FireKeepsMirror(s, ResolveFor(v1, u));
    OneCallCaches(s, v1, u);
    RunKeepsEntry(s1, between, u);
    CachedCallComesHome(Run(s1, between), v2, u);
    var s2 := Resolve(Run(s1, between), v2, u).0;
    HomeForGood(s2, after, v.main, u);
    HomeIsStable(Run(s2, after), ResolveFor(v, u), v.main, u);
  }

  /** Off-peak, a call that finds the user's entry brings the user home. */
  lemma CachedCallComesHome(s: Stores, v: View, u: UserId)
    requires Mirror(s) && Lookup(s.table, u) != "" && v.main != "" && v.offPeak
    ensures var (s', target) := Resolve(s, v, u);
            target == v.main && HomeAt(s', v.main, u) && Lookup(s'.table, u) == v.main
  {
    assert HasEntry(s.table, u);
    RegisterEffect(s.table, u, v.main, u);
  }

  /** Joining a helper, or being bounced to the main bot, writes both stores. */
  lemma MovesWriteBoth(s: Stores, u: UserId, b: BotId)
    requires Mirror(s) && b != "" && u in s.durable
    ensures var joined := Fire(s, JoinHelper(u, b)); Lookup(joined.table, u) == b && joined.durable[u] == b
    ensures HomeAt(Fire(s, Bounce(u, b)), b, u) && Lookup(Fire(s, Bounce(u, b)).table, u) == b
  {
    RegisterEffect(s.table, u, b, u);
    WriteKeepsMirror(s, u, b, false);
  }

  // ----- Staying with a helper -----

  /** Events that do not take `u` away from the helper: no join, no bounce, no lost
      entry of this user, and this user's calls are made outside off-peak hours by
      a fleet whose main bot is another one. */
  predicate PeakEvent(e: Event, helper: BotId, u: UserId) {
    match e
    case ResolveFor(v, w) => w == u ==> !v.offPeak && v.main != helper
    case JoinHelper(w, _) => w != u
    case Bounce(w, _) => w != u
    case LoseEntry(w) => w != u
    case NewUser(_) => true
  }

  lemma PeakStepKeepsHelper(s: Stores, e: Event, helper: BotId, u: UserId)
    requires helper != "" && Lookup(s.table, u) == helper && PeakEvent(e, helper, u)
    ensures Lookup(Fire(s, e).table, u) == helper
  {
    match e {
      case ResolveFor(v, w) =>
        if w == u { CachedAnswer(s, v, u); } else { ResolveLeavesOthers(s, v, w, u); }
      case JoinHelper(w, b) => RegisterEffect(s.table, w, b, u);
      case Bounce(w, m) => RegisterEffect(s.table, w, m, u);
      case LoseEntry(_) =>
      case NewUser(_) =>
    }
  }

  lemma {:induction false} PeakRunKeepsHelper(s: Stores, events: seq<Event>, helper: BotId, u: UserId)
    requires helper != "" && Lookup(s.table, u) == helper
    requires forall e | e in events :: PeakEvent(e, helper, u)
    ensures Lookup(Run(s, events).table, u) == helper
    decreases |events|
  {
    if events != [] {
      assert events[0] in events;
      PeakStepKeepsHelper(s, events[0], helper, u);
      PeakRunKeepsHelper(Fire(s, events[0]), events[1..], helper, u);
    }
  }

  /** In peak time a user who has joined a helper is answered with that helper by
      every later call, which writes nothing, until another join, a bounce or a
      lost entry. */
  lemma JoinedUsersStay(s: Stores, helper: BotId, u: UserId, events: seq<Event>, v: View)
    requires helper != "" && forall e | e in events :: PeakEvent(e, helper, u)
    requires !v.offPeak && v.main != helper
    ensures var later := Run(Fire(s, JoinHelper(u, helper)), events);
            Resolve(later, v, u) == (later, helper)
  {
    RegisterEffect(s.table, u, helper, u);
    PeakRunKeepsHelper(Fire(s, JoinHelper(u, helper)), events, helper, u);
    CachedAnswer(Run(Fire(s, JoinHelper(u, helper)), events), v, u);
  }

  /** Off-peak a call answers with the main bot exactly when the entry is cached
      or the bot that would be restored is not a live helper. */
  lemma AnswersMainExactlyWhen(s: Stores, v: View, u: UserId)
    requires v.offPeak && v.main != "" && v.current != ""
    ensures var restored := if u in s.durable && s.durable[u] != "" then s.durable[u] else v.current;
            Resolve(s, v, u).1 == v.main
            <==> Lookup(s.table, u) != "" || restored == v.main || !v.alive(restored)
  {}

  /** Why the entry must survive between the first two calls: with it lost, the
      second call still answers with a live helper. */
  lemma LossBetweenCallsDelays()
    ensures var v := View("main", "main", true, b => true, false);
            var s := Stores(EMPTY, map["7" := "shard1"]);
            var lost := Fire(Resolve(s, v, "7").0, LoseEntry("7"));
            Mirror(s) && Resolve(lost, v, "7").1 == "shard1"
  {
    var v := View("main", "main", true, b => true, false);
    var s := Stores(EMPTY, map["7" := "shard1"]);
    RegisterEffect(EMPTY, "7", "shard1", "7");
    var s1 := Resolve(s, v, "7").0;
    assert Lookup(Lose(s1.table, "7"), "7") == "";
  }
}
