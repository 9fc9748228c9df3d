/** The chat and coin ledger of internal/storage/store.go: whole transactions
    over the users, chats and notif tables, and what every run of them keeps. */
module ChatLedger {

  /** `Fake(source, search)` is the text "fake:<source>:<search>" of a synthetic user. */
  datatype UserId = Real(name: string) | Fake(source: nat, search: nat)

  /** The `step` column: 'chatting;<peer>' or anything else. */
  datatype Step = Chatting(peer: UserId) | Menu(name: string)

  datatype User = User(balance: int, step: Step)

  datatype Chat = Chat(user1: UserId, user2: UserId, active: bool,
                       spent1: nat, spent2: nat, refunded1: nat, refunded2: nat, isFake: bool)
  {
    predicate Involves(u: UserId) {
      user1 == u || user2 == u
    }
  }

  datatype SearchStatus = Doing | Connecting | Ended

  /** A notif row of type 'search'; `cost` is its balance column. */
  datatype Search = Search(user: UserId, cost: nat, status: SearchStatus, date: int)

  /** Chat ids are positions in `chats`; search ids below `nextSearch` were handed out. */
  datatype Db = Db(users: map<UserId, User>, chats: seq<Chat>, searches: map<nat, Search>, nextSearch: nat)

  datatype Error = SameUser | AlreadyChatting | NoRows | NotReady | DuplicateUser | AlreadyEnded
  datatype Result<+T> = Ok(value: T) | Err(error: Error)

  // ----- The transactions as functions of the database -----

  predicate InChat(chats: seq<Chat>, u: UserId) {
    exists i | 0 <= i < |chats| :: chats[i].active && chats[i].Involves(u)
  }

  /** UPDATE users SET balance=balance-cost, step='chatting;peer' WHERE user_id=u. */
  function Charge(users: map<UserId, User>, u: UserId, cost: nat, peer: UserId): map<UserId, User> {
    if u in users then users[u := User(users[u].balance - cost, Chatting(peer))] else users
  }

  function EndSearches(searches: map<nat, Search>, ended: set<nat>): map<nat, Search> {
    map n | n in searches :: if n in ended then searches[n].(status := Ended) else searches[n]
  }

  /** The searches the UPDATE of CreateChat matches. */
  function SearchesOf(searches: map<nat, Search>, u1: UserId, u2: UserId): set<nat> {
    set n | n in searches && (searches[n].user == u1 || searches[n].user == u2)
  }

  /** The rows of `ended` have status 'end' and are otherwise as before; so are all the others. */
  ghost predicate SearchesEnded(before: map<nat, Search>, after: map<nat, Search>, ended: set<nat>) {
    && after.Keys == before.Keys
    && (forall n | n in before && n in ended ::
          after[n] == Search(before[n].user, before[n].cost, Ended, before[n].date))
    && (forall n | n in before && n !in ended :: after[n] == before[n])
  }

  lemma EndSearchesEnds(searches: map<nat, Search>, ended: set<nat>)
    ensures SearchesEnded(searches, EndSearches(searches, ended), ended)
  {}

  /** CreateChat, with the set of search rows its UPDATE matched. */
  function CreateChat(db: Db, u1: UserId, u2: UserId, cost1: nat, cost2: nat, ended: set<nat>): Result<Db> {
    if u1 == u2 then Err(SameUser)
    else if InChat(db.chats, u1) || InChat(db.chats, u2) then Err(AlreadyChatting)
    else Ok(db.(
            users := Charge(Charge(db.users, u1, cost1, u2), u2, cost2, u1),
            chats := db.chats + [Chat(u1, u2, true, cost1, cost2, 0, 0, false)],
            searches := EndSearches(db.searches, ended)))
  }

  /** CreateFakeChatFromSearch; `source` is the imported record that was drawn, if any is enabled. */
  function CreateFake(db: Db, n: nat, now: int, source: Result<nat>): Result<Db> {
    if n !in db.searches then Err(NoRows)
    else
      var search := db.searches[n];
      var owner := search.user;
      if search.status != Doing || search.date + 60 > now then Err(NotReady)
      else if owner !in db.users then Err(NoRows)
      else if InChat(db.chats, owner) then Err(AlreadyChatting)
      else if source.Err? then Err(NoRows)
      else
        var fake := Fake(source.value, n);
        if fake in db.users then Err(DuplicateUser)
        else Ok(db.(
                users := Charge(db.users[fake := User(0, Chatting(owner))], owner, search.cost, fake),
                chats := db.chats + [Chat(owner, fake, true, search.cost, 0, 0, 0, true)],
                searches := db.searches[n := search.(status := Ended)]))
  }

  /** UPDATE users SET step='start', balance=balance+refund for the matched rows. */
  function Refund(users: map<UserId, User>, c: Chat, r1: nat, r2: nat, matched: set<UserId>): map<UserId, User> {
    map u | u in users ::
      if u in matched
      then User(users[u].balance + (if u == c.user1 then r1 else r2), Menu("start"))
      else users[u]
  }

  /** The rows EndChat's UPDATE matches: the chat's users whose step is LIKE 'chatting;%'. */
  function Matching(users: map<UserId, User>, c: Chat): set<UserId> {
    set u | u in {c.user1, c.user2} && u in users && users[u].step.Chatting?
  }

  function RefundOf(spent: nat, messages: nat): nat {
    if messages < 5 then spent else 0
  }

  function Close(c: Chat, messages: nat): Chat {
    c.(active := false, refunded1 := RefundOf(c.spent1, messages), refunded2 := RefundOf(c.spent2, messages))
  }

  /** EndChat, with the counted messages and the set of user rows its UPDATE matched. */
  function EndChat(db: Db, id: nat, messages: nat, matched: set<UserId>): Result<Db> {
    if id >= |db.chats| then Err(NoRows)
    else if !db.chats[id].active then Err(AlreadyEnded)
    else
      var closed := Close(db.chats[id], messages);
      Ok(db.(users := Refund(db.users, closed, closed.refunded1, closed.refunded2, matched),
             chats := db.chats[id := closed]))
  }

  /** An open search of somebody else that suits the requester. */
  predicate SuitsOpen(search: Search, me: UserId, suits: Search -> bool) {
    search.user != me && search.status == Doing && suits(search)
  }

  // ----- The store -----

  class Store {
    var users: map<UserId, User>
    var chats: seq<Chat>
    var searches: map<nat, Search>
    var nextSearch: nat
    var messages: map<nat, nat>  // chatmsgs rows per chat

    ghost function View(): Db
      reads this
    {
      Db(users, chats, searches, nextSearch)
    }

    constructor ()
      ensures View() == Db(map[], [], map[], 0)
    {
      users, chats, searches, nextSearch, messages := map[], [], map[], 0, map[];
    }

    /** The lookup of a user's active chat. */
    method IsUserChattingTx(u: UserId) returns (found: bool)
      ensures found <==> InChat(chats, u)
    {
      found := false;
      for i := 0 to |chats|
        invariant found <==> exists k | 0 <= k < i :: chats[k].active && chats[k].Involves(u)
      {
        if chats[i].active && chats[i].Involves(u) {
          found := true;
        }
      }
    }

    method ChargeRow(u: UserId, cost: nat, peer: UserId)
      modifies this`users
      ensures users == Charge(old(users), u, cost, peer)
    {
      if u in users {
        users := users[u := User(users[u].balance - cost, Chatting(peer))];
      }
    }

    method CreateChatTx(u1: UserId, u2: UserId, cost1: nat, cost2: nat) returns (r: Result<()>)
      modifies this
      ensures var spec := CreateChat(old(View()), u1, u2, cost1, cost2, SearchesOf(old(searches), u1, u2));
              if spec.Ok? then r == Ok(()) && View() == spec.value
              else r == Err(spec.error) && View() == old(View())
      ensures r.Ok? <==> u1 != u2 && forall i | 0 <= i < |old(chats)| && old(chats)[i].active ::
                           old(chats)[i].user1 !in {u1, u2} && old(chats)[i].user2 !in {u1, u2}
      ensures r == Err(SameUser) <==> u1 == u2
      ensures r.Ok? ==> chats == old(chats) + [Chat(u1, u2, true, cost1, cost2, 0, 0, false)]
      ensures r.Ok? ==> SearchesEnded(old(searches), searches,
                                      set n | n in old(searches) && old(searches)[n].user in {u1, u2})
      ensures r.Ok? ==> users.Keys == old(users).Keys && forall u | u in users ::
                users[u] == if u == u1 then User(old(users)[u].balance - cost1, Chatting(u2))
                            else if u == u2 then User(old(users)[u].balance - cost2, Chatting(u1))
                            else old(users)[u]
      ensures messages == old(messages)
    {
      if u1 == u2 {
        return Err(SameUser);
      }
      var busy1 := IsUserChattingTx(u1);
      var busy2 := IsUserChattingTx(u2);
      if busy1 || busy2 {
        return Err(AlreadyChatting);
      }
      searches := EndSearches(searches, SearchesOf(searches, u1, u2));
      chats := chats + [Chat(u1, u2, true, cost1, cost2, 0, 0, false)];
      ChargeRow(u1, cost1, u2);
      ChargeRow(u2, cost2, u1);
      return Ok(());
    }

    method CreateFakeChatFromSearch(n: nat, now: int, source: Result<nat>) returns (r: Result<()>)
      modifies this
      ensures var spec := CreateFake(old(View()), n, now, source);
              if spec.Ok? then r == Ok(()) && View() == spec.value
              else r == Err(spec.error) && View() == old(View())
      ensures r.Ok? <==>
                && n in old(searches) && old(searches)[n].status == Doing && old(searches)[n].date + 60 <= now
                && old(searches)[n].user in old(users)
                && (forall i | 0 <= i < |old(chats)| && old(chats)[i].active ::
                      old(searches)[n].user != old(chats)[i].user1 && old(searches)[n].user != old(chats)[i].user2)
                && source.Ok? && Fake(source.value, n) !in old(users)
      ensures r.Ok? ==>
                var search, fake := old(searches)[n], Fake(source.value, n);
                && chats == old(chats) + [Chat(search.user, fake, true, search.cost, 0, 0, 0, true)]
                && SearchesEnded(old(searches), searches, {n})
                && users.Keys == old(users).Keys + {fake} && users[fake] == User(0, Chatting(search.user))
                && forall u | u in old(users) ::
                     users[u] == if u == search.user then User(old(users)[u].balance - search.cost, Chatting(fake))
                                 else old(users)[u]
      ensures messages == old(messages)
    {
      if n !in searches {
        return Err(NoRows);
      }
      var search := searches[n];
      if search.status != Doing || search.date + 60 > now {
        return Err(NotReady);
      }
      if search.user !in users {
        return Err(NoRows);
      }
      var busy := IsUserChattingTx(search.user);
      if busy {
        return Err(AlreadyChatting);
      }
      if source.Err? {
        return Err(NoRows);
      }
      var fake := Fake(source.value, n);
      if fake in users {
        return Err(DuplicateUser);
      }
      users := users[fake := User(0, Chatting(search.user))];
      chats := chats + [Chat(search.user, fake, true, search.cost, 0, 0, 0, true)];
      ChargeRow(search.user, search.cost, fake);
      searches := searches[n := search.(status := Ended)];
      return Ok(());
    }

    /** findAnonMatch: claims the oldest open search of somebody else that suits the requester. */
    method FindAnonMatch(me: UserId, suits: Search -> bool) returns (found: Result<nat>)
      modifies this
      ensures found.Ok? ==>
                && found.value in old(searches) && SuitsOpen(old(searches)[found.value], me, suits)
                && (forall n | n in old(searches) && n < found.value :: !SuitsOpen(old(searches)[n], me, suits))
                && searches == old(searches)[found.value := old(searches)[found.value].(status := Connecting)]
                && View() == Apply(old(View()), ClaimSearch(found.value))
      ensures found.Err? ==>
                && View() == old(View())
                && forall n | n in searches && n < nextSearch :: !SuitsOpen(searches[n], me, suits)
      ensures users == old(users) && chats == old(chats) && messages == old(messages)
    {
      for n := 0 to nextSearch
        invariant View() == old(View()) && messages == old(messages)
        invariant forall k | k in searches && k < n :: !SuitsOpen(searches[k], me, suits)
      {
        if n in searches && SuitsOpen(searches[n], me, suits) {
          searches := searches[n := searches[n].(status := Connecting)];
          return Ok(n);
        }
      }
      return Err(NoRows);
    }

    /** connectAnonUsers: a chat with the claimed search's user, or the claim is given back. */
    method ConnectAnonUsers(me: UserId, n: nat, cost1: nat, cost2: nat) returns (r: Result<()>)
      requires n in searches
      modifies this
      ensures r.Ok? ==>
                CreateChat(old(View()), me, old(searches)[n].user, cost1, cost2,
                           SearchesOf(old(searches), me, old(searches)[n].user)) == Ok(View())
      ensures r.Err? ==>
                && View() == Apply(old(View()), ReleaseSearch(n))
                && users == old(users) && chats == old(chats)
                && searches == old(searches)[n := if old(searches)[n].status == Connecting
                                                  then old(searches)[n].(status := Doing) else old(searches)[n]]
      ensures messages == old(messages)
    {
      r := CreateChatTx(me, searches[n].user, cost1, cost2);
      if r.Err? && searches[n].status == Connecting {
        searches := searches[n := searches[n].(status := Doing)];
      }
    }

    method EndChatTx(id: nat) returns (r: Result<(nat, nat)>)
      modifies this
      ensures id < |old(chats)| && old(chats)[id].active ==>
                var count := if id in old(messages) then old(messages)[id] else 0;
                r == Ok((RefundOf(old(chats)[id].spent1, count), RefundOf(old(chats)[id].spent2, count)))
                && EndChat(old(View()), id, count, Matching(old(users), old(chats)[id])) == Ok(View())
      ensures id < |old(chats)| && !old(chats)[id].active ==> r == Err(AlreadyEnded) && View() == old(View())
      ensures id >= |old(chats)| ==> r == Err(NoRows) && View() == old(View())
      ensures r.Ok? ==>
                var c, back1, back2 := old(chats)[id], r.value.0, r.value.1;
                && chats == old(chats)[id := Chat(c.user1, c.user2, false, c.spent1, c.spent2, back1, back2, c.isFake)]
                && searches == old(searches) && nextSearch == old(nextSearch)
                && (if id in old(messages) && old(messages)[id] >= 5 then back1 == back2 == 0
                    else back1 == c.spent1 && back2 == c.spent2)
                && users.Keys == old(users).Keys
                && forall u | u in users ::
                     users[u] == if u in {c.user1, c.user2} && old(users)[u].step.Chatting?
                                 then User(old(users)[u].balance + (if u == c.user1 then back1 else back2),
                                           Menu("start"))
                                 else old(users)[u]
      ensures messages == old(messages)
    {
      if id >= |chats| {
        return Err(NoRows);
      }
      var c := chats[id];
      if !c.active {
        return Err(AlreadyEnded);
      }
      var count := if id in messages then messages[id] else 0;
      var refund1, refund2 := 0, 0;
      if count < 5 {
        refund1, refund2 := c.spent1, c.spent2;
      }
      chats := chats[id := c.(active := false, refunded1 := refund1, refunded2 := refund2)];
      users := Refund(users, c, refund1, refund2, Matching(users, c));
      return Ok((refund1, refund2));
    }
  }

  // ----- Runs -----

  /** The committed changes of the three tables: the three transactions, step
      rewrites, registrations and the life of a search.  The scheduler's deletion of
      ended chats and old synthetic users is not among them.  `Create` and `End` name the
      rows their UPDATE statements matched; `Rewrite` is any handler that writes
      a user's step. */
  datatype Action =
    | Create(u1: UserId, u2: UserId, cost1: nat, cost2: nat, ended: set<nat>)
    | MakeFake(n: nat, now: int, source: nat)
    | End(id: nat, messages: nat, matched: set<UserId>)
    | Rewrite(user: UserId, step: Step)
    | Register(user: UserId)
    | StartSearch(user: UserId, cost: nat, date: int)
    | ClaimSearch(n: nat)
    | ReleaseSearch(n: nat)
    | EndSearch(n: nat)
    | DeleteSearch(n: nat)

  function OkOr<T>(r: Result<T>, default: T): T {
    if r.Ok? then r.value else default
  }

  function Apply(db: Db, a: Action): Db {
    match a
    case Create(u1, u2, cost1, cost2, ended) => OkOr(CreateChat(db, u1, u2, cost1, cost2, ended), db)
    case MakeFake(n, now, source) => OkOr(CreateFake(db, n, now, Ok(source)), db)
    case End(id, messages, matched) => OkOr(EndChat(db, id, messages, matched), db)
    case Rewrite(u, step) =>
      if u in db.users then db.(users := db.users[u := db.users[u].(step := step)]) else db
    case Register(u) =>
      if u in db.users then db else db.(users := db.users[u := User(0, Menu("start"))])
    case StartSearch(u, cost, date) =>
      db.(searches := db.searches[db.nextSearch := Search(u, cost, Doing, date)], nextSearch := db.nextSearch + 1)
    case ClaimSearch(n) => SetStatus(db, n, Doing, Connecting)
    case ReleaseSearch(n) => SetStatus(db, n, Connecting, Doing)
    case EndSearch(n) =>
      if n in db.searches then db.(searches := db.searches[n := db.searches[n].(status := Ended)]) else db
    case DeleteSearch(n) =>
      if n in db.searches && db.searches[n].status == Ended then db.(searches := db.searches - {n}) else db
  }

  /** UPDATE notif SET status=after WHERE id=n AND status=before. */
  function SetStatus(db: Db, n: nat, before: SearchStatus, after: SearchStatus): Db {
    if n in db.searches && db.searches[n].status == before
    then db.(searches := db.searches[n := db.searches[n].(status := after)]) else db
  }

  /** What the callers and the statements guarantee: a chat is created between
      existing rows by people whose id is not the text of a synthetic user that
      does not exist yet, and only rows that satisfy the WHERE clause are matched. */
  ghost predicate Enabled(db: Db, a: Action) {
    match a
    case Create(u1, u2, _, _, ended) =>
      u1 in db.users && u2 in db.users && ended <= SearchesOf(db.searches, u1, u2)
    case End(id, _, matched) => id < |db.chats| ==> matched <= Matching(db.users, db.chats[id])
    case Register(u) => u.Real?
    case _ => true
  }

  function Run(db: Db, actions: seq<Action>): Db
    decreases |actions|
  {
    if actions == [] then db else Run(Apply(db, actions[0]), actions[1..])
  }

  ghost predicate EnabledRun(db: Db, actions: seq<Action>)
    decreases |actions|
  {
    actions == [] || (Enabled(db, actions[0]) && EnabledRun(Apply(db, actions[0]), actions[1..]))
  }

  // ----- Exclusivity -----

  /** No user is in two active chats. */
  ghost predicate Exclusive(chats: seq<Chat>) {
    forall i, j, u | 0 <= i < j < |chats| && chats[i].active && chats[j].active && chats[i].Involves(u) ::
      !chats[j].Involves(u)
  }

  /** No search became two synthetic chats. */
  ghost predicate OneFakePerSearch(chats: seq<Chat>) {
    forall i, j | 0 <= i < j < |chats| && chats[i].isFake && chats[j].isFake ::
      FakeSearch(chats[i]) != FakeSearch(chats[j])
  }

  function FakeSearch(c: Chat): nat {
    if c.user2.Fake? then c.user2.search else 0
  }

  ghost predicate ChatsWellFormed(db: Db) {
    && (forall i | 0 <= i < |db.chats| ::
          var c := db.chats[i];
          && c.user1 != c.user2
          && (c.active ==> c.refunded1 == c.refunded2 == 0 && c.user1 in db.users && c.user2 in db.users)
          && c.refunded1 <= c.spent1 && c.refunded2 <= c.spent2)
  }

  /** Status 'end' is never left: a search that became a synthetic chat stays ended or is deleted. */
  ghost predicate FakesComeFromEndedSearches(db: Db) {
    && (forall n | n in db.searches :: n < db.nextSearch)
    && (forall i | 0 <= i < |db.chats| && db.chats[i].isFake ::
          && db.chats[i].user2.Fake?
          && FakeSearch(db.chats[i]) < db.nextSearch
          && (FakeSearch(db.chats[i]) in db.searches ==> db.searches[FakeSearch(db.chats[i])].status == Ended))
  }

  ghost predicate Inv(db: Db) {
    && Exclusive(db.chats)
    && OneFakePerSearch(db.chats)
    && ChatsWellFormed(db)
    && FakesComeFromEndedSearches(db)
  }

  lemma CreateKeepsInv(db: Db, u1: UserId, u2: UserId, cost1: nat, cost2: nat, ended: set<nat>)
    requires Inv(db) && u1 in db.users && u2 in db.users
    requires CreateChat(db, u1, u2, cost1, cost2, ended).Ok?
    ensures Inv(CreateChat(db, u1, u2, cost1, cost2, ended).value)
  {}

  lemma MakeFakeKeepsInv(db: Db, n: nat, now: int, source: nat)
    requires Inv(db) && CreateFake(db, n, now, Ok(source)).Ok?
    ensures Inv(CreateFake(db, n, now, Ok(source)).value)
  {
    assert !InChat(db.chats, Fake(source, n));
  }

  lemma EndKeepsInv(db: Db, id: nat, messages: nat, matched: set<UserId>)
    requires Inv(db) && EndChat(db, id, messages, matched).Ok?
    ensures Inv(EndChat(db, id, messages, matched).value)
  {}

  lemma ApplyKeepsInv(db: Db, a: Action)
    requires Inv(db) && Enabled(db, a)
    ensures Inv(Apply(db, a))
  {
    match a {
      case Create(u1, u2, cost1, cost2, ended) =>
        if Apply(db, a) != db { CreateKeepsInv(db, u1, u2, cost1, cost2, ended); }
      case MakeFake(n, now, source) =>
        if Apply(db, a) != db { MakeFakeKeepsInv(db, n, now, source); }
      case End(id, messages, matched) =>
        if Apply(db, a) != db { EndKeepsInv(db, id, messages, matched); }
      case _ =>
    }
  }

  lemma {:induction false} RunKeepsInv(db: Db, actions: seq<Action>)
    requires Inv(db) && EnabledRun(db, actions)
    ensures Inv(Run(db, actions))
    decreases |actions|
  {
    if actions != [] {
      ApplyKeepsInv(db, actions[0]);
      RunKeepsInv(Apply(db, actions[0]), actions[1..]);
    }
  }

  /** Registering adds a row without coins once; rewriting changes the step of that row alone. */
  lemma UserStatements(db: Db, u: UserId, step: Step)
    ensures Apply(db, Register(u)).users == if u in db.users then db.users else db.users[u := User(0, Menu("start"))]
    ensures u in db.users ==> Apply(db, Rewrite(u, step)).users == db.users[u := User(db.users[u].balance, step)]
  {}

  // ----- The life of a search -----

  /** A search is claimed from 'doing', released from 'connecting', ended from
      either, and deleted once ended; its user, price and date never change. */
  lemma SearchSteps(db: Db, a: Action, n: nat)
    requires n in db.searches && n < db.nextSearch
    ensures var before, after := db.searches[n], Apply(db, a).searches;
            && (n !in after ==> before.status == Ended && a == DeleteSearch(n))
            && (n in after ==>
                  && after[n].user == before.user && after[n].cost == before.cost && after[n].date == before.date
                  && (after[n].status != before.status ==>
                        || (before.status == Doing && after[n].status == Connecting && a == ClaimSearch(n))
                        || (before.status == Connecting && after[n].status == Doing && a == ReleaseSearch(n))
                        || (before.status != Ended && after[n].status == Ended
                            && (a == EndSearch(n) || a.Create? || a.MakeFake?))))
  {}

  /** The statements of a search do what they say when they find their row. */
  lemma SearchStatements(db: Db, u: UserId, cost: nat, date: int, n: nat)
    ensures var db' := Apply(db, StartSearch(u, cost, date));
            && db'.searches == db.searches[db.nextSearch := Search(u, cost, Doing, date)]
            && db'.nextSearch == db.nextSearch + 1
    ensures n in db.searches && db.searches[n].status == Doing ==>
              Apply(db, ClaimSearch(n)).searches[n].status == Connecting
    ensures n in db.searches && db.searches[n].status == Connecting ==>
              Apply(db, ReleaseSearch(n)).searches[n].status == Doing
    ensures n in db.searches ==> Apply(db, EndSearch(n)).searches[n].status == Ended
    ensures n in db.searches && db.searches[n].status == Ended ==> n !in Apply(db, DeleteSearch(n)).searches
  {}

  // ----- Ended searches -----

  /** The search was handed out, and is over or forgotten. */
  predicate Over(db: Db, n: nat) {
    n < db.nextSearch && (n in db.searches ==> db.searches[n].status == Ended)
  }

  /** A chat keeps its two users and its kind. */
  predicate SamePeople(c: Chat, d: Chat) {
    d.user1 == c.user1 && d.user2 == c.user2 && d.isFake == c.isFake
  }

  /** The chats created after the first `k` ones do not come from search `n`. */
  ghost predicate NoFakeFrom(chats: seq<Chat>, k: nat, n: nat) {
    k <= |chats| && forall i | k <= i < |chats| && chats[i].isFake :: chats[i].user2.Fake? && chats[i].user2.search != n
  }

  lemma ApplyKeepsOver(db: Db, a: Action, k: nat, n: nat)
    requires Over(db, n) && NoFakeFrom(db.chats, k, n)
    ensures Over(Apply(db, a), n) && NoFakeFrom(Apply(db, a).chats, k, n)
  {
    if a.End? && Apply(db, a) != db {
      assert forall i | 0 <= i < |db.chats| :: SamePeople(db.chats[i], Apply(db, a).chats[i]);
    }
  }

  /** Once a search is over it stays over in every run, and never becomes a synthetic chat. */
  lemma {:induction false} OverForGood(db: Db, actions: seq<Action>, k: nat, n: nat)
    requires Over(db, n) && NoFakeFrom(db.chats, k, n)
    ensures Over(Run(db, actions), n) && NoFakeFrom(Run(db, actions).chats, k, n)
    decreases |actions|
  {
    if actions != [] {
      ApplyKeepsOver(db, actions[0], k, n);
      OverForGood(Apply(db, actions[0]), actions[1..], k, n);
    }
  }

  /** Connecting two users ends their searches for good: none of them becomes a
      synthetic chat in any later run. */
  lemma ConnectedSearchesAreOver(db: Db, u1: UserId, u2: UserId, cost1: nat, cost2: nat, ended: set<nat>,
                                 later: seq<Action>, n: nat)
    requires Inv(db) && CreateChat(db, u1, u2, cost1, cost2, ended).Ok? && n in ended && n in db.searches
    ensures var db1 := CreateChat(db, u1, u2, cost1, cost2, ended).value;
            var db2 := Run(db1, later);
            && (n in db2.searches ==> db2.searches[n].status == Ended)
            && |db1.chats| <= |db2.chats|
            && (forall i | |db1.chats| <= i < |db2.chats| && db2.chats[i].isFake ::
                  db2.chats[i].user2.Fake? && db2.chats[i].user2.search != n)
  {
    var db1 := CreateChat(db, u1, u2, cost1, cost2, ended).value;
    OverForGood(db1, later, |db1.chats|, n);
  }

  // ----- Conservation of coins -----

  /** What `u` has paid into chat `c` and not got back. */
  function Stake(c: Chat, u: UserId): int {
    (if c.user1 == u then c.spent1 - c.refunded1 else 0) + (if c.user2 == u then c.spent2 - c.refunded2 else 0)
  }

  function Held(chats: seq<Chat>, u: UserId): int {
    if chats == [] then 0 else Held(chats[..|chats| - 1], u) + Stake(chats[|chats| - 1], u)
  }

  /** Everything that is or was `u`'s: the balance, the coins in active chats and
      the coins that ended chats kept. */
  function Account(db: Db, u: UserId): int {
    (if u in db.users then db.users[u].balance else 0) + Held(db.chats, u)
  }

  lemma HeldAppend(chats: seq<Chat>, c: Chat, u: UserId)
    ensures Held(chats + [c], u) == Held(chats, u) + Stake(c, u)
  {
    assert (chats + [c])[..|chats|] == chats;
  }

  lemma {:induction false} HeldUpdate(chats: seq<Chat>, i: nat, c: Chat, u: UserId)
    requires i < |chats|
    ensures Held(chats[i := c], u) == Held(chats, u) - Stake(chats[i], u) + Stake(c, u)
  {
    var last := |chats| - 1;
    if i == last {
      assert chats[i := c][..last] == chats[..last];
    } else {
      HeldUpdate(chats[..last], i, c, u);
      assert chats[i := c][..last] == chats[..last][i := c];
    }
  }

  /** CreateChat moves each side's price from its balance into the chat, provided
      the user's row exists or the price is zero, and only then. */
  lemma CreateConserves(db: Db, u1: UserId, u2: UserId, cost1: nat, cost2: nat, ended: set<nat>, u: UserId)
    requires CreateChat(db, u1, u2, cost1, cost2, ended).Ok?
    ensures Account(CreateChat(db, u1, u2, cost1, cost2, ended).value, u) == Account(db, u)
            <==> u in db.users || ((u == u1 ==> cost1 == 0) && (u == u2 ==> cost2 == 0))
  {
    HeldAppend(db.chats, Chat(u1, u2, true, cost1, cost2, 0, 0, false), u);
  }

  lemma MakeFakeConserves(db: Db, n: nat, now: int, source: nat, u: UserId)
    requires CreateFake(db, n, now, Ok(source)).Ok?
    ensures Account(CreateFake(db, n, now, Ok(source)).value, u) == Account(db, u)
  {
    var search := db.searches[n];
    HeldAppend(db.chats, Chat(search.user, Fake(source, n), true, search.cost, 0, 0, 0, true), u);
  }

  /** Ending a chat never creates a coin, and loses none of `u`'s exactly when
      `u`'s row was matched or had nothing to be refunded. */
  lemma EndConserves(db: Db, id: nat, messages: nat, matched: set<UserId>, u: UserId)
    requires Inv(db) && Enabled(db, End(id, messages, matched)) && EndChat(db, id, messages, matched).Ok?
    ensures var db' := EndChat(db, id, messages, matched).value;
            && Account(db', u) <= Account(db, u)
            && (Account(db', u) == Account(db, u)
                <==> u in matched || messages >= 5 || Stake(db.chats[id], u) == 0)
  {
    HeldUpdate(db.chats, id, Close(db.chats[id], messages), u);
  }

  lemma ApplyConserves(db: Db, a: Action, u: UserId)
    requires Inv(db) && Enabled(db, a)
    ensures Account(Apply(db, a), u) <= Account(db, u)
    ensures !a.End? ==> Account(Apply(db, a), u) == Account(db, u)
  {
    if Apply(db, a) != db {
      match a {
        case Create(u1, u2, cost1, cost2, ended) => CreateConserves(db, u1, u2, cost1, cost2, ended, u);
        case MakeFake(n, now, source) => MakeFakeConserves(db, n, now, source, u);
        case End(id, messages, matched) => EndConserves(db, id, messages, matched, u);
        case _ =>
      }
    }
  }

  /** No run creates a coin for anybody, whatever steps the handlers write. */
  lemma {:induction false} RunNeverCreatesCoins(db: Db, actions: seq<Action>, u: UserId)
    requires Inv(db) && EnabledRun(db, actions)
    ensures Account(Run(db, actions), u) <= Account(db, u)
    decreases |actions|
  {
    if actions != [] {
      ApplyKeepsInv(db, actions[0]);
      ApplyConserves(db, actions[0], u);
      RunNeverCreatesCoins(Apply(db, actions[0]), actions[1..], u);
    }
  }

  /** The step column agrees with the chats: whoever is in an active chat is marked as chatting. */
  ghost predicate StepsAgree(db: Db) {
    forall i, u | 0 <= i < |db.chats| && db.chats[i].active && u in db.users && db.chats[i].Involves(u) ::
      db.users[u].step.Chatting?
  }

  /** Handlers leave the step of chatting users alone, and EndChat's UPDATE matches all it can. */
  ghost predicate Respectful(db: Db, a: Action) {
    match a
    case Rewrite(u, _) => !InChat(db.chats, u)
    case End(id, _, matched) => id < |db.chats| ==> matched == Matching(db.users, db.chats[id])
    case _ => true
  }

  ghost predicate RespectfulRun(db: Db, actions: seq<Action>)
    decreases |actions|
  {
    actions == [] || (Respectful(db, actions[0]) && RespectfulRun(Apply(db, actions[0]), actions[1..]))
  }

  lemma RespectfulKeepsSteps(db: Db, a: Action)
    requires Inv(db) && StepsAgree(db) && Enabled(db, a) && Respectful(db, a)
    ensures StepsAgree(Apply(db, a))
  {
    if a.End? && Apply(db, a) != db {
      var db' := Apply(db, a);
      forall i, u | 0 <= i < |db'.chats| && db'.chats[i].active && u in db'.users && db'.chats[i].Involves(u)
        ensures db'.users[u].step.Chatting?
      {
        assert i != a.id && db.chats[i].active;
        assert u !in a.matched;
      }
    }
  }

  lemma RespectfulEndIsExact(db: Db, a: Action, u: UserId)
    requires Inv(db) && StepsAgree(db) && Enabled(db, a) && Respectful(db, a)
    ensures Account(Apply(db, a), u) == Account(db, u)
  {
    ApplyConserves(db, a, u);
    if a.End? && Apply(db, a) != db {
      EndConserves(db, a.id, a.messages, a.matched, u);
      if Stake(db.chats[a.id], u) != 0 {
        assert db.chats[a.id].Involves(u) && u in db.users;
      }
    }
  }

  /** When chatting users' steps are written by the three transactions only,
      every user's balance, held and kept coins add up to the same sum for ever. */
  lemma {:induction false} RunConservesExactly(db: Db, actions: seq<Action>, u: UserId)
    requires Inv(db) && StepsAgree(db) && EnabledRun(db, actions) && RespectfulRun(db, actions)
    ensures Account(Run(db, actions), u) == Account(db, u)
    decreases |actions|
  {
    if actions != [] {
      ApplyKeepsInv(db, actions[0]);
      RespectfulKeepsSteps(db, actions[0]);
      RespectfulEndIsExact(db, actions[0], u);
      RunConservesExactly(Apply(db, actions[0]), actions[1..], u);
    }
  }

  // ----- Exactly which runs conserve -----

  /** An ending leaves `u` nothing to lose: its row is matched, the chat was long
      enough, or `u` has no coins in it. */
  predicate Keeps(db: Db, a: Action, u: UserId) {
    a.End? && a.id < |db.chats| && db.chats[a.id].active ==>
      u in a.matched || a.messages >= 5 || Stake(db.chats[a.id], u) == 0
  }

  predicate KeepsRun(db: Db, actions: seq<Action>, u: UserId)
    decreases |actions|
  {
    actions == [] || (Keeps(db, actions[0], u) && KeepsRun(Apply(db, actions[0]), actions[1..], u))
  }

  lemma ApplyConservesExactlyWhen(db: Db, a: Action, u: UserId)
    requires Inv(db) && Enabled(db, a)
    ensures Account(Apply(db, a), u) == Account(db, u) <==> Keeps(db, a, u)
  {
    ApplyConserves(db, a, u);
    if a.End? && a.id < |db.chats| && db.chats[a.id].active {
      EndConserves(db, a.id, a.messages, a.matched, u);
    }
  }

  /** Over a whole run, whatever steps the handlers write, a user's coins are
      conserved exactly when no ending skips the row of a user it owes a refund. */
  lemma {:induction false} RunConservesExactlyWhen(db: Db, actions: seq<Action>, u: UserId)
    requires Inv(db) && EnabledRun(db, actions)
    ensures Account(Run(db, actions), u) == Account(db, u) <==> KeepsRun(db, actions, u)
    decreases |actions|
  {
    if actions != [] {
      var next := Apply(db, actions[0]);
      ApplyKeepsInv(db, actions[0]);
      ApplyConserves(db, actions[0], u);
      ApplyConservesExactlyWhen(db, actions[0], u);
      RunNeverCreatesCoins(next, actions[1..], u);
      RunConservesExactlyWhen(next, actions[1..], u);
    }
  }

  const TWO_USERS := Db(map[Real("1") := User(5, Menu("start")), Real("2") := User(0, Menu("start"))], [], map[], 0)

  const LOSING_RUN := [Create(Real("1"), Real("2"), 2, 0, {}),
                       Rewrite(Real("1"), Menu("auth")),
                       End(0, 0, {Real("2")})]

  /** A handler that rewrites a chatting user's step costs that user the refund:
      the chat ends without a message, EndChat's UPDATE matches all the rows it
      can, and two of the five coins are gone. */
  lemma RewrittenStepLosesRefund()
    ensures Inv(TWO_USERS) && EnabledRun(TWO_USERS, LOSING_RUN)
    ensures var chatting := Run(TWO_USERS, LOSING_RUN[..2]);
            |chatting.chats| == 1 && LOSING_RUN[2].matched == Matching(chatting.users, chatting.chats[0])
    ensures Account(TWO_USERS, Real("1")) == 5 && Account(Run(TWO_USERS, LOSING_RUN), Real("1")) == 3
  {
    var chat := Chat(Real("1"), Real("2"), true, 2, 0, 0, 0, false);
    var db1 := Apply(TWO_USERS, LOSING_RUN[0]);
    assert !InChat([], Real("1")) && !InChat([], Real("2"));
    assert db1.users == map[Real("1") := User(3, Chatting(Real("2"))), Real("2") := User(0, Chatting(Real("1")))];
    assert db1.chats == [chat] && db1.searches == map[];
    var db2 := Apply(db1, LOSING_RUN[1]);
    assert Matching(db2.users, chat) == {Real("2")};
    var db3 := Apply(db2, LOSING_RUN[2]);
    assert db3.users[Real("1")].balance == 3 && db3.chats == [Close(chat, 0)];
    HeldAppend([], Close(chat, 0), Real("1"));
    assert [] + [Close(chat, 0)] == [Close(chat, 0)] && Held([], Real("1")) == 0;
    ThreeActions(TWO_USERS, LOSING_RUN[0], LOSING_RUN[1], LOSING_RUN[2]);
    assert LOSING_RUN[..2] == [LOSING_RUN[0], LOSING_RUN[1]];
  }

  lemma ThreeActions(db: Db, a: Action, b: Action, c: Action)
    ensures Run(db, [a, b]) == Apply(Apply(db, a), b)
    ensures Run(db, [a, b, c]) == Apply(Apply(Apply(db, a), b), c)
    ensures EnabledRun(db, [a, b, c])
            <==> Enabled(db, a) && Enabled(Apply(db, a), b) && Enabled(Apply(Apply(db, a), b), c)
  {
    assert [a, b][1..] == [b] && [b][1..] == [];
    assert [a, b, c][1..] == [b, c] && [b, c][1..] == [c] && [c][1..] == [];
    assert Run(Apply(db, a), [b]) == Apply(Apply(db, a), b);
    assert Run(Apply(Apply(db, a), b), [c]) == Apply(Apply(Apply(db, a), b), c);
    assert EnabledRun(Apply(Apply(db, a), b), [c]) <==> Enabled(Apply(Apply(db, a), b), c);
    assert EnabledRun(Apply(db, a), [b, c]) <==> Enabled(Apply(db, a), b) && EnabledRun(Apply(Apply(db, a), b), [c]);
  }

  /** The coins of a whole list of users. */
  function Total(db: Db, us: seq<UserId>): int {
    if us == [] then 0 else Account(db, us[0]) + Total(db, us[1..])
  }

  lemma {:induction false} TotalNeverGrows(db: Db, actions: seq<Action>, us: seq<UserId>)
    requires Inv(db) && EnabledRun(db, actions)
    ensures Total(Run(db, actions), us) <= Total(db, us)
    ensures StepsAgree(db) && RespectfulRun(db, actions) ==> Total(Run(db, actions), us) == Total(db, us)
  {
    if us != [] {
      RunNeverCreatesCoins(db, actions, us[0]);
      if StepsAgree(db) && RespectfulRun(db, actions) { RunConservesExactly(db, actions, us[0]); }
      TotalNeverGrows(db, actions, us[1..]);
    }
  }

  /** A chat that ends with fewer than five messages gives each side back exactly
      what it spent and touches nobody else's balance; a longer one gives nothing back. */
  lemma EndedChatPaysBack(db: Db, id: nat, messages: nat, u: UserId)
    requires Inv(db) && StepsAgree(db) && id < |db.chats| && db.chats[id].active && u in db.users
    ensures var db' := Apply(db, End(id, messages, Matching(db.users, db.chats[id])));
            && u in db'.users
            && db'.users[u].balance == db.users[u].balance + (if messages < 5 then Stake(db.chats[id], u) else 0)
            && (messages < 5 ==> Stake(db'.chats[id], u) == 0)
            && (db.chats[id].Involves(u) ==> db'.users[u].step == Menu("start") && !InChat(db'.chats, u))
  {}

  /** The empty tables satisfy every invariant, so the theorems hold from the start. */
  lemma InitialDb()
    ensures Inv(Db(map[], [], map[], 0)) && StepsAgree(Db(map[], [], map[], 0))
  {}

  /** A chat charged to a missing row counts coins nobody paid. */
  lemma MissingRowCountsCoinsTwice()
    ensures var db := Db(map[Real("1") := User(5, Menu("start"))], [], map[], 0);
            var db' := CreateChat(db, Real("1"), Real("2"), 0, 3, {}).value;
            Inv(db) && Account(db', Real("2")) == 3 && Account(db, Real("2")) == 0
  {
    var db := Db(map[Real("1") := User(5, Menu("start"))], [], map[], 0);
    assert !InChat(db.chats, Real("1")) && !InChat(db.chats, Real("2"));
    HeldAppend([], Chat(Real("1"), Real("2"), true, 0, 3, 0, 0, false), Real("2"));
    assert Held([], Real("2")) == 0;
  }
}
