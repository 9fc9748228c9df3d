/** The same three transactions, split into the steps PostgreSQL interleaves:
    row locks, the reading check, the buffered writes and the commit
    (internal/storage/store.go, READ COMMITTED).  Locks may be taken one at a
    time and in any order, and any transaction may abort at any time.  The
    result is that each commit is one atomic action of `ChatLedger`, so every
    theorem about whole transactions holds for every interleaving. */
module ChatTransactions {
  import opened ChatLedger

  type TxId = nat

  datatype Row = UserRow(user: UserId) | ChatRow(id: nat) | SearchRow(n: nat)

  /** A transaction and what its session has read or buffered so far. */
  datatype Tx =
    | Creating(u1: UserId, u2: UserId, cost1: nat, cost2: nat)
    | CreateChecked(u1: UserId, u2: UserId, cost1: nat, cost2: nat)
    | CreateWritten(u1: UserId, u2: UserId, cost1: nat, cost2: nat, ended: set<nat>, rows: map<UserId, User>)
    | Faking(n: nat, now: int)
    | FakeFound(n: nat, now: int, search: Search)
    | FakeChecked(n: nat, now: int, search: Search, source: nat)
    | FakeWritten(n: nat, now: int, search: Search, source: nat, rows: map<UserId, User>)
    | Ending(id: nat)
    | EndRead(id: nat, chat: Chat)
    | EndUpdating(id: nat, chat: Chat, messages: nat, todo: set<UserId>, matched: set<UserId>)
    | EndWritten(id: nat, chat: Chat, messages: nat, matched: set<UserId>, rows: map<UserId, User>)

  /** `db` is the committed data: what other sessions can see. */
  datatype State = State(db: Db, locks: map<Row, TxId>, txs: map<TxId, Tx>)

  datatype Event =
    | Begin(t: TxId, tx: Tx)
    | Lock(t: TxId, row: Row)
    | Advance(t: TxId, next: Tx)
    | Commit(t: TxId)
    | Abort(t: TxId)
    | Auto(action: Action)

  predicate Owns(s: State, t: TxId, row: Row) {
    row in s.locks && s.locks[row] == t
  }

  // ----- The statements -----

  /** The user rows CreateChat's two UPDATEs write. */
  function ChargedRows(users: map<UserId, User>, u1: UserId, u2: UserId, cost1: nat, cost2: nat): map<UserId, User>
    requires u1 in users && u2 in users
  {
    map[u1 := User(users[u1].balance - cost1, Chatting(u2)), u2 := User(users[u2].balance - cost2, Chatting(u1))]
  }

  function RefundedRows(users: map<UserId, User>, c: Chat, messages: nat, matched: set<UserId>): map<UserId, User>
    requires matched <= users.Keys
  {
    map u | u in matched ::
      User(users[u].balance + (if u == c.user1 then RefundOf(c.spent1, messages) else RefundOf(c.spent2, messages)),
           Menu("start"))
  }

  /** What a transaction needs to run its next statement, and what the statement
      reads from the committed data or buffers.  An UPDATE decides about its rows
      one by one: those of EndChat in either order and at different times, and
      CreateChat may miss searches that appear while it runs. */
  ghost predicate CanAdvance(s: State, t: TxId, next: Tx)
    requires t in s.txs
  {
    var db := s.db;
    match s.txs[t]
    case Creating(u1, u2, cost1, cost2) =>
      && Owns(s, t, UserRow(u1)) && Owns(s, t, UserRow(u2))
      && !InChat(db.chats, u1) && !InChat(db.chats, u2)
      && next == CreateChecked(u1, u2, cost1, cost2)
    case CreateChecked(u1, u2, cost1, cost2) =>
      && u1 in db.users && u2 in db.users && next.CreateWritten?
      && next.ended <= SearchesOf(db.searches, u1, u2)
      && (forall n | n in next.ended :: Owns(s, t, SearchRow(n)))
      && next == CreateWritten(u1, u2, cost1, cost2, next.ended, ChargedRows(db.users, u1, u2, cost1, cost2))
    case Faking(n, now) =>
      && Owns(s, t, SearchRow(n))
      && n in db.searches && db.searches[n].status == Doing && db.searches[n].date + 60 <= now
      && next == FakeFound(n, now, db.searches[n])
    case FakeFound(n, now, search) =>
      && Owns(s, t, UserRow(search.user)) && search.user in db.users
      && !InChat(db.chats, search.user)
      && next.FakeChecked? && next == FakeChecked(n, now, search, next.source)
    case FakeChecked(n, now, search, source) =>
      var fake := Fake(source, n);
      && fake !in db.users && search.user in db.users
      && next == FakeWritten(n, now, search, source,
                             map[search.user := User(db.users[search.user].balance - search.cost, Chatting(fake))])
    case Ending(id) =>
      && Owns(s, t, ChatRow(id))
      && id < |db.chats| && db.chats[id].active
      && next == EndRead(id, db.chats[id])
    case EndRead(id, chat) =>
      next.EndUpdating? && next == EndUpdating(id, chat, next.messages, {chat.user1, chat.user2}, {})
    case EndUpdating(id, chat, messages, todo, matched) =>
      if todo == {} then
        && matched <= db.users.Keys
        && next == EndWritten(id, chat, messages, matched, RefundedRows(db.users, chat, messages, matched))
      else
        exists u | u in todo ::
          if u in Matching(db.users, chat)
          then Owns(s, t, UserRow(u)) && next == EndUpdating(id, chat, messages, todo - {u}, matched + {u})
          else next == EndUpdating(id, chat, messages, todo - {u}, matched)
    case _ => false
  }

  predicate Written(tx: Tx) {
    tx.CreateWritten? || tx.FakeWritten? || tx.EndWritten?
  }

  /** Makes the buffered writes of a transaction visible. */
  function Install(db: Db, tx: Tx): Db
    requires Written(tx)
    requires tx.EndWritten? ==> tx.id < |db.chats|
  {
    match tx
    case CreateWritten(u1, u2, cost1, cost2, ended, rows) =>
      db.(users := db.users + rows,
          chats := db.chats + [Chat(u1, u2, true, cost1, cost2, 0, 0, false)],
          searches := EndSearches(db.searches, ended))
    case FakeWritten(n, now, search, source, rows) =>
      db.(users := db.users + map[Fake(source, n) := User(0, Chatting(search.user))] + rows,
          chats := db.chats + [Chat(search.user, Fake(source, n), true, search.cost, 0, 0, 0, true)],
          searches := db.searches[n := search.(status := Ended)])
    case EndWritten(id, chat, messages, matched, rows) =>
      db.(users := db.users + rows, chats := db.chats[id := Close(chat, messages)])
  }

  function Finish(s: State, t: TxId): State {
    s.(locks := map r | r in s.locks && s.locks[r] != t :: s.locks[r], txs := s.txs - {t})
  }

  /** A statement outside the transactions waits for, and writes, one row. */
  predicate AutoFree(s: State, a: Action) {
    match a
    case Rewrite(u, _) => UserRow(u) !in s.locks
    case Register(u) => u.Real?
    case StartSearch(_, _, _) => true
    case ClaimSearch(n) => SearchRow(n) !in s.locks
    case ReleaseSearch(n) => SearchRow(n) !in s.locks
    case EndSearch(n) => SearchRow(n) !in s.locks
    case DeleteSearch(n) => SearchRow(n) !in s.locks
    case _ => false
  }

  ghost predicate CanFire(s: State, e: Event) {
    match e
    case Begin(t, tx) =>
      && t !in s.txs
      && match tx {
           case Creating(u1, u2, _, _) => u1 != u2 && u1 in s.db.users && u2 in s.db.users
           case Faking(_, _) => true
           case Ending(_) => true
           case _ => false
         }
    case Lock(t, row) => t in s.txs && row !in s.locks
    case Advance(t, next) => t in s.txs && CanAdvance(s, t, next)
    case Commit(t) => t in s.txs && Written(s.txs[t]) && (s.txs[t].EndWritten? ==> s.txs[t].id < |s.db.chats|)
    case Abort(t) => t in s.txs
    case Auto(a) => AutoFree(s, a)
  }

  ghost function Fire(s: State, e: Event): State
    requires CanFire(s, e)
  {
    match e
    case Begin(t, tx) => s.(txs := s.txs[t := tx])
    case Lock(t, row) => s.(locks := s.locks[row := t])
    case Advance(t, next) => s.(txs := s.txs[t := next])
    case Commit(t) => Finish(s.(db := Install(s.db, s.txs[t])), t)
    case Abort(t) => Finish(s, t)
    case Auto(a) => s.(db := Apply(s.db, a))
  }

  /** The atomic action an event performs on the committed data, if any. */
  ghost function Effect(s: State, e: Event): seq<Action> {
    match e
    case Auto(a) => [a]
    case Commit(t) =>
      if t !in s.txs then []
      else (match s.txs[t]
            case CreateWritten(u1, u2, cost1, cost2, ended, _) => [Create(u1, u2, cost1, cost2, ended)]
            case FakeWritten(n, now, _, source, _) => [MakeFake(n, now, source)]
            case EndWritten(id, _, messages, matched, _) => [End(id, messages, matched)]
            case _ => [])
    case _ => []
  }

  // ----- What the row locks protect -----

  /** Everything a transaction has read or buffered still agrees with the committed data. */
  ghost predicate TxOk(s: State, t: TxId, tx: Tx) {
    var db := s.db;
    match tx
    case Creating(u1, u2, _, _) => u1 != u2 && u1 in db.users && u2 in db.users
    case CreateChecked(u1, u2, _, _) => CreateSafe(s, t, u1, u2)
    case CreateWritten(u1, u2, cost1, cost2, ended, rows) =>
      && CreateSafe(s, t, u1, u2)
      && rows == ChargedRows(db.users, u1, u2, cost1, cost2)
      && (forall n | n in ended :: Owns(s, t, SearchRow(n)) && n in SearchesOf(db.searches, u1, u2))
    case Faking(_, _) => true
    case FakeFound(n, now, search) => FakeReady(s, t, n, now, search)
    case FakeChecked(n, now, search, _) => FakeReady(s, t, n, now, search) && FakeSafe(s, t, search.user)
    case FakeWritten(n, now, search, source, rows) =>
      && FakeReady(s, t, n, now, search) && FakeSafe(s, t, search.user)
      && Fake(source, n) !in db.users
      && rows == map[search.user := User(db.users[search.user].balance - search.cost, Chatting(Fake(source, n)))]
    case Ending(_) => true
    case EndRead(id, chat) => EndSafe(s, t, id, chat)
    case EndUpdating(id, chat, _, todo, matched) =>
      && EndSafe(s, t, id, chat)
      && todo <= {chat.user1, chat.user2}
      && matched <= Matching(db.users, chat)
      && (forall u | u in matched :: Owns(s, t, UserRow(u)))
    case EndWritten(id, chat, messages, matched, rows) =>
      && EndSafe(s, t, id, chat)
      && matched <= Matching(db.users, chat)
      && (forall u | u in matched :: Owns(s, t, UserRow(u)))
      && rows == RefundedRows(db.users, chat, messages, matched)
  }

  ghost predicate CreateSafe(s: State, t: TxId, u1: UserId, u2: UserId) {
    && u1 != u2 && u1 in s.db.users && u2 in s.db.users
    && Owns(s, t, UserRow(u1)) && Owns(s, t, UserRow(u2))
    && !InChat(s.db.chats, u1) && !InChat(s.db.chats, u2)
  }

  ghost predicate FakeReady(s: State, t: TxId, n: nat, now: int, search: Search) {
    && Owns(s, t, SearchRow(n))
    && n in s.db.searches && s.db.searches[n] == search && search.status == Doing && search.date + 60 <= now
  }

  ghost predicate FakeSafe(s: State, t: TxId, u: UserId) {
    Owns(s, t, UserRow(u)) && u in s.db.users && !InChat(s.db.chats, u)
  }

  ghost predicate EndSafe(s: State, t: TxId, id: nat, chat: Chat) {
    Owns(s, t, ChatRow(id)) && id < |s.db.chats| && s.db.chats[id] == chat && chat.active
  }

  ghost predicate SafeState(s: State) {
    && Inv(s.db)
    && (forall t | t in s.txs :: TxOk(s, t, s.txs[t]))
    && (forall row | row in s.locks :: s.locks[row] in s.txs)
  }

  /** A step that leaves alone every row `t` has locked. */
  ghost predicate Undisturbed(s: State, s': State, t: TxId) {
    var db, db' := s.db, s'.db;
    && (forall row | Owns(s, t, row) :: Owns(s', t, row))
    && db.users.Keys <= db'.users.Keys
    && (forall u | Owns(s, t, UserRow(u)) && u in db.users ::
          db'.users[u] == db.users[u] && (!InChat(db.chats, u) ==> !InChat(db'.chats, u)))
    && (forall n | Owns(s, t, SearchRow(n)) && n in db.searches ::
          n in db'.searches && db'.searches[n] == db.searches[n])
    && (forall id: nat | Owns(s, t, ChatRow(id)) && id < |db.chats| ::
          id < |db'.chats| && db'.chats[id] == db.chats[id])
    && (forall n, source | Owns(s, t, SearchRow(n)) && Fake(source, n) !in db.users :: Fake(source, n) !in db'.users)
  }

  lemma UndisturbedStaysOk(s: State, s': State, t: TxId, tx: Tx)
    requires TxOk(s, t, tx) && Undisturbed(s, s', t)
    ensures TxOk(s', t, tx)
  {}

  lemma CreateCommitIsAtomic(s: State, t: TxId)
    requires SafeState(s) && t in s.txs && s.txs[t].CreateWritten?
    ensures var tx := s.txs[t];
            && Enabled(s.db, Create(tx.u1, tx.u2, tx.cost1, tx.cost2, tx.ended))
            && CreateChat(s.db, tx.u1, tx.u2, tx.cost1, tx.cost2, tx.ended) == Ok(Install(s.db, tx))
  {
    var tx := s.txs[t];
    assert TxOk(s, t, tx);
    assert s.db.users + tx.rows == Charge(Charge(s.db.users, tx.u1, tx.cost1, tx.u2), tx.u2, tx.cost2, tx.u1);
  }

  lemma FakeCommitIsAtomic(s: State, t: TxId)
    requires SafeState(s) && t in s.txs && s.txs[t].FakeWritten?
    ensures var tx := s.txs[t];
            CreateFake(s.db, tx.n, tx.now, Ok(tx.source)) == Ok(Install(s.db, tx))
  {
    var tx := s.txs[t];
    assert TxOk(s, t, tx);
    var fake := Fake(tx.source, tx.n);
    var users := s.db.users[fake := User(0, Chatting(tx.search.user))];
    assert s.db.users + map[fake := User(0, Chatting(tx.search.user))] + tx.rows
        == Charge(users, tx.search.user, tx.search.cost, fake);
  }

  lemma EndCommitIsAtomic(s: State, t: TxId)
    requires SafeState(s) && t in s.txs && s.txs[t].EndWritten? && s.txs[t].id < |s.db.chats|
    ensures var tx := s.txs[t];
            && Enabled(s.db, End(tx.id, tx.messages, tx.matched))
            && EndChat(s.db, tx.id, tx.messages, tx.matched) == Ok(Install(s.db, tx))
  {
    var tx := s.txs[t];
    assert TxOk(s, t, tx);
    var closed := Close(tx.chat, tx.messages);
    assert s.db.users + tx.rows == Refund(s.db.users, closed, closed.refunded1, closed.refunded2, tx.matched);
  }

  /** The transaction went through as the atomic action. */
  predicate Succeeds(db: Db, a: Action) {
    match a
    case Create(u1, u2, cost1, cost2, ended) => CreateChat(db, u1, u2, cost1, cost2, ended).Ok?
    case MakeFake(n, now, source) => CreateFake(db, n, now, Ok(source)).Ok?
    case End(id, messages, matched) => EndChat(db, id, messages, matched).Ok?
    case _ => false
  }

  /** At its commit a transaction is exactly its atomic counterpart: the check
      made earlier still holds and the buffered rows are what the UPDATEs would
      compute now. */
  lemma CommitIsAtomic(s: State, t: TxId)
    requires SafeState(s) && CanFire(s, Commit(t))
    ensures |Effect(s, Commit(t))| == 1
    ensures var a := Effect(s, Commit(t))[0];
            Enabled(s.db, a) && Succeeds(s.db, a) && Install(s.db, s.txs[t]) == Apply(s.db, a)
  {
    match s.txs[t] {
      case CreateWritten(_, _, _, _, _, _) => CreateCommitIsAtomic(s, t);
      case FakeWritten(_, _, _, _, _) => FakeCommitIsAtomic(s, t);
      case EndWritten(_, _, _, _, _) => EndCommitIsAtomic(s, t);
    }
  }

  lemma CreateUndisturbed(s: State, t: TxId, other: TxId)
    requires SafeState(s) && t in s.txs && s.txs[t].CreateWritten? && other != t
    ensures Undisturbed(s, Finish(s.(db := Install(s.db, s.txs[t])), t), other)
  {
    assert TxOk(s, t, s.txs[t]);
  }

  lemma FakeUndisturbed(s: State, t: TxId, other: TxId)
    requires SafeState(s) && t in s.txs && s.txs[t].FakeWritten? && other != t
    ensures Undisturbed(s, Finish(s.(db := Install(s.db, s.txs[t])), t), other)
  {
    assert TxOk(s, t, s.txs[t]);
  }

  lemma EndUndisturbed(s: State, t: TxId, other: TxId)
    requires SafeState(s) && t in s.txs && s.txs[t].EndWritten? && other != t && s.txs[t].id < |s.db.chats|
    ensures Undisturbed(s, Finish(s.(db := Install(s.db, s.txs[t])), t), other)
  {
    assert TxOk(s, t, s.txs[t]);
  }

  /** A commit disturbs no other transaction. */
  lemma CommitUndisturbed(s: State, t: TxId, other: TxId)
    requires SafeState(s) && CanFire(s, Commit(t)) && other in s.txs && other != t
    ensures Undisturbed(s, Fire(s, Commit(t)), other)
  {
    match s.txs[t] {
      case CreateWritten(_, _, _, _, _, _) => CreateUndisturbed(s, t, other);
      case FakeWritten(_, _, _, _, _) => FakeUndisturbed(s, t, other);
      case EndWritten(_, _, _, _, _) => EndUndisturbed(s, t, other);
    }
  }

  lemma UserStatementUndisturbed(s: State, a: Action, t: TxId)
    requires SafeState(s) && AutoFree(s, a) && t in s.txs && (a.Rewrite? || a.Register?)
    ensures Undisturbed(s, Fire(s, Auto(a)), t)
  {}

  lemma SearchStatementUndisturbed(s: State, a: Action, t: TxId)
    requires SafeState(s) && AutoFree(s, a) && t in s.txs && !a.Rewrite? && !a.Register?
    ensures Undisturbed(s, Fire(s, Auto(a)), t)
  {}

  lemma AutoUndisturbed(s: State, a: Action, t: TxId)
    requires SafeState(s) && AutoFree(s, a) && t in s.txs
    ensures Undisturbed(s, Fire(s, Auto(a)), t)
  {
    if a.Rewrite? || a.Register? {
      UserStatementUndisturbed(s, a, t);
    } else {
      SearchStatementUndisturbed(s, a, t);
    }
  }

  lemma CommitKeepsSafe(s: State, t: TxId)
    requires SafeState(s) && CanFire(s, Commit(t))
    ensures SafeState(Fire(s, Commit(t)))
    ensures EnabledRun(s.db, Effect(s, Commit(t))) && Fire(s, Commit(t)).db == Run(s.db, Effect(s, Commit(t)))
  {
    var s' := Fire(s, Commit(t));
    var effect := Effect(s, Commit(t));
    CommitIsAtomic(s, t);
    ApplyKeepsInv(s.db, effect[0]);
    assert effect[1..] == [];
    forall other | other in s'.txs
      ensures TxOk(s', other, s'.txs[other])
    {
      CommitUndisturbed(s, t, other);
      UndisturbedStaysOk(s, s', other, s.txs[other]);
    }
  }

  lemma AutoKeepsSafe(s: State, a: Action)
    requires SafeState(s) && CanFire(s, Auto(a))
    ensures SafeState(Fire(s, Auto(a)))
    ensures EnabledRun(s.db, [a]) && Fire(s, Auto(a)).db == Run(s.db, [a])
  {
    var s' := Fire(s, Auto(a));
    ApplyKeepsInv(s.db, a);
    assert [a][1..] == [];
    forall t | t in s'.txs
      ensures TxOk(s', t, s'.txs[t])
    {
      AutoUndisturbed(s, a, t);
      UndisturbedStaysOk(s, s', t, s.txs[t]);
    }
  }

  /** Taking a lock, or losing another transaction's locks, disturbs nobody. */
  lemma LocksUndisturbed(s: State, s': State)
    requires SafeState(s) && s'.db == s.db && s'.txs.Keys <= s.txs.Keys
    requires forall t | t in s'.txs :: s'.txs[t] == s.txs[t]
    requires forall t, row | t in s'.txs && Owns(s, t, row) :: Owns(s', t, row)
    requires forall row | row in s'.locks :: s'.locks[row] in s'.txs
    ensures SafeState(s')
  {
    forall t | t in s'.txs
      ensures TxOk(s', t, s'.txs[t])
    {
      UndisturbedStaysOk(s, s', t, s.txs[t]);
    }
  }

  lemma AdvanceKeepsOk(s: State, t: TxId, next: Tx)
    requires SafeState(s) && t in s.txs && CanAdvance(s, t, next)
    ensures TxOk(s, t, next)
  {
    assert TxOk(s, t, s.txs[t]);
  }

  /** Beginning or advancing a transaction changes nobody else's rows or locks. */
  lemma TxStepKeepsSafe(s: State, t: TxId, next: Tx)
    requires SafeState(s) && TxOk(s, t, next)
    ensures SafeState(s.(txs := s.txs[t := next]))
  {
    var s' := s.(txs := s.txs[t := next]);
    forall other | other in s'.txs
      ensures TxOk(s', other, s'.txs[other])
    {
      UndisturbedStaysOk(s, s', other, s'.txs[other]);
    }
  }

  lemma FireKeepsSafe(s: State, e: Event)
    requires SafeState(s) && CanFire(s, e)
    ensures SafeState(Fire(s, e))
    ensures EnabledRun(s.db, Effect(s, e)) && Fire(s, e).db == Run(s.db, Effect(s, e))
  {
    match e {
      case Begin(t, tx) => TxStepKeepsSafe(s, t, tx);
      case Lock(t, row) => LocksUndisturbed(s, Fire(s, e));
      case Advance(t, next) =>
        AdvanceKeepsOk(s, t, next);
        TxStepKeepsSafe(s, t, next);
      case Commit(t) => CommitKeepsSafe(s, t);
      case Abort(t) => LocksUndisturbed(s, Fire(s, e));
      case Auto(a) => AutoKeepsSafe(s, a);
    }
  }

  const START := State(Db(map[], [], map[], 0), map[], map[])

  /** Empty tables without any transaction satisfy all of this. */
  lemma InitialState()
    ensures SafeState(START) && BothMatched(START)
  {
    InitialDb();
  }

  // ----- Every interleaving -----

  ghost predicate CanRun(s: State, events: seq<Event>)
    decreases |events|
  {
    events == [] || (CanFire(s, events[0]) && CanRun(Fire(s, events[0]), events[1..]))
  }

  ghost function Final(s: State, events: seq<Event>): State
    requires CanRun(s, events)
    decreases |events|
  {
    if events == [] then s else Final(Fire(s, events[0]), events[1..])
  }

  /** The committed actions of an interleaving, in commit order. */
  ghost function Effects(s: State, events: seq<Event>): seq<Action>
    requires CanRun(s, events)
    decreases |events|
  {
    if events == [] then [] else Effect(s, events[0]) + Effects(Fire(s, events[0]), events[1..])
  }

  lemma {:induction false} RunConcat(db: Db, a: seq<Action>, b: seq<Action>)
    ensures Run(db, a + b) == Run(Run(db, a), b)
    ensures EnabledRun(db, a + b) <==> EnabledRun(db, a) && EnabledRun(Run(db, a), b)
    decreases |a|
  {
    if a == [] {
      assert a + b == b;
    } else {
      assert (a + b)[1..] == a[1..] + b;
      RunConcat(Apply(db, a[0]), a[1..], b);
    }
  }

  /** Every interleaving of split transactions leaves the committed data of one
      sequence of atomic transactions: the transactions are serialisable in
      commit order. */
  lemma {:induction false} InterleavingRefinesAtomicRun(s: State, events: seq<Event>)
    requires SafeState(s) && CanRun(s, events)
    ensures EnabledRun(s.db, Effects(s, events))
    ensures Final(s, events).db == Run(s.db, Effects(s, events))
    ensures SafeState(Final(s, events))
    decreases |events|
  {
    if events != [] {
      FireKeepsSafe(s, events[0]);
      InterleavingRefinesAtomicRun(Fire(s, events[0]), events[1..]);
      RunConcat(s.db, Effect(s, events[0]), Effects(Fire(s, events[0]), events[1..]));
    }
  }

  /** In every interleaving no user is ever in two active chats, each search
      becomes at most one synthetic chat, and no coin is created for anybody. */
  lemma InterleavingsAreSafe(s: State, events: seq<Event>, u: UserId)
    requires SafeState(s) && CanRun(s, events)
    ensures var db' := Final(s, events).db;
            Exclusive(db'.chats) && OneFakePerSearch(db'.chats) && Account(db', u) <= Account(s.db, u)
  {
    InterleavingRefinesAtomicRun(s, events);
    RunNeverCreatesCoins(s.db, Effects(s, events), u);
  }

  /** An interleaving conserves a user's coins exactly when none of its endings,
      in commit order, skips the row of a user it owes a refund. */
  lemma InterleavingsConserveExactlyWhen(s: State, events: seq<Event>, u: UserId)
    requires SafeState(s) && CanRun(s, events)
    ensures Account(Final(s, events).db, u) == Account(s.db, u) <==> KeepsRun(s.db, Effects(s, events), u)
  {
    InterleavingRefinesAtomicRun(s, events);
    RunConservesExactlyWhen(s.db, Effects(s, events), u);
  }

  /** A commit of CreateChat ends the searches its UPDATE matched, and changes no other search. */
  lemma InstallEndsSearches(s: State, t: TxId)
    requires SafeState(s) && t in s.txs && s.txs[t].CreateWritten?
    ensures SearchesEnded(s.db.searches, Install(s.db, s.txs[t]).searches, s.txs[t].ended)
  {
    EndSearchesEnds(s.db.searches, s.txs[t].ended);
  }

  /** In every interleaving that follows, a search ended by that commit stays ended
      or is deleted, and never becomes a synthetic chat. */
  lemma EndedSearchesAreOver(s: State, t: TxId, later: seq<Event>, n: nat)
    requires SafeState(s) && CanFire(s, Commit(t)) && s.txs[t].CreateWritten? && n in s.txs[t].ended
    requires CanRun(Fire(s, Commit(t)), later)
    ensures var db1, db2 := Fire(s, Commit(t)).db, Final(Fire(s, Commit(t)), later).db;
            && (n in db2.searches ==> db2.searches[n].status == Ended)
            && NoFakeFrom(db2.chats, |db1.chats|, n)
  {
    var s1 := Fire(s, Commit(t));
    assert TxOk(s, t, s.txs[t]);
    InstallEndsSearches(s, t);
    FireKeepsSafe(s, Commit(t));
    InterleavingRefinesAtomicRun(s1, later);
    OverForGood(s1.db, Effects(s1, later), |s1.db.chats|, n);
  }

  // ----- Exact conservation -----

  /** Handlers leave the step of users in committed active chats alone. */
  ghost predicate Polite(s: State, e: Event) {
    e.Auto? && e.action.Rewrite? ==> !InChat(s.db.chats, e.action.user)
  }

  ghost predicate PoliteRun(s: State, events: seq<Event>)
    requires CanRun(s, events)
    decreases |events|
  {
    events == [] || (Polite(s, events[0]) && PoliteRun(Fire(s, events[0]), events[1..]))
  }

  /** Each EndChat's UPDATE has matched every row of its chat that it has decided. */
  ghost predicate BothMatched(s: State) {
    && StepsAgree(s.db)
    && (forall t | t in s.txs && s.txs[t].EndWritten? ::
          s.txs[t].matched == {s.txs[t].chat.user1, s.txs[t].chat.user2})
    && (forall t | t in s.txs && s.txs[t].EndUpdating? ::
          s.txs[t].matched + s.txs[t].todo == {s.txs[t].chat.user1, s.txs[t].chat.user2})
  }

  lemma CommitIsRespectful(s: State, t: TxId)
    requires SafeState(s) && BothMatched(s) && CanFire(s, Commit(t))
    ensures RespectfulRun(s.db, Effect(s, Commit(t)))
    ensures StepsAgree(Fire(s, Commit(t)).db)
  {
    CommitIsAtomic(s, t);
    var a := Effect(s, Commit(t))[0];
    assert TxOk(s, t, s.txs[t]);
    RespectfulKeepsSteps(s.db, a);
    assert Effect(s, Commit(t)) == [a] && [a][1..] == [];
  }

  /** Both users of an active chat are marked as chatting, so neither row is skipped. */
  lemma AdvanceKeepsBothMatched(s: State, t: TxId, next: Tx)
    requires SafeState(s) && BothMatched(s) && t in s.txs && CanAdvance(s, t, next)
    ensures BothMatched(s.(txs := s.txs[t := next]))
  {
    if s.txs[t].EndUpdating? {
      assert TxOk(s, t, s.txs[t]);
      var c := s.txs[t].chat;
      assert c.Involves(c.user1) && c.Involves(c.user2);
      assert Matching(s.db.users, c) == {c.user1, c.user2};
    }
  }

  lemma PoliteFireIsRespectful(s: State, e: Event)
    requires SafeState(s) && BothMatched(s) && CanFire(s, e) && Polite(s, e)
    ensures RespectfulRun(s.db, Effect(s, e))
    ensures BothMatched(Fire(s, e))
  {
    match e {
      case Commit(t) => CommitIsRespectful(s, t);
      case Auto(a) =>
        RespectfulKeepsSteps(s.db, a);
        assert [a][1..] == [];
      case Advance(t, next) => AdvanceKeepsBothMatched(s, t, next);
      case _ =>
    }
  }

  lemma {:induction false} RespectfulConcat(db: Db, a: seq<Action>, b: seq<Action>)
    ensures RespectfulRun(db, a + b) <==> RespectfulRun(db, a) && RespectfulRun(Run(db, a), b)
    decreases |a|
  {
    if a == [] {
      assert a + b == b;
    } else {
      assert (a + b)[1..] == a[1..] + b;
      RespectfulConcat(Apply(db, a[0]), a[1..], b);
    }
  }

  /** With chatting users' steps left alone, every interleaving conserves every
      user's coins exactly. */
  lemma {:induction false} PoliteInterleavingsConserve(s: State, events: seq<Event>, u: UserId)
    requires SafeState(s) && BothMatched(s) && CanRun(s, events) && PoliteRun(s, events)
    ensures RespectfulRun(s.db, Effects(s, events))
    ensures Account(Final(s, events).db, u) == Account(s.db, u)
    decreases |events|
  {
    if events != [] {
      var next := Fire(s, events[0]);
      FireKeepsSafe(s, events[0]);
      PoliteFireIsRespectful(s, events[0]);
      PoliteInterleavingsConserve(next, events[1..], u);
      RespectfulConcat(s.db, Effect(s, events[0]), Effects(next, events[1..]));
    }
    InterleavingRefinesAtomicRun(s, events);
    RunConservesExactly(s.db, Effects(s, events), u);
  }
}
