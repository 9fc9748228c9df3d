/** Coin purchases: the payments table, its two ways to credit a user (the
    gateway of internal/payments/service.go and the card review of
    internal/bot/static.go and internal/bot/admin.go) and its expiry
    (internal/jobs/scheduler.go). */
module Payments {
  import opened Decimal
  import opened Options

  type UserId = string

  datatype Status = FirstLevel | MoveGateway | CardReceipt | CardReview | Success | Rejected | Expired

  datatype Payment = Payment(user: UserId, coins: int, amount: int, status: Status, credited: bool,
                             authority: Option<string>, ref: Option<string>, updatedAt: int)

  /** Payment number `row + 1` is `payments[row]`.  `credits` lists the rows whose
      coins were added to a balance, oldest first. */
  datatype Db = Db(payments: seq<Payment>, balances: map<UserId, int>, credits: seq<nat>)

  /** A payment as some handler read it. */
  datatype Copy = Copy(row: nat, payment: Payment)

  // ----- The handlers as functions of the tables -----

  predicate Open(status: Status) {
    status.FirstLevel? || status.MoveGateway?
  }

  predicate CardCanStart(status: Status) {
    Open(status) || status.CardReceipt?
  }

  /** buyCoin offers the user this payment again instead of inserting one. */
  predicate Reusable(p: Payment, user: UserId, coins: int, now: int) {
    p.user == user && p.coins == coins && now - p.updatedAt < 750 && Open(p.status)
  }

  predicate SomeReusable(payments: seq<Payment>, user: UserId, coins: int, now: int) {
    exists row | 0 <= row < |payments| :: Reusable(payments[row], user, coins, now)
  }

  function AddCoins(balances: map<UserId, int>, user: UserId, coins: int): map<UserId, int> {
    if user in balances then balances[user := balances[user] + coins] else balances
  }

  predicate Stale(p: Payment, now: int) {
    Open(p.status) && p.updatedAt + 900 < now
  }

  /** The UNIQUE columns: no other payment holds the value. */
  predicate AuthorityFree(payments: seq<Payment>, row: nat, authority: string) {
    forall other | 0 <= other < |payments| && other != row :: payments[other].authority != Some(authority)
  }

  predicate RefFree(payments: seq<Payment>, row: nat, ref: string) {
    forall other | 0 <= other < |payments| && other != row :: payments[other].ref != Some(ref)
  }

  function CardRef(row: nat): string {
    "card-" + Numeral(row + 1)
  }

  /** One committed statement or transaction.  Those with a copy belong to
      handlers that read the payment earlier and write it now. */
  datatype Action =
    | AddUser(user: UserId)
    | Adjust(user: UserId, delta: int)
    | Insert(user: UserId, coins: int, amount: int, now: int)
    | Request(copy: Copy, authority: string, now: int)
    | Succeed(copy: Copy, ref: string, now: int)
    | StartCard(copy: Copy, user: UserId, now: int)
    | SubmitReceipt(row: nat, user: UserId, now: int)
    | Approve(copy: Copy, now: int)
    | Reject(row: nat, now: int)
    | Edit(row: nat)
    | Expire(copy: Copy, now: int)

  /** Whether the statement of the action changes a row: its WHERE clause matches
      one and no UNIQUE column stands in the way.  The WHERE clauses of Request,
      StartCard and Expire do not look at the status. */
  predicate Matches(db: Db, a: Action) {
    match a
    case AddUser(u) => u !in db.balances
    case Adjust(u, _) => u in db.balances
    case Insert(_, _, _, _) => true
    case Request(copy, authority, _) => copy.row < |db.payments| && AuthorityFree(db.payments, copy.row, authority)
    case Succeed(copy, ref, _) =>
      copy.row < |db.payments| && db.payments[copy.row].status.MoveGateway? && RefFree(db.payments, copy.row, ref)
    case StartCard(copy, u, _) => copy.row < |db.payments| && db.payments[copy.row].user == u
    case SubmitReceipt(row, u, _) =>
      row < |db.payments| && db.payments[row].user == u && db.payments[row].status.CardReceipt?
    case Approve(copy, _) =>
      && copy.row < |db.payments| && db.payments[copy.row].status.CardReview? && !db.payments[copy.row].credited
      && RefFree(db.payments, copy.row, CardRef(copy.row))
    case Reject(row, _) => row < |db.payments| && db.payments[row].status.CardReview?
    case Edit(row) => row < |db.payments| && db.payments[row].status.Rejected?
    case Expire(copy, _) => copy.row < |db.payments|
  }

  function Update(db: Db, row: nat, status: Status, updatedAt: int): Db
    requires row < |db.payments|
  {
    db.(payments := db.payments[row := db.payments[row].(status := status, updatedAt := updatedAt)])
  }

  /** The crediting transactions: mark the payment, then add the coins that were read. */
  function Credit(db: Db, copy: Copy, ref: string, byCard: bool, now: int): Db
    requires copy.row < |db.payments|
  {
    var p := db.payments[copy.row];
    var paid := p.(status := Success, ref := Some(ref), credited := p.credited || byCard, updatedAt := now);
    Db(db.payments[copy.row := paid],
       AddCoins(db.balances, copy.payment.user, copy.payment.coins),
       db.credits + [copy.row])
  }

  function Apply(db: Db, a: Action): Db {
    if !Matches(db, a) then db else
    match a
    case AddUser(u) => db.(balances := db.balances[u := 0])
    case Adjust(u, delta) => db.(balances := AddCoins(db.balances, u, delta))
    case Insert(u, coins, amount, now) =>
      db.(payments := db.payments + [Payment(u, coins, amount, FirstLevel, false, None, None, now)])
    case Request(copy, authority, now) =>
      var p := db.payments[copy.row].(authority := Some(authority), status := MoveGateway, updatedAt := now);
      db.(payments := db.payments[copy.row := p])
    case Succeed(copy, ref, now) => Credit(db, copy, ref, false, now)
    case StartCard(copy, _, now) => Update(db, copy.row, CardReceipt, now)
    case SubmitReceipt(row, _, now) => Update(db, row, CardReview, now)
    case Approve(copy, now) => Credit(db, copy, CardRef(copy.row), true, now)
    case Reject(row, now) => Update(db, row, Rejected, now)
    case Edit(row) => Update(db, row, CardReview, db.payments[row].updatedAt)
    case Expire(copy, _) => Update(db, copy.row, Expired, db.payments[copy.row].updatedAt)
  }

  // ----- The service -----

  /** What the gateway answers to a verify call. */
  datatype Reply = Reply(accepted: bool, ref: string, amount: int)

  datatype Review = ApproveIt | RejectIt | EditIt

  class Service {
    var payments: seq<Payment>
    var balances: map<UserId, int>
    ghost var credits: seq<nat>

    ghost function View(): Db
      reads this
    {
      Db(payments, balances, credits)
    }

    constructor ()
      ensures View() == Db([], map[], [])
    {
      payments, balances, credits := [], map[], [];
    }

    /** The newest payment the user may go on with, or a new one. */
    method BuyCoin(user: UserId, coins: int, amount: int, now: int) returns (row: nat)
      modifies this
      ensures View() == if SomeReusable(old(payments), user, coins, now) then old(View())
                        else Apply(old(View()), Insert(user, coins, amount, now))
      ensures row < |payments| && Reusable(payments[row], user, coins, now)
      ensures forall later | row < later < |payments| :: !Reusable(payments[later], user, coins, now)
      // An open payment for the same coins touched less than 750 seconds ago is offered again.
      ensures row < |old(payments)| ==>
                && payments == old(payments) && balances == old(balances)
                && payments[row].user == user && payments[row].coins == coins
                && payments[row].status in {FirstLevel, MoveGateway} && now < payments[row].updatedAt + 750
      ensures row >= |old(payments)| ==>
                && row == |old(payments)| && balances == old(balances)
                && payments == old(payments) + [Payment(user, coins, amount, FirstLevel, false, None, None, now)]
                && forall k | 0 <= k < |old(payments)| ::
                     !(old(payments)[k].user == user && old(payments)[k].coins == coins
                       && old(payments)[k].status in {FirstLevel, MoveGateway}
                       && now < old(payments)[k].updatedAt + 750)
    {
      row := |payments|;
      while row > 0 && !Reusable(payments[row - 1], user, coins, now)
        invariant 0 <= row <= |payments|
        invariant forall later | row <= later < |payments| :: !Reusable(payments[later], user, coins, now)
      {
        row := row - 1;
      }
      if row > 0 {
        row := row - 1;
      } else {
        row := |payments|;
        payments := payments + [Payment(user, coins, amount, FirstLevel, false, None, None, now)];
      }
    }

    /** The SELECT of a gateway request, before the gateway is called. */
    method LoadOpen(row: nat) returns (copy: Option<Copy>)
      ensures copy == if row < |payments| && payments[row].status in {FirstLevel, MoveGateway}
                      then Some(Copy(row, payments[row])) else None
    {
      if row >= |payments| || !Open(payments[row].status) {
        return None;
      }
      return Some(Copy(row, payments[row]));
    }

    /** The UPDATE after the gateway accepted the request and named it `authority`. */
    method StoreAuthority(copy: Copy, authority: string, now: int)
      modifies this
      ensures View() == Apply(old(View()), Request(copy, authority, now))
      ensures balances == old(balances) && |payments| == |old(payments)|
      ensures forall k | 0 <= k < |payments| ::
                var p := old(payments)[k];
                payments[k] == if k == copy.row && (forall j | 0 <= j < |payments| && j != k ::
                                                      old(payments)[j].authority != Some(authority))
                               then p.(authority := Some(authority), status := MoveGateway, updatedAt := now) else p
    {
      if copy.row >= |payments| || !AuthorityFree(payments, copy.row, authority) {
        return;
      }
      var p := payments[copy.row];
      payments := payments[copy.row := p.(authority := Some(authority), status := MoveGateway, updatedAt := now)];
    }

    /** A gateway request that nobody interrupts. */
    method GatewayRequest(row: nat, authority: string, now: int)
      modifies this
      ensures View() == if row < |old(payments)| && Open(old(payments)[row].status)
                        then Apply(old(View()), Request(Copy(row, old(payments)[row]), authority, now)) else old(View())
    {
      var copy := LoadOpen(row);
      if copy.Some? {
        StoreAuthority(copy.value, authority, now);
      }
    }

    method PaymentByAuthority(authority: string) returns (found: Option<nat>)
      ensures found.Some? ==> found.value < |payments| && payments[found.value].status.MoveGateway?
                              && payments[found.value].authority == Some(authority)
      ensures found.None? ==> forall row | 0 <= row < |payments| ::
                  !(payments[row].status.MoveGateway? && payments[row].authority == Some(authority))
    {
      for row := 0 to |payments|
        invariant forall k | 0 <= k < row ::
                    !(payments[k].status.MoveGateway? && payments[k].authority == Some(authority))
      {
        if payments[row].status.MoveGateway? && payments[row].authority == Some(authority) {
          return Some(row);
        }
      }
      return None;
    }

    /** The transaction `success`. */
    method MarkPaid(copy: Copy, ref: string, now: int)
      modifies this
      ensures View() == Apply(old(View()), Succeed(copy, ref, now))
      ensures copy.row < |old(payments)| && old(payments)[copy.row].status == MoveGateway
              && (forall k | 0 <= k < |old(payments)| && k != copy.row :: old(payments)[k].ref != Some(ref)) ==>
                && payments == old(payments)[copy.row := old(payments)[copy.row].(ref := Some(ref), status := Success,
                                                                                 updatedAt := now)]
                && balances.Keys == old(balances).Keys
                && forall u | u in balances ::
                     balances[u] == old(balances)[u] + if u == copy.payment.user then copy.payment.coins else 0
      ensures !(copy.row < |old(payments)| && old(payments)[copy.row].status == MoveGateway
                && (forall k | 0 <= k < |old(payments)| && k != copy.row :: old(payments)[k].ref != Some(ref))) ==>
                payments == old(payments) && balances == old(balances)
    {
      if copy.row >= |payments| || !payments[copy.row].status.MoveGateway? || !RefFree(payments, copy.row, ref) {
        return;
      }
      payments := payments[copy.row := payments[copy.row].(ref := Some(ref), status := Success, updatedAt := now)];
      balances := AddCoins(balances, copy.payment.user, copy.payment.coins);
      credits := credits + [copy.row];
    }

    /** The browser returns from the gateway; `reply` is the answer to the verify call. */
    method Verify(authority: string, reply: Reply, now: int) returns (row: Option<nat>)
      requires UniqueColumns(payments)
      modifies this
      ensures row.None? ==>
                && View() == old(View())
                && forall k | 0 <= k < |payments| && payments[k].status.MoveGateway? ::
                     !(payments[k].authority == Some(authority)
                       && reply.accepted && reply.amount == payments[k].amount * 10)
      ensures row.Some? ==>
                && row.value < |old(payments)|
                && var p := old(payments)[row.value];
                   p.authority == Some(authority) && p.status.MoveGateway?
                   && reply.accepted && reply.amount == p.amount * 10
                   && View() == Apply(old(View()), Succeed(Copy(row.value, p), reply.ref, now))
    {
      row := PaymentByAuthority(authority);
      if row.None? || !reply.accepted || reply.amount != payments[row.value].amount * 10 {
        return None;
      }
      MarkPaid(Copy(row.value, payments[row.value]), reply.ref, now);
    }

    /** The SELECT of startCardPayment and its check. */
    method LoadForCard(configured: bool, row: nat, user: UserId) returns (copy: Option<Copy>)
      ensures copy == if configured && row < |payments| && payments[row].user == user
                         && payments[row].status in {FirstLevel, MoveGateway, CardReceipt}
                      then Some(Copy(row, payments[row])) else None
    {
      if !configured || row >= |payments| || payments[row].user != user {
        return None;
      }
      var status := payments[row].status;
      if status != FirstLevel && status != MoveGateway && status != CardReceipt {
        return None;
      }
      return Some(Copy(row, payments[row]));
    }

    /** The UPDATE of startCardPayment. */
    method StoreCardReceipt(copy: Copy, user: UserId, now: int)
      modifies this
      ensures View() == Apply(old(View()), StartCard(copy, user, now))
      ensures balances == old(balances)
      ensures |payments| == |old(payments)| && forall k | 0 <= k < |payments| ::
                var p := old(payments)[k];
                payments[k] == if k == copy.row && p.user == user
                               then p.(status := CardReceipt, updatedAt := now) else p
    {
      if copy.row < |payments| && payments[copy.row].user == user {
        payments := payments[copy.row := payments[copy.row].(status := CardReceipt, updatedAt := now)];
      }
    }

    /** A card payment started without interruption. */
    method StartCardPayment(configured: bool, row: nat, user: UserId, now: int)
      modifies this
      ensures View() == if configured && row < |old(payments)| && old(payments)[row].user == user
                           && CardCanStart(old(payments)[row].status)
                        then Apply(old(View()), StartCard(Copy(row, old(payments)[row]), user, now)) else old(View())
    {
      var copy := LoadForCard(configured, row, user);
      if copy.Some? {
        StoreCardReceipt(copy.value, user, now);
      }
    }

    method SubmitCardReceipt(row: nat, user: UserId, now: int) returns (ok: bool)
      modifies this
      ensures ok == Matches(old(View()), SubmitReceipt(row, user, now))
      ensures View() == Apply(old(View()), SubmitReceipt(row, user, now))
      ensures ok <==> row < |old(payments)| && old(payments)[row].user == user
                      && old(payments)[row].status == CardReceipt
      ensures balances == old(balances)
      ensures payments == if ok then old(payments)[row := old(payments)[row].(status := CardReview, updatedAt := now)]
                          else old(payments)
    {
      if row >= |payments| || payments[row].user != user || payments[row].status != CardReceipt {
        return false;
      }
      payments := payments[row := payments[row].(status := CardReview, updatedAt := now)];
      return true;
    }

    method AdminReviewCardReceipt(row: nat, review: Review, now: int) returns (ok: bool)
      modifies this
      ensures row >= |old(payments)| ==> !ok && View() == old(View())
      ensures row < |old(payments)| ==>
                var a := match review
                  case ApproveIt => Approve(Copy(row, old(payments)[row]), now)
                  case RejectIt => Reject(row, now)
                  case EditIt => Edit(row);
                ok == Matches(old(View()), a) && View() == Apply(old(View()), a)
      ensures !ok ==> payments == old(payments) && balances == old(balances)
      ensures ok && review.EditIt? ==>
                && old(payments)[row].status == Rejected && balances == old(balances)
                && payments == old(payments)[row := old(payments)[row].(status := CardReview)]
      ensures ok && review.RejectIt? ==>
                && old(payments)[row].status == CardReview && balances == old(balances)
                && payments == old(payments)[row := old(payments)[row].(status := Rejected, updatedAt := now)]
      ensures ok && review.ApproveIt? ==>
                var p := old(payments)[row];
                && p.status == CardReview && !p.credited
                && payments == old(payments)[row := p.(status := Success, ref := Some("card-" + Numeral(row + 1)),
                                                       credited := true, updatedAt := now)]
                && balances.Keys == old(balances).Keys
                && forall u | u in balances :: balances[u] == old(balances)[u] + if u == p.user then p.coins else 0
    {
      if row >= |payments| {
        return false;
      }
      var p := payments[row];
      if review.EditIt? {
        if p.status != Rejected {
          return false;
        }
        payments := payments[row := p.(status := CardReview)];
        return true;
      }
      if p.status != CardReview && p.status != Success && p.status != Rejected {
        return false;
      }
      if review.RejectIt? {
        if p.status != CardReview {
          return false;
        }
        payments := payments[row := p.(status := Rejected, updatedAt := now)];
        return true;
      }
      if p.credited || p.status != CardReview || !RefFree(payments, row, CardRef(row)) {
        return false;
      }
      payments := payments[row := p.(status := Success, ref := Some(CardRef(row)), updatedAt := now, credited := true)];
      balances := AddCoins(balances, p.user, p.coins);
      credits := credits + [row];
      return true;
    }

    /** The SELECT of at most fifty stale payments. */
    method SelectStale(now: int) returns (items: seq<Copy>)
      ensures |items| <= 50 && Increasing(items)
      ensures forall i | 0 <= i < |items| :: AsRead(payments, items[i]) && Stale(items[i].payment, now)
      ensures |items| < 50 ==>
                forall row | 0 <= row < |payments| && Stale(payments[row], now) :: Copy(row, payments[row]) in items
      // Stale is an open payment that nobody has touched for more than 900 seconds.
      ensures forall i | 0 <= i < |items| ::
                items[i].payment.status in {FirstLevel, MoveGateway} && items[i].payment.updatedAt + 900 < now
      ensures |items| < 50 ==>
                forall row | 0 <= row < |payments| && payments[row].status in {FirstLevel, MoveGateway}
                             && payments[row].updatedAt + 900 < now :: Copy(row, payments[row]) in items
    {
      items := [];
      var row := 0;
      while row < |payments| && |items| < 50
        invariant 0 <= row <= |payments| && |items| <= 50 && Increasing(items)
        invariant forall i | 0 <= i < |items| ::
                    items[i].row < row && AsRead(payments, items[i]) && Stale(items[i].payment, now)
        invariant forall k | 0 <= k < row && Stale(payments[k], now) :: Copy(k, payments[k]) in items
      {
        if Open(payments[row].status) && payments[row].updatedAt + 900 < now {
          items := items + [Copy(row, payments[row])];
        }
        row := row + 1;
      }
    }

    /** The UPDATE that expires one selected payment. */
    method StoreExpired(copy: Copy, now: int)
      modifies this
      ensures View() == Apply(old(View()), Expire(copy, now))
      ensures balances == old(balances)
      ensures payments == if copy.row < |old(payments)|
                          then old(payments)[copy.row := old(payments)[copy.row].(status := Expired)] else old(payments)
    {
      if copy.row < |payments| {
        payments := payments[copy.row := payments[copy.row].(status := Expired)];
      }
    }

    /** Selects, then writes the selected payments one by one, uninterrupted. */
    method ExpirePayments(now: int) returns (items: seq<Copy>)
      modifies this
      ensures |items| <= 50
      ensures |items| < 50 ==> forall row | 0 <= row < |payments| :: !Stale(payments[row], now)
      ensures forall i | 0 <= i < |items| :: AsRead(old(payments), items[i]) && Stale(items[i].payment, now)
      ensures View() == ApplyAll(old(View()), Expirations(items, now))
    {
      items := SelectStale(now);
      var i := 0;
      while i < |items|
        invariant 0 <= i <= |items|
        invariant ApplyAll(old(View()), Expirations(items, now)) == ApplyAll(View(), Expirations(items[i..], now))
      {
        assert items[i..][1..] == items[i + 1..];
        StoreExpired(items[i], now);
        i := i + 1;
      }
      forall row | 0 <= row < |payments| && |items| < 50
        ensures !Stale(payments[row], now)
      {
        ExpiredRow(old(View()), items, now, row);
      }
    }
  }

  /** Expiring a list of payments touches exactly the rows listed. */
  lemma {:induction false} ExpiredRow(db: Db, items: seq<Copy>, now: int, row: nat)
    ensures var after := ApplyAll(db, Expirations(items, now)).payments;
            && |after| == |db.payments|
            && (row < |after| ==>
                  after[row] == if exists i | 0 <= i < |items| :: items[i].row == row
                                then db.payments[row].(status := Expired) else db.payments[row])
    decreases |items|
  {
    if items != [] {
      ExpiredRow(Apply(db, Expire(items[0], now)), items[1..], now, row);
      assert items == [items[0]] + items[1..];
      assert Expirations(items, now)[1..] == Expirations(items[1..], now);
    }
  }

  /** The copy is the row as it stands. */
  predicate AsRead(payments: seq<Payment>, copy: Copy) {
    copy.row < |payments| && copy.payment == payments[copy.row]
  }

  ghost predicate Increasing(items: seq<Copy>) {
    forall i, j | 0 <= i < j < |items| :: items[i].row < items[j].row
  }

  function Expirations(items: seq<Copy>, now: int): seq<Action> {
    if items == [] then [] else [Expire(items[0], now)] + Expirations(items[1..], now)
  }

  function ApplyAll(db: Db, actions: seq<Action>): Db
    decreases |actions|
  {
    if actions == [] then db else ApplyAll(Apply(db, actions[0]), actions[1..])
  }

  // ----- Runs with stale reads -----

  /** The tables and everything handlers have read so far. */
  datatype World = World(db: Db, copies: set<Copy>)

  datatype Event = Read(row: nat) | Act(action: Action)

  /** A payment belongs to an existing user.  A handler acts on a copy that was
      read at any earlier time and passed the handler's check then. */
  predicate CanFire(w: World, e: Event) {
    match e
    case Read(row) => row < |w.db.payments|
    case Act(Insert(u, _, _, _)) => u in w.db.balances
    case Act(Adjust(u, _)) => u in w.db.balances
    case Act(Request(copy, _, _)) => copy in w.copies && Open(copy.payment.status)
    case Act(Succeed(copy, _, _)) => copy in w.copies && copy.payment.status.MoveGateway?
    case Act(StartCard(copy, u, _)) =>
      copy in w.copies && copy.payment.user == u && CardCanStart(copy.payment.status)
    case Act(Approve(copy, _)) =>
      copy in w.copies && copy.payment.status in {CardReview, Success, Rejected}
    case Act(Expire(copy, now)) => copy in w.copies && Stale(copy.payment, now)
    case _ => true
  }

  function Fire(w: World, e: Event): World
    requires CanFire(w, e)
  {
    match e
    case Read(row) => w.(copies := w.copies + {Copy(row, w.db.payments[row])})
    case Act(a) => w.(db := Apply(w.db, a))
  }

  predicate CanRun(w: World, events: seq<Event>)
    decreases |events|
  {
    events == [] || (CanFire(w, events[0]) && CanRun(Fire(w, events[0]), events[1..]))
  }

  function Run(w: World, events: seq<Event>): World
    requires CanRun(w, events)
    decreases |events|
  {
    if events == [] then w else Run(Fire(w, events[0]), events[1..])
  }

  // ----- Credited once -----

  /** How often the coins of a payment were added. */
  function Count(credits: seq<nat>, row: nat): nat {
    multiset(credits)[row]
  }

  /** A payment's coins were added once if its status is 'success', and never otherwise. */
  ghost predicate CreditedOnce(db: Db) {
    forall row: nat ::
      Count(db.credits, row) == if row < |db.payments| && db.payments[row].status.Success? then 1 else 0
  }

  /** A write without a status guard finds that its payment has become successful
      since the handler looked. */
  predicate HitsSuccess(db: Db, e: Event) {
    && e.Act? && (e.action.Request? || e.action.StartCard? || e.action.Expire?)
    && Matches(db, e.action) && db.payments[e.action.copy.row].status.Success?
  }

  predicate NeverHits(w: World, events: seq<Event>)
    requires CanRun(w, events)
    decreases |events|
  {
    events == [] || (!HitsSuccess(w.db, events[0]) && NeverHits(Fire(w, events[0]), events[1..]))
  }

  /** The UNIQUE columns are unique. */
  ghost predicate UniqueColumns(payments: seq<Payment>) {
    forall i, j | 0 <= i < |payments| && 0 <= j < |payments| && i != j ::
      && (payments[i].authority.Some? ==> payments[i].authority != payments[j].authority)
      && (payments[i].ref.Some? ==> payments[i].ref != payments[j].ref)
  }

  ghost predicate Sane(db: Db) {
    && UniqueColumns(db.payments)
    && forall row | 0 <= row < |db.payments| ::
         && db.payments[row].user in db.balances
         && (db.payments[row].credited ==> db.payments[row].status.Success?)
         && (db.payments[row].status.Success? ==> db.payments[row].ref.Some?)
  }

  /** What was read of a payment's owner and coins stays true. */
  ghost predicate Truthful(w: World) {
    forall copy | copy in w.copies ::
      && copy.row < |w.db.payments|
      && copy.payment.user == w.db.payments[copy.row].user
      && copy.payment.coins == w.db.payments[copy.row].coins
  }

  ghost predicate Inv(w: World) {
    CreditedOnce(w.db) && Sane(w.db) && Truthful(w)
  }

  lemma CreditKeepsCreditedOnce(db: Db, copy: Copy, ref: string, byCard: bool, now: int)
    requires CreditedOnce(db) && copy.row < |db.payments| && !db.payments[copy.row].status.Success?
    ensures CreditedOnce(Credit(db, copy, ref, byCard, now))
  {
    var db' := Credit(db, copy, ref, byCard, now);
    forall row: nat
      ensures Count(db'.credits, row) == if row < |db'.payments| && db'.payments[row].status.Success? then 1 else 0
    {
      assert Count(db'.credits, row) == Count(db.credits, row) + if row == copy.row then 1 else 0;
    }
  }

  lemma ActKeepsCreditedOnce(db: Db, a: Action)
    requires CreditedOnce(db) && (a.Approve? || a.Succeed?) && Matches(db, a)
    ensures CreditedOnce(Apply(db, a))
  {
    match a
    case Succeed(copy, ref, now) => CreditKeepsCreditedOnce(db, copy, ref, false, now);
    case Approve(copy, now) => CreditKeepsCreditedOnce(db, copy, CardRef(copy.row), true, now);
  }

  /** The other statements make no payment successful and add no coins. */
  lemma OthersKeepCreditedOnce(db: Db, a: Action)
    requires CreditedOnce(db) && !a.Approve? && !a.Succeed? && !HitsSuccess(db, Act(a))
    ensures CreditedOnce(Apply(db, a))
  {
    var db' := Apply(db, a);
    forall row: nat
      ensures Count(db'.credits, row) == if row < |db'.payments| && db'.payments[row].status.Success? then 1 else 0
    {
      assert Count(db.credits, row) == if row < |db.payments| && db.payments[row].status.Success? then 1 else 0;
    }
  }

  /** Once a write has hit a successful payment, its coins are in the balance but
      its status no longer says so. */
  lemma HitBreaksTheBooks(db: Db, a: Action)
    requires CreditedOnce(db) && HitsSuccess(db, Act(a))
    ensures !CreditedOnce(Apply(db, a))
  {
    assert Count(db.credits, a.copy.row) == 1;
    assert Count(Apply(db, a).credits, a.copy.row) == 1;
  }

  /** A statement keeps the books exactly when it is not an unguarded write over
      a successful payment. */
  lemma StatementKeepsBooksExactlyWhen(db: Db, a: Action)
    requires CreditedOnce(db)
    ensures CreditedOnce(Apply(db, a)) <==> !HitsSuccess(db, Act(a))
  {
    if HitsSuccess(db, Act(a)) {
      HitBreaksTheBooks(db, a);
    } else if a.Approve? || a.Succeed? {
      if Matches(db, a) { ActKeepsCreditedOnce(db, a); }
    } else {
      OthersKeepCreditedOnce(db, a);
    }
  }

  lemma ActKeepsUnique(db: Db, a: Action)
    requires UniqueColumns(db.payments)
    ensures UniqueColumns(Apply(db, a).payments)
  {}

  lemma ActKeepsSane(db: Db, a: Action)
    requires Sane(db) && (a.Insert? ==> a.user in db.balances) && !HitsSuccess(db, Act(a))
    ensures Sane(Apply(db, a))
  {
    ActKeepsUnique(db, a);
  }

  lemma FireKeepsTruthful(w: World, e: Event)
    requires Truthful(w) && CanFire(w, e)
    ensures Truthful(Fire(w, e))
  {}

  lemma FireKeepsInv(w: World, e: Event)
    requires Inv(w) && CanFire(w, e) && !HitsSuccess(w.db, e)
    ensures Inv(Fire(w, e))
  {
    FireKeepsTruthful(w, e);
    if e.Act? && Matches(w.db, e.action) {
      ActKeepsSane(w.db, e.action);
      StatementKeepsBooksExactlyWhen(w.db, e.action);
    }
  }

  /** In every run in which no unguarded write hits a successful payment, each
      payment is credited at most once, and exactly when its status is 'success',
      however stale the copies are that the handlers act on. */
  lemma {:induction false} RunKeepsInv(w: World, events: seq<Event>)
    requires Inv(w) && CanRun(w, events) && NeverHits(w, events)
    ensures Inv(Run(w, events))
    decreases |events|
  {
    if events != [] {
      FireKeepsInv(w, events[0]);
      RunKeepsInv(Fire(w, events[0]), events[1..]);
    }
  }

  /** The books are right at every moment of the run. */
  ghost predicate BooksKept(w: World, events: seq<Event>)
    requires CanRun(w, events)
    decreases |events|
  {
    CreditedOnce(w.db) && (events == [] || BooksKept(Fire(w, events[0]), events[1..]))
  }

  /** The books stay right throughout exactly those runs in which every unguarded
      write finds a payment that is not successful. */
  lemma {:induction false} BooksKeptExactlyWhen(w: World, events: seq<Event>)
    requires Inv(w) && CanRun(w, events)
    ensures BooksKept(w, events) <==> NeverHits(w, events)
    decreases |events|
  {
    if events != [] {
      if HitsSuccess(w.db, events[0]) {
        StatementKeepsBooksExactlyWhen(w.db, events[0].action);
      } else {
        FireKeepsInv(w, events[0]);
        BooksKeptExactlyWhen(Fire(w, events[0]), events[1..]);
      }
    }
  }

  lemma TwoEvents(w: World, a: Event, b: Event, rest: seq<Event>)
    requires CanFire(w, a) && CanFire(Fire(w, a), b) && CanRun(Fire(Fire(w, a), b), rest)
    ensures CanRun(w, [a, b] + rest) && Run(w, [a, b] + rest) == Run(Fire(Fire(w, a), b), rest)
    ensures NeverHits(w, [a, b] + rest) ==> NeverHits(Fire(Fire(w, a), b), rest)
  {
    assert ([a, b] + rest)[1..] == [b] + rest;
    assert ([b] + rest)[1..] == rest;
    assert NeverHits(w, [a, b] + rest) ==> NeverHits(Fire(w, a), [b] + rest);
  }

  const PAYING := Payment("7", 10, 50, MoveGateway, false, Some("a"), None, 0)
  const PAID := PAYING.(status := Success, ref := Some("r"), updatedAt := 1)
  const REVIEWED := PAID.(status := CardReview, updatedAt := 3)
  const AT_GATEWAY := World(Db([PAYING], map["7" := 0], []), {})

  const CREDIT := [Read(0), Act(Succeed(Copy(0, PAYING), "r", 1))]
  const REOPEN := [Act(StartCard(Copy(0, PAYING), "7", 2)), Act(SubmitReceipt(0, "7", 3))]
  const CREDIT_AGAIN := [Read(0), Act(Approve(Copy(0, REVIEWED), 4))]

  const CREDITED := World(Db([PAID], map["7" := 10], [0]), {Copy(0, PAYING)})
  const REOPENED := CREDITED.(db := CREDITED.db.(payments := [REVIEWED]))

  lemma FirstCredit()
    ensures CanFire(AT_GATEWAY, CREDIT[0]) && CanFire(Fire(AT_GATEWAY, CREDIT[0]), CREDIT[1])
    ensures Fire(Fire(AT_GATEWAY, CREDIT[0]), CREDIT[1]) == CREDITED
  {
    assert Fire(AT_GATEWAY, CREDIT[0]) == AT_GATEWAY.(copies := {Copy(0, PAYING)});
    assert AddCoins(AT_GATEWAY.db.balances, "7", 10) == map["7" := 10];
  }

  lemma Reopening()
    ensures CanFire(CREDITED, REOPEN[0]) && CanFire(Fire(CREDITED, REOPEN[0]), REOPEN[1])
    ensures Fire(Fire(CREDITED, REOPEN[0]), REOPEN[1]) == REOPENED
    ensures HitsSuccess(CREDITED.db, REOPEN[0])
  {
    var reopened := Fire(CREDITED, REOPEN[0]);
    assert reopened.db.payments == [PAID.(status := CardReceipt, updatedAt := 2)];
    assert Fire(reopened, REOPEN[1]).db.payments == [REVIEWED];
  }

  lemma SecondCredit()
    ensures CanFire(REOPENED, CREDIT_AGAIN[0]) && CanFire(Fire(REOPENED, CREDIT_AGAIN[0]), CREDIT_AGAIN[1])
    ensures var w := Fire(Fire(REOPENED, CREDIT_AGAIN[0]), CREDIT_AGAIN[1]);
            w.db.credits == [0, 0] && Balance(w.db, "7") == 20
  {
    assert Fire(REOPENED, CREDIT_AGAIN[0]) == REOPENED.(copies := {Copy(0, PAYING), Copy(0, REVIEWED)});
  }

  /** What happens otherwise.  A card payment is started and, at the same time,
      paid at the gateway: both handlers have read 'move_gateway', the gateway's
      credit commits first, and the late card write reopens the payment.  The
      receipt is then reviewed and approved, and ten coins are credited twice. */
  lemma LateCardWriteCreditsTwice()
    ensures var events := CREDIT + (REOPEN + (CREDIT_AGAIN + []));
            && Inv(AT_GATEWAY) && CanRun(AT_GATEWAY, events) && !NeverHits(AT_GATEWAY, events)
            && Run(AT_GATEWAY, events).db.credits == [0, 0] && Balance(Run(AT_GATEWAY, events).db, "7") == 20
  {
    FirstCredit();
    Reopening();
    SecondCredit();
    TwoEvents(REOPENED, CREDIT_AGAIN[0], CREDIT_AGAIN[1], []);
    TwoEvents(CREDITED, REOPEN[0], REOPEN[1], CREDIT_AGAIN + []);
    TwoEvents(AT_GATEWAY, CREDIT[0], CREDIT[1], REOPEN + (CREDIT_AGAIN + []));
  }

  // ----- Statuses only move forward -----

  function Stage(status: Status): nat {
    match status
    case FirstLevel => 0
    case MoveGateway => 1
    case CardReceipt => 2
    case CardReview => 3
    case Rejected => 3
    case Success => 4
    case Expired => 4
  }

  predicate SamePrice(p: Payment, q: Payment) {
    q.user == p.user && q.coins == p.coins && q.amount == p.amount
  }

  /** The stage does not fall, and 'success' and 'expired' are final. */
  predicate Forward(p: Payment, q: Payment) {
    Stage(p.status) <= Stage(q.status) && (Stage(p.status) == 4 ==> q == p)
  }

  ghost predicate AllForward(before: seq<Payment>, after: seq<Payment>) {
    |before| <= |after| && forall row | 0 <= row < |before| :: Forward(before[row], after[row])
  }

  /** An unguarded write comes in time: it finds a payment its handler would still
      accept, or for an expiry at least one that is not successful. */
  predicate InTime(db: Db, e: Event) {
    e.Act? && Matches(db, e.action) ==>
      match e.action
      case Request(copy, _, _) => Open(db.payments[copy.row].status)
      case StartCard(copy, _, _) => CardCanStart(db.payments[copy.row].status)
      case Expire(copy, _) => !db.payments[copy.row].status.Success?
      case _ => true
  }

  /** A step moves every payment forward exactly when it is in time. */
  lemma ForwardExactlyWhen(w: World, e: Event)
    requires CanFire(w, e)
    ensures AllForward(w.db.payments, Fire(w, e).db.payments) <==> InTime(w.db, e)
  {
    if e.Act? && Matches(w.db, e.action) && !InTime(w.db, e) {
      var row := e.action.copy.row;
      assert !Forward(w.db.payments[row], Fire(w, e).db.payments[row]);
    }
  }

  /** The status changes a step in time can make. */
  lemma StatusSteps(w: World, e: Event, row: nat)
    requires CanFire(w, e) && InTime(w.db, e) && row < |w.db.payments|
    ensures row < |Fire(w, e).db.payments|
    ensures var p, q := w.db.payments[row].status, Fire(w, e).db.payments[row].status;
            p != q ==>
              || (p == FirstLevel && q in {MoveGateway, CardReceipt, Expired})
              || (p == MoveGateway && q in {CardReceipt, Success, Expired})
              || (p == CardReceipt && q in {CardReview, Expired})
              || (p == CardReview && q in {Success, Rejected, Expired})
              || (p == Rejected && q in {CardReview, Expired})
  {}

  predicate AlwaysInTime(w: World, events: seq<Event>)
    requires CanRun(w, events)
    decreases |events|
  {
    events == [] || (InTime(w.db, events[0]) && AlwaysInTime(Fire(w, events[0]), events[1..]))
  }

  /** A payment's owner and price never change, in any run. */
  lemma {:induction false} PriceIsFixed(w: World, events: seq<Event>, row: nat)
    requires CanRun(w, events) && row < |w.db.payments|
    ensures row < |Run(w, events).db.payments| && SamePrice(w.db.payments[row], Run(w, events).db.payments[row])
    decreases |events|
  {
    if events != [] {
      PriceIsFixed(Fire(w, events[0]), events[1..], row);
    }
  }

  /** When every unguarded write comes in time, no stage ever falls, and
      'success' and 'expired' are final. */
  lemma {:induction false} StagesNeverFall(w: World, events: seq<Event>, row: nat)
    requires CanRun(w, events) && AlwaysInTime(w, events) && row < |w.db.payments|
    ensures row < |Run(w, events).db.payments| && Forward(w.db.payments[row], Run(w, events).db.payments[row])
    decreases |events|
  {
    if events != [] {
      var next := Fire(w, events[0]);
      ForwardExactlyWhen(w, events[0]);
      assert Forward(w.db.payments[row], next.db.payments[row]);
      StagesNeverFall(next, events[1..], row);
    }
  }

  /** 'success' is never left, however late the writes, as long as none hits a
      successful payment. */
  lemma {:induction false} SuccessIsFinal(w: World, events: seq<Event>, row: nat)
    requires CanRun(w, events) && NeverHits(w, events)
    requires row < |w.db.payments| && w.db.payments[row].status.Success?
    ensures row < |Run(w, events).db.payments| && Run(w, events).db.payments[row] == w.db.payments[row]
    decreases |events|
  {
    if events != [] {
      assert Fire(w, events[0]).db.payments[row] == w.db.payments[row];
      SuccessIsFinal(Fire(w, events[0]), events[1..], row);
    }
  }

  /** A run credits exactly the payments that become successful in it. */
  lemma CreditedExactlyWhenItSucceeds(w: World, events: seq<Event>, row: nat)
    requires Inv(w) && CanRun(w, events) && NeverHits(w, events) && row < |w.db.payments|
    ensures row < |Run(w, events).db.payments|
    ensures var after := Run(w, events).db;
            Count(after.credits, row) - Count(w.db.credits, row)
            == if after.payments[row].status.Success? && !w.db.payments[row].status.Success? then 1 else 0
  {
    RunKeepsInv(w, events);
    PriceIsFixed(w, events, row);
    if w.db.payments[row].status.Success? { SuccessIsFinal(w, events, row); }
  }

  // ----- Balances -----

  function Worth(p: Payment, u: UserId): int {
    if p.user == u && p.status.Success? then p.coins else 0
  }

  /** The coins of the user's successful payments. */
  function Paid(payments: seq<Payment>, u: UserId): int {
    if payments == [] then 0 else Paid(payments[..|payments| - 1], u) + Worth(payments[|payments| - 1], u)
  }

  lemma PaidAppend(payments: seq<Payment>, p: Payment, u: UserId)
    ensures Paid(payments + [p], u) == Paid(payments, u) + Worth(p, u)
  {
    assert (payments + [p])[..|payments|] == payments;
  }

  lemma {:induction false} PaidUpdate(payments: seq<Payment>, row: nat, p: Payment, u: UserId)
    requires row < |payments|
    ensures Paid(payments[row := p], u) == Paid(payments, u) - Worth(payments[row], u) + Worth(p, u)
  {
    var last := |payments| - 1;
    if row == last {
      assert payments[row := p][..last] == payments[..last];
    } else {
      PaidUpdate(payments[..last], row, p, u);
      assert payments[row := p][..last] == payments[..last][row := p];
    }
  }

  function Balance(db: Db, u: UserId): int {
    if u in db.balances then db.balances[u] else 0
  }

  /** What the rest of the bot adds to or takes from the user's balance. */
  function Other(e: Event, u: UserId): int {
    if e.Act? && e.action.Adjust? && e.action.user == u then e.action.delta else 0
  }

  function Others(events: seq<Event>, u: UserId): int {
    if events == [] then 0 else Other(events[0], u) + Others(events[1..], u)
  }

  lemma CreditPays(db: Db, copy: Copy, ref: string, byCard: bool, now: int, u: UserId)
    requires Truthful(World(db, {copy})) && copy.row < |db.payments| && !db.payments[copy.row].status.Success?
    ensures var after := Credit(db, copy, ref, byCard, now);
            && Paid(after.payments, u)
               == Paid(db.payments, u) + (if copy.payment.user == u then copy.payment.coins else 0)
            && (Balance(after, u) - Balance(db, u) == Paid(after.payments, u) - Paid(db.payments, u)
                <==> (u == copy.payment.user ==> u in db.balances || copy.payment.coins == 0))
  {
    var after := Credit(db, copy, ref, byCard, now);
    assert copy in World(db, {copy}).copies;
    PaidUpdate(db.payments, copy.row, after.payments[copy.row], u);
  }

  lemma CreditingKeepsBalance(w: World, a: Action, u: UserId)
    requires Inv(w) && CanFire(w, Act(a)) && (a.Succeed? || a.Approve?) && Matches(w.db, a)
    ensures Balance(Apply(w.db, a), u) - Paid(Apply(w.db, a).payments, u) == Balance(w.db, u) - Paid(w.db.payments, u)
  {
    assert a.copy in w.copies && w.db.payments[a.copy.row].user in w.db.balances;
    match a
    case Succeed(copy, ref, now) => CreditPays(w.db, copy, ref, false, now, u);
    case Approve(copy, now) => CreditPays(w.db, copy, CardRef(copy.row), true, now, u);
  }

  /** Overwriting one unsuccessful payment by another changes nobody's coins. */
  lemma MovingKeepsPaid(payments: seq<Payment>, row: nat, p: Payment, u: UserId)
    requires row < |payments| && !payments[row].status.Success? && !p.status.Success?
    ensures Paid(payments[row := p], u) == Paid(payments, u)
  {
    PaidUpdate(payments, row, p, u);
  }

  /** The row a statement moves along, for those that only do that. */
  function MovedRow(a: Action): nat
    requires a.Request? || a.StartCard? || a.SubmitReceipt? || a.Reject? || a.Edit? || a.Expire?
  {
    if a.Request? || a.StartCard? || a.Expire? then a.copy.row else a.row
  }

  lemma MovingKeepsBalance(db: Db, a: Action, u: UserId)
    requires a.Request? || a.StartCard? || a.SubmitReceipt? || a.Reject? || a.Edit? || a.Expire?
    requires Matches(db, a) && !HitsSuccess(db, Act(a))
    ensures Balance(Apply(db, a), u) == Balance(db, u) && Paid(Apply(db, a).payments, u) == Paid(db.payments, u)
  {
    MovingKeepsPaid(db.payments, MovedRow(a), Apply(db, a).payments[MovedRow(a)], u);
  }

  lemma FireKeepsBalance(w: World, e: Event, u: UserId)
    requires Inv(w) && CanFire(w, e) && !HitsSuccess(w.db, e)
    ensures Balance(Fire(w, e).db, u) - Paid(Fire(w, e).db.payments, u)
            == Balance(w.db, u) - Paid(w.db.payments, u) + Other(e, u)
  {
    if e.Act? && Matches(w.db, e.action) {
      if e.action.Succeed? || e.action.Approve? {
        CreditingKeepsBalance(w, e.action, u);
      } else if e.action.Insert? {
        PaidAppend(w.db.payments, Apply(w.db, e.action).payments[|w.db.payments|], u);
      } else if !e.action.AddUser? && !e.action.Adjust? {
        MovingKeepsBalance(w.db, e.action, u);
      }
    }
  }

  /** Over every such run each balance changes by the coins of the user's payments
      that became successful, and by what the rest of the bot did to it. */
  lemma {:induction false} BalanceFollowsPayments(w: World, events: seq<Event>, u: UserId)
    requires Inv(w) && CanRun(w, events) && NeverHits(w, events)
    ensures Balance(Run(w, events).db, u) - Balance(w.db, u)
            == Paid(Run(w, events).db.payments, u) - Paid(w.db.payments, u) + Others(events, u)
    decreases |events|
  {
    if events != [] {
      FireKeepsInv(w, events[0]);
      FireKeepsBalance(w, events[0], u);
      BalanceFollowsPayments(Fire(w, events[0]), events[1..], u);
    }
  }

  const START := World(Db([], map[], []), {})

  /** From empty tables: every balance is the coins of the user's successful
      payments and what the rest of the bot did, and no payment was credited twice. */
  lemma BalanceIsWhatWasPaid(events: seq<Event>, u: UserId, row: nat)
    requires CanRun(START, events) && NeverHits(START, events)
    ensures var db := Run(START, events).db;
            Balance(db, u) == Paid(db.payments, u) + Others(events, u) && Count(db.credits, row) <= 1
  {
    BalanceFollowsPayments(START, events, u);
    RunKeepsInv(START, events);
  }
}
