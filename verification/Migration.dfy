/** The batch return of helpers' users to the main bot (internal/fleet/manager.go). */
module Migration {
  import opened Routing
  import Resolver

  /** The chat filter's answer for one user; after an error the user is left alone. */
  datatype ChatCheck = Free | InChat | CheckFailed

  /** The users a migration has to move: free users of one of the helpers. */
  ghost predicate Moves(t: Table, helpers: set<BotId>, check: UserId -> ChatCheck, u: UserId) {
    Lookup(t, u) in helpers && check(u) == Free
  }

  /** Exactly the users of `moved` are at `main` now; the others are where they were. */
  ghost predicate Rerouted(t0: Table, t: Table, moved: set<UserId>, main: BotId) {
    forall u :: Lookup(t, u) == if u in moved then main else Lookup(t0, u)
  }

  ghost predicate Reassigned(durable0: map<UserId, BotId>, durable: map<UserId, BotId>,
                             moved: set<UserId>, main: BotId)
  {
    && durable.Keys == durable0.Keys
    && forall u | u in durable :: durable[u] == if u in moved then main else durable0[u]
  }

  /** The stores after exactly the users of `moved` went to `main`, each with one
      durable write and, if notices are on, one notice. */
  ghost predicate MovedExactly(t0: Table, durable0: map<UserId, BotId>, t: Table, durable: map<UserId, BotId>,
                               writes: multiset<UserId>, notices: multiset<UserId>,
                               moved: set<UserId>, main: BotId, notify: bool)
  {
    && Rerouted(t0, t, moved, main)
    && Reassigned(durable0, durable, moved, main)
    && writes == multiset(moved)
    && notices == if notify then multiset(moved) else multiset{}
  }

  lemma RerouteOne(t0: Table, t: Table, t': Table, moved: set<UserId>, main: BotId, u: UserId)
    requires Rerouted(t0, t, moved, main)
    requires forall w :: Lookup(t', w) == if w == u then main else Lookup(t, w)
    ensures Rerouted(t0, t', moved + {u}, main)
  {}

  lemma ReassignOne(durable0: map<UserId, BotId>, durable: map<UserId, BotId>,
                    moved: set<UserId>, main: BotId, u: UserId)
    requires Reassigned(durable0, durable, moved, main)
    ensures Reassigned(durable0, Resolver.Assign(durable, u, main), moved + {u}, main)
  {}

  lemma MoveOne(t0: Table, durable0: map<UserId, BotId>, t: Table, t': Table, durable: map<UserId, BotId>,
                writes: multiset<UserId>, notices: multiset<UserId>,
                moved: set<UserId>, main: BotId, notify: bool, u: UserId)
    requires MovedExactly(t0, durable0, t, durable, writes, notices, moved, main, notify)
    requires u !in moved
    requires forall w :: Lookup(t', w) == if w == u then main else Lookup(t, w)
    ensures MovedExactly(t0, durable0, t', Resolver.Assign(durable, u, main),
                         writes + multiset{u}, if notify then notices + multiset{u} else notices,
                         moved + {u}, main, notify)
  {
    RerouteOne(t0, t, t', moved, main, u);
    ReassignOne(durable0, durable, moved, main, u);
    assert multiset(moved + {u}) == multiset(moved) + multiset{u};
  }

  class Manager {
    const redis: RoutingTable
    var durable: map<UserId, BotId>

    constructor (redis: RoutingTable, durable: map<UserId, BotId>)
      ensures this.redis == redis && this.durable == durable
    {
      this.redis, this.durable := redis, durable;
    }

    method DurableAssign(u: UserId, b: BotId)
      modifies this
      ensures durable == Resolver.Assign(old(durable), u, b)
    {
      if u in durable {
        durable := durable[u := b];
      }
    }

    /** migrateHelpersToMain.  `writes` and `notices` are the durable writes and
        the messages it makes.  Afterwards no free user is routed to a helper;
        users in a chat, users whose check failed and users of other bots stay. */
    method MigrateHelpersToMain(helpers: set<BotId>, main: BotId, check: UserId -> ChatCheck, notify: bool)
      returns (writes: multiset<UserId>, notices: multiset<UserId>)
      requires ReverseAgrees(redis.View()) && WellSharded(redis.View())
      requires main !in helpers && "" !in helpers
      modifies this, redis
      ensures ReverseAgrees(redis.View()) && WellSharded(redis.View())
      ensures forall u | check(u) == Free :: Lookup(redis.View(), u) !in helpers
      ensures exists moved: set<UserId> ::
                && (forall u :: u in moved <==> Moves(old(redis.View()), helpers, check, u))
                && MovedExactly(old(redis.View()), old(durable), redis.View(), durable,
                                writes, notices, moved, main, notify)
    {
      ghost var t0, durable0 := redis.View(), durable;
      ghost var moved: set<UserId> := {};
      writes, notices := multiset{}, multiset{};
      var todo := helpers;
      while todo != {}
        invariant todo <= helpers
        invariant ReverseAgrees(redis.View()) && WellSharded(redis.View())
        invariant forall u :: u in moved <==> Moves(t0, helpers - todo, check, u)
        invariant MovedExactly(t0, durable0, redis.View(), durable, writes, notices, moved, main, notify)
        decreases todo
      {
        var helper :| helper in todo;
        todo := todo - {helper};
        var users := redis.UsersMappedTo(helper);
        assert forall u :: u in users <==> Lookup(t0, u) == helper by {
          assert forall u :: u in users <==> Lookup(redis.View(), u) == helper;
        }
        writes, notices, moved :=
          MigrateOne(users, helper, main, check, notify, writes, notices, t0, durable0, moved);
      }
    }

    /** The inner loop: the users found in one helper's reverse set. */
    method MigrateOne(found: set<UserId>, helper: BotId, main: BotId, check: UserId -> ChatCheck, notify: bool,
                      writesBefore: multiset<UserId>, noticesBefore: multiset<UserId>,
                      ghost t0: Table, ghost durable0: map<UserId, BotId>, ghost movedBefore: set<UserId>)
      returns (writes: multiset<UserId>, notices: multiset<UserId>, ghost moved: set<UserId>)
      requires ReverseAgrees(redis.View()) && WellSharded(redis.View()) && main != helper
      requires MovedExactly(t0, durable0, redis.View(), durable, writesBefore, noticesBefore, movedBefore, main, notify)
      requires found !! movedBefore && forall u | u in found :: Lookup(t0, u) == helper
      modifies this, redis
      ensures ReverseAgrees(redis.View()) && WellSharded(redis.View())
      ensures forall u :: u in moved <==> u in movedBefore || (u in found && check(u) == Free)
      ensures MovedExactly(t0, durable0, redis.View(), durable, writes, notices, moved, main, notify)
    {
      writes, notices, moved := writesBefore, noticesBefore, movedBefore;
      var users := found;
      while users != {}
        invariant users <= found && users !! moved
        invariant ReverseAgrees(redis.View()) && WellSharded(redis.View())
        invariant forall u :: u in moved <==> u in movedBefore || (u in found - users && check(u) == Free)
        invariant MovedExactly(t0, durable0, redis.View(), durable, writes, notices, moved, main, notify)
        decreases users
      {
        var u :| u in users;
        users := users - {u};
        if check(u) == Free {
          writes, notices := MoveUser(u, main, notify, writes, notices, t0, durable0, moved);
          moved := moved + {u};
        }
      }
    }

    /** One free user, found in a helper's reverse set. */
    method MoveUser(u: UserId, main: BotId, notify: bool,
                    writesBefore: multiset<UserId>, noticesBefore: multiset<UserId>,
                    ghost t0: Table, ghost durable0: map<UserId, BotId>, ghost moved: set<UserId>)
      returns (writes: multiset<UserId>, notices: multiset<UserId>)
      requires ReverseAgrees(redis.View()) && WellSharded(redis.View())
      requires MovedExactly(t0, durable0, redis.View(), durable, writesBefore, noticesBefore, moved, main, notify)
      requires u !in moved && Lookup(redis.View(), u) != main
      modifies this, redis
      ensures ReverseAgrees(redis.View()) && WellSharded(redis.View())
      ensures MovedExactly(t0, durable0, redis.View(), durable, writes, notices, moved + {u}, main, notify)
    {
      writes, notices := writesBefore, noticesBefore;
      RegisteredLookups(redis.View(), u, main);
      RegisterKeepsReverse(redis.View(), u, main);
      MoveOne(t0, durable0, redis.View(), Register(redis.View(), u, main).0, durable, writes, notices,
              moved, main, notify, u);
      var changed := redis.RegisterUserBot(u, main);
      if changed {
        DurableAssign(u, main);
        writes := writes + multiset{u};
      }
      if changed && notify {
        notices := notices + multiset{u};
      }
    }
  }
}
