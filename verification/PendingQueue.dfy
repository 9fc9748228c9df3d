/** The pending-delivery queue of one bot (internal/queue/redis.go) and the sweep
    that retries its stale messages (internal/fleet/manager.go). */
module PendingQueue {

  type UserId = string

  /** A queued message.  `id` stands for its opaque content and tells messages apart. */
  datatype Job = Job(id: nat, user: UserId, method_: string, enqueuedAt: int, attempts: nat)

  /** One list per user and the index of users that have one; a list that becomes empty is gone. */
  datatype Store = Store(lists: map<UserId, seq<Job>>, index: set<UserId>)

  function List(s: Store, u: UserId): seq<Job> {
    if u in s.lists then s.lists[u] else []
  }

  function Stamped(job: Job, now: int): Job {
    if job.enqueuedAt == 0 then job.(enqueuedAt := now) else job
  }

  /** PushPending and RepushPending: append, and index the user. */
  function Push(s: Store, u: UserId, job: Job): Store {
    Store(s.lists[u := List(s, u) + [job]], s.index + {u})
  }

  /** takePendingScript. */
  function Take(s: Store, u: UserId): Store {
    Store(s.lists - {u}, s.index - {u})
  }

  /** popOldestPendingScript: drops the head, and the index entry with the last job. */
  function Pop(s: Store, u: UserId): Store {
    if |List(s, u)| <= 1 then Take(s, u) else Store(s.lists[u := List(s, u)[1..]], s.index)
  }

  /** A user is indexed exactly when its list is non-empty, and every job sits in
      its own user's list. */
  ghost predicate StoreInv(s: Store) {
    && (forall u :: u in s.index <==> List(s, u) != [])
    && (forall u, i | 0 <= i < |List(s, u)| :: List(s, u)[i].user == u)
  }

  lemma StoreOperations(s: Store, u: UserId, job: Job)
    requires StoreInv(s)
    ensures job.user == u ==> StoreInv(Push(s, u, job))
    ensures StoreInv(Take(s, u)) && StoreInv(Pop(s, u))
    ensures List(Take(s, u), u) == []
    ensures List(Push(s, u, job), u) == List(s, u) + [job]
    ensures List(Pop(s, u), u) == if List(s, u) == [] then [] else List(s, u)[1..]
    ensures forall v | v != u ::
              List(Push(s, u, job), v) == List(Take(s, u), v) == List(Pop(s, u), v) == List(s, v)
  {}

  class Queue {
    var lists: map<UserId, seq<Job>>
    var index: set<UserId>

    ghost function View(): Store
      reads this
    {
      Store(lists, index)
    }

    constructor ()
      ensures View() == Store(map[], {})
    {
      lists, index := map[], {};
    }

    method PushPending(u: UserId, job: Job, now: int)
      modifies this
      ensures View() == Push(old(View()), u, Stamped(job, now))
      ensures List(View(), u) == List(old(View()), u) + [job.(enqueuedAt := if job.enqueuedAt == 0 then now
                                                                           else job.enqueuedAt)]
      ensures index == old(index) + {u} && forall v | v != u :: List(View(), v) == List(old(View()), v)
    {
      var list := if u in lists then lists[u] else [];
      lists := lists[u := list + [Stamped(job, now)]];
      index := index + {u};
    }

    /** Hands out every well-formed job of a user and empties the list. */
    method TakePending(u: UserId) returns (jobs: seq<Job>)
      modifies this
      ensures View() == Take(old(View()), u)
      ensures u !in lists && index == old(index) - {u} && forall v | v != u :: List(View(), v) == List(old(View()), v)
      ensures jobs == WithMethod(List(old(View()), u))
    {
      var items := if u in lists then lists[u] else [];
      lists := lists - {u};
      index := index - {u};
      jobs := WellFormed(items);
    }

    /** The decoding loop of TakePending. */
    method WellFormed(items: seq<Job>) returns (jobs: seq<Job>)
      ensures jobs == WithMethod(items)
    {
      jobs := [];
      var i := 0;
      while i < |items|
        invariant 0 <= i <= |items|
        invariant WithMethod(items) == jobs + WithMethod(items[i..])
      {
        NextWithMethod(items, i, jobs);
        if items[i].method_ != "" {
          jobs := jobs + [items[i]];
        }
        i := i + 1;
      }
    }

    /** Removes the oldest job; nothing is returned for an empty list or a job without a method. */
    method PopOldestPending(u: UserId) returns (found: bool, job: Job)
      modifies this
      ensures View() == Pop(old(View()), u)
      ensures List(View(), u) == if List(old(View()), u) == [] then [] else List(old(View()), u)[1..]
      ensures index == if |List(old(View()), u)| <= 1 then old(index) - {u} else old(index)
      ensures forall v | v != u :: List(View(), v) == List(old(View()), v)
      ensures var list := List(old(View()), u);
              found == (list != [] && list[0].method_ != "") && (found ==> job == list[0])
    {
      var list := if u in lists then lists[u] else [];
      if list == [] {
        index := index - {u};
        lists := lists - {u};
        return false, Job(0, "", "", 0, 0);
      }
      job := list[0];
      if |list| == 1 {
        lists := lists - {u};
        index := index - {u};
      } else {
        lists := lists[u := list[1..]];
      }
      found := job.method_ != "";
    }
  }

  function WithMethod(jobs: seq<Job>): seq<Job> {
    if jobs == [] then []
    else (if jobs[0].method_ == "" then [] else [jobs[0]]) + WithMethod(jobs[1..])
  }

  /** Exactly the jobs that name a method are handed out. */
  lemma {:induction false} WithMethodKeeps(jobs: seq<Job>, job: Job)
    ensures job in WithMethod(jobs) <==> job in jobs && job.method_ != ""
  {
    if jobs != [] {
      WithMethodKeeps(jobs[1..], job);
      assert jobs == [jobs[0]] + jobs[1..];
    }
  }

  lemma NextWithMethod(items: seq<Job>, i: nat, jobs: seq<Job>)
    requires i < |items|
    ensures jobs + WithMethod(items[i..])
         == (if items[i].method_ == "" then jobs else jobs + [items[i]]) + WithMethod(items[i + 1..])
  {
    assert items[i..][1..] == items[i + 1..];
  }

  // ----- Deciding about one message -----

  /** What the main bot answered: a response, or an error talking to it. */
  datatype Outcome = Reply(ok: bool, permanent: bool, needsStart: bool) | Failure

  predicate Accepts(o: Outcome) {
    o.Reply? && o.ok
  }

  /** An answer that no further try can change. */
  predicate Refuses(o: Outcome) {
    o.Reply? && !o.ok && (o.permanent || !o.needsStart)
  }

  /** A network error, or a user who has not started the bot yet. */
  predicate MayRetry(o: Outcome) {
    o.Failure? || (!o.ok && !o.permanent && o.needsStart)
  }

  datatype Verdict = Delivered | GivenUp | Retry

  /** The switch of fallbackDeliver, for a job already tried `attempts` times. */
  function Judge(o: Outcome, attempts: nat, cap: int): Verdict {
    match o
    case Reply(ok, permanent, needsStart) =>
      if ok then Delivered
      else if permanent then GivenUp
      else if needsStart && attempts + 1 < cap then Retry
      else GivenUp
    case Failure => if attempts + 1 >= cap then GivenUp else Retry
  }

  /** Tries a message may get: PendingAttempts, but never less than one. */
  function Allowance(cap: int): nat {
    if cap < 1 then 1 else cap
  }

  predicate Fresh(job: Job, now: int, fallbackAfter: int) {
    fallbackAfter > 0 && now - job.enqueuedAt < fallbackAfter
  }

  /** A job put back for another try: one attempt more and a new timestamp. */
  function Rearmed(job: Job, stamp: int): Job {
    job.(attempts := job.attempts + 1, enqueuedAt := stamp)
  }

  /** How many more tries the jobs of a list can still cause. */
  function Weight(jobs: seq<Job>, cap: int): nat {
    if jobs == [] then 0 else JobWeight(jobs[0], cap) + Weight(jobs[1..], cap)
  }

  function JobWeight(job: Job, cap: int): nat {
    if cap - job.attempts < 1 then 1 else cap - job.attempts
  }

  lemma {:induction false} WeightAppend(jobs: seq<Job>, job: Job, cap: int)
    ensures Weight(jobs + [job], cap) == Weight(jobs, cap) + JobWeight(job, cap)
  {
    if jobs == [] {
      assert [job][1..] == [];
    } else {
      WeightAppend(jobs[1..], job, cap);
      assert (jobs + [job])[1..] == jobs[1..] + [job];
    }
  }

  // ----- One sweep of one user -----

  /** What a sweep did with a user's messages, in order. */
  datatype Log = Log(delivered: seq<Job>, gaveUp: seq<Job>, calls: seq<Job>)

  const NO_LOG := Log([], [], [])

  /** The clock and deliverer of a sweep: `deliver(job, k)` is the answer to the
      k-th call made for the job's user, `clock(user, k)` the time right after it. */
  datatype Env = Env(now: int, fallbackAfter: int, cap: int,
                     deliver: (Job, nat) -> Outcome, clock: (UserId, nat) -> int)

  function Record(log: Log, job: Job, v: Verdict): Log {
    var called := log.(calls := log.calls + [job]);
    match v
    case Delivered => called.(delivered := called.delivered + [job])
    case GivenUp => called.(gaveUp := called.gaveUp + [job])
    case Retry => called
  }

  /** The list that is left and what happened, when the sweep works on one user
      alone.  The recursion ends because every call uses up a try. */
  function SweepUser(e: Env, jobs: seq<Job>, log: Log): (seq<Job>, Log)
    decreases Weight(jobs, e.cap)
  {
    if jobs == [] then (jobs, log)
    else
      var job := jobs[0];
      if job.method_ == "" then (jobs[1..], log)
      else if Fresh(job, e.now, e.fallbackAfter) then (jobs[1..] + [Stamped(job, e.clock(job.user, |log.calls|))], log)
      else
        var v := Judge(e.deliver(job, |log.calls|), job.attempts, e.cap);
        var again := Rearmed(job, e.clock(job.user, |log.calls|));
        WeightAppend(jobs[1..], again, e.cap);
        SweepUser(e, if v == Retry then jobs[1..] + [again] else jobs[1..], Record(log, job, v))
  }

  /** One round of the reference sweep: a stale head is tried, and at most put back
      with one try less. */
  lemma SweepRound(e: Env, jobs: seq<Job>, log: Log)
    requires jobs != [] && jobs[0].method_ != "" && !Fresh(jobs[0], e.now, e.fallbackAfter)
    ensures var job, k := jobs[0], |log.calls|;
            var v := Judge(e.deliver(job, k), job.attempts, e.cap);
            var rest := if v == Retry then jobs[1..] + [Rearmed(job, e.clock(job.user, k))] else jobs[1..];
            && SweepUser(e, jobs, log) == SweepUser(e, rest, Record(log, job, v))
            && Weight(rest, e.cap) < Weight(jobs, e.cap)
  {
    WeightAppend(jobs[1..], Rearmed(jobs[0], e.clock(jobs[0].user, |log.calls|)), e.cap);
  }

  /** A head that is not yet stale goes to the tail with its time kept, ends the
      sweep of its user and is not tried. */
  lemma FreshHeadIsRotated(e: Env, jobs: seq<Job>, log: Log)
    requires jobs != [] && jobs[0].method_ != ""
    requires e.fallbackAfter > 0 && e.now < jobs[0].enqueuedAt + e.fallbackAfter
    ensures var (left, log') := SweepUser(e, jobs, log);
            && log' == log && |left| == |jobs| && left[..|left| - 1] == jobs[1..]
            && var last := left[|left| - 1];
               && last.id == jobs[0].id && last.user == jobs[0].user && last.method_ == jobs[0].method_
               && last.attempts == jobs[0].attempts
               && (jobs[0].enqueuedAt != 0 ==> last.enqueuedAt == jobs[0].enqueuedAt)
  {
    var left := SweepUser(e, jobs, log).0;
    assert left[..|left| - 1] == jobs[1..];
  }

  /** The calls of a sweep come after those made before it. */
  lemma {:induction false} SweepAddsCalls(e: Env, jobs: seq<Job>, log: Log)
    ensures log.calls <= SweepUser(e, jobs, log).1.calls
    decreases Weight(jobs, e.cap)
  {
    if jobs != [] && jobs[0].method_ != "" && !Fresh(jobs[0], e.now, e.fallbackAfter) {
      var v := Judge(e.deliver(jobs[0], |log.calls|), jobs[0].attempts, e.cap);
      var again := Rearmed(jobs[0], e.clock(jobs[0].user, |log.calls|));
      WeightAppend(jobs[1..], again, e.cap);
      SweepAddsCalls(e, if v == Retry then jobs[1..] + [again] else jobs[1..], Record(log, jobs[0], v));
    }
  }

  /** Any other head that names a method is tried, first of all. */
  lemma StaleHeadIsTried(e: Env, jobs: seq<Job>, log: Log)
    requires jobs != [] && jobs[0].method_ != ""
    requires e.fallbackAfter <= 0 || e.now >= jobs[0].enqueuedAt + e.fallbackAfter
    ensures log.calls + [jobs[0]] <= SweepUser(e, jobs, log).1.calls
  {
    SweepRound(e, jobs, log);
    var v := Judge(e.deliver(jobs[0], |log.calls|), jobs[0].attempts, e.cap);
    var again := Rearmed(jobs[0], e.clock(jobs[0].user, |log.calls|));
    SweepAddsCalls(e, if v == Retry then jobs[1..] + [again] else jobs[1..], Record(log, jobs[0], v));
  }

  class Manager {
    const q: Queue
    const fallbackAfter: int
    const cap: int

    constructor (q: Queue, fallbackAfter: int, cap: int)
      ensures this.q == q && this.fallbackAfter == fallbackAfter && this.cap == cap
    {
      this.q, this.fallbackAfter, this.cap := q, fallbackAfter, cap;
    }

    /** One call of the deliverer; the job comes back to its list only for a retry. */
    method FallbackDeliver(e: Env, job: Job, log: Log) returns (log': Log)
      modifies q
      ensures var v := Judge(e.deliver(job, |log.calls|), job.attempts, e.cap);
              var again := Stamped(Rearmed(job, 0), e.clock(job.user, |log.calls|));
              && log' == Record(log, job, v)
              && q.View() == if v == Retry then Push(old(q.View()), job.user, again) else old(q.View())
      ensures log'.calls == log.calls + [job]
      // A good reply is a delivery and nothing else.
      ensures Accepts(e.deliver(job, |log.calls|)) ==>
                log'.delivered == log.delivered + [job] && log'.gaveUp == log.gaveUp && q.View() == old(q.View())
      // A refusal, or any failure of the last allowed try, is the end of the message.
      ensures Refuses(e.deliver(job, |log.calls|))
              || (MayRetry(e.deliver(job, |log.calls|)) && job.attempts + 1 >= e.cap) ==>
                log'.gaveUp == log.gaveUp + [job] && log'.delivered == log.delivered && q.View() == old(q.View())
      // A failure below the cap puts the message back with one attempt more and a new time.
      ensures MayRetry(e.deliver(job, |log.calls|)) && job.attempts + 1 < e.cap ==>
                && log'.gaveUp == log.gaveUp && log'.delivered == log.delivered
                && List(q.View(), job.user)
                   == List(old(q.View()), job.user)
                      + [Job(job.id, job.user, job.method_, e.clock(job.user, |log.calls|), job.attempts + 1)]
                && q.index == old(q.index) + {job.user}
                && forall v | v != job.user :: List(q.View(), v) == List(old(q.View()), v)
    {
      var answer := e.deliver(job, |log.calls|);
      log' := log.(calls := log.calls + [job]);
      if answer.Reply? && answer.ok {
        log' := log'.(delivered := log'.delivered + [job]);
        return;
      }
      if answer.Reply? && answer.permanent {
        log' := log'.(gaveUp := log'.gaveUp + [job]);
      } else if answer.Reply? && answer.needsStart && job.attempts + 1 < e.cap {
        q.PushPending(job.user, Rearmed(job, 0), e.clock(job.user, |log.calls|));
      } else if answer.Failure? {
        if job.attempts + 1 >= e.cap {
          log' := log'.(gaveUp := log'.gaveUp + [job]);
          return;
        }
        q.PushPending(job.user, Rearmed(job, 0), e.clock(job.user, |log.calls|));
      } else {
        log' := log'.(gaveUp := log'.gaveUp + [job]);
      }
    }

    /** The inner loop of the sweep, for one user. */
    method SweepOne(e: Env, u: UserId) returns (log: Log)
      requires StoreInv(q.View())
      modifies q
      ensures StoreInv(q.View())
      ensures (List(q.View(), u), log) == SweepUser(e, List(old(q.View()), u), NO_LOG)
      ensures forall v | v != u :: List(q.View(), v) == List(old(q.View()), v)
    {
      log := NO_LOG;
      ghost var before := q.View();
      while true
        invariant StoreInv(q.View())
        invariant SweepUser(e, List(q.View(), u), log) == SweepUser(e, List(before, u), NO_LOG)
        invariant forall v | v != u :: List(q.View(), v) == List(before, v)
        decreases Weight(List(q.View(), u), e.cap)
      {
        ghost var s := q.View();
        ghost var jobs := List(s, u);
        var found, job := q.PopOldestPending(u);
        StoreOperations(s, u, job);
        if !found {
          return;
        }
        assert job.user == u;
        ghost var popped := q.View();
        if e.fallbackAfter > 0 && e.now - job.enqueuedAt < e.fallbackAfter {
          q.PushPending(u, job, e.clock(u, |log.calls|));
          StoreOperations(popped, u, Stamped(job, e.clock(u, |log.calls|)));
          return;
        }
        ghost var again := Rearmed(job, e.clock(u, |log.calls|));
        assert Stamped(Rearmed(job, 0), e.clock(u, |log.calls|)) == again;
        StoreOperations(popped, u, again);
        SweepRound(e, jobs, log);
        log := FallbackDeliver(e, job, log);
      }
    }

    /** A whole sweep: every user that was indexed at the start, in any order.
        It terminates whatever the deliverer answers, and each user's list and
        log are those of a sweep of that user alone. */
    method SweepPending(e: Env) returns (logs: map<UserId, Log>)
      requires StoreInv(q.View()) && e.fallbackAfter == fallbackAfter && e.cap == cap
      modifies q
      ensures StoreInv(q.View())
      ensures logs.Keys == old(q.index)
      ensures forall u | u in old(q.index) ::
                (List(q.View(), u), logs[u]) == SweepUser(e, List(old(q.View()), u), NO_LOG)
      ensures forall u | u !in old(q.index) :: List(q.View(), u) == []
    {
      var users := q.index;
      var todo := users;
      ghost var before := q.View();
      logs := map[];
      while todo != {}
        invariant todo <= users && logs.Keys == users - todo
        invariant StoreInv(q.View())
        invariant forall u | u in logs ::
                    (List(q.View(), u), logs[u]) == SweepUser(e, List(before, u), NO_LOG)
        invariant forall u | u !in logs :: List(q.View(), u) == List(before, u)
        decreases todo
      {
        var u :| u in todo;
        todo := todo - {u};
        var log := SweepOne(e, u);
        logs := logs[u := log];
      }
    }
  }
}
