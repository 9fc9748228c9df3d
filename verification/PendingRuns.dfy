/** Every run that mixes enqueues, drains and the sweeper's single steps
    (internal/fleet/manager.go, internal/queue/redis.go): where each message is,
    how often it is tried, and how soon the sweeper reaches it. */
module PendingRuns {
  import opened PendingQueue

  /** Identifies a message. */
  type Tag = (UserId, nat)

  function TagOf(job: Job): Tag {
    (job.user, job.id)
  }

  /** Where the sweeper stands: between users, about to pop one, or holding a popped job. */
  datatype Sweeper =
    | Idle
    | Between(todo: set<UserId>, now: int)
    | Popping(user: UserId, todo: set<UserId>, now: int)
    | Holding(job: Job, todo: set<UserId>, now: int)

  datatype Cfg = Cfg(fallbackAfter: int, cap: int)

  /** The queue, the sweeper, and the books kept on every message; `answers` holds
      the last answer to each. */
  datatype World = World(store: Store, sweeper: Sweeper, accepted: seq<Job>, drained: seq<Job>,
                         delivered: seq<Job>, gaveUp: seq<Job>, discarded: seq<Job>, calls: seq<Job>,
                         answers: map<Tag, Outcome>)

  datatype Event =
    | Enqueue(job: Job, at: int)
    | Drain(user: UserId)
    | StartSweep(at: int)
    | Visit(user: UserId)
    | PopHead
    | Examine(outcome: Outcome, stamp: int)
    | EndSweep

  function One(job: Job, t: Tag): nat {
    if TagOf(job) == t then 1 else 0
  }

  /** How many of the jobs are the message `t`. */
  function Count(jobs: seq<Job>, t: Tag): nat {
    if jobs == [] then 0 else One(jobs[0], t) + Count(jobs[1..], t)
  }

  /** The jobs a drain or a pop throws away because they name no method. */
  function WithoutMethod(jobs: seq<Job>): seq<Job> {
    if jobs == [] then []
    else (if jobs[0].method_ == "" then [jobs[0]] else []) + WithoutMethod(jobs[1..])
  }

  predicate CanFire(w: World, e: Event) {
    match e
    case Enqueue(job, _) => job.attempts == 0 && Count(w.accepted, TagOf(job)) == 0
    case Drain(_) => true
    case StartSweep(_) => w.sweeper.Idle?
    case Visit(u) => w.sweeper.Between? && u in w.sweeper.todo
    case PopHead => w.sweeper.Popping?
    case Examine(_, _) => w.sweeper.Holding?
    case EndSweep => w.sweeper.Between? && w.sweeper.todo == {}
  }

  function Fire(cfg: Cfg, w: World, e: Event): World
    requires CanFire(w, e)
  {
    match e
    case Enqueue(job, at) =>
      w.(store := Push(w.store, job.user, Stamped(job, at)), accepted := w.accepted + [job])
    case Drain(u) =>
      var list := List(w.store, u);
      w.(store := Take(w.store, u),
         drained := w.drained + WithMethod(list),
         discarded := w.discarded + WithoutMethod(list))
    case StartSweep(at) => w.(sweeper := Between(w.store.index, at))
    case Visit(u) => w.(sweeper := Popping(u, w.sweeper.todo - {u}, w.sweeper.now))
    case PopHead => AfterPop(w)
    case Examine(outcome, stamp) => AfterExamine(cfg, w, outcome, stamp)
    case EndSweep => w.(sweeper := Idle)
  }

  function AfterPop(w: World): World
    requires w.sweeper.Popping?
  {
    var u := w.sweeper.user;
    var list := List(w.store, u);
    var away := Between(w.sweeper.todo, w.sweeper.now);
    if list == [] then w.(store := Pop(w.store, u), sweeper := away)
    else if list[0].method_ == "" then
      w.(store := Pop(w.store, u), sweeper := away, discarded := w.discarded + [list[0]])
    else w.(store := Pop(w.store, u), sweeper := Holding(list[0], w.sweeper.todo, w.sweeper.now))
  }

  function AfterExamine(cfg: Cfg, w: World, outcome: Outcome, stamp: int): World
    requires w.sweeper.Holding?
  {
    var job, todo, now := w.sweeper.job, w.sweeper.todo, w.sweeper.now;
    if Fresh(job, now, cfg.fallbackAfter) then
      w.(store := Push(w.store, job.user, Stamped(job, stamp)), sweeper := Between(todo, now))
    else
      var called := w.(sweeper := Popping(job.user, todo, now), calls := w.calls + [job],
                       answers := w.answers[TagOf(job) := outcome]);
      match Judge(outcome, job.attempts, cfg.cap)
      case Delivered => called.(delivered := w.delivered + [job])
      case GivenUp => called.(gaveUp := w.gaveUp + [job])
      case Retry => called.(store := Push(w.store, job.user, Rearmed(job, stamp)))
  }

  // ----- Exactly one place for every message -----

  /** How often a message is queued, in the sweeper's hand, drained, delivered by
      the fallback, given up, or thrown away for naming no method. */
  function Places(w: World, t: Tag): nat {
    Count(List(w.store, t.0), t) + (if w.sweeper.Holding? then One(w.sweeper.job, t) else 0)
    + Count(w.drained, t) + Count(w.delivered, t) + Count(w.gaveUp, t) + Count(w.discarded, t)
  }

  /** Each message is in one place if it was accepted and nowhere if not, and is
      tried no more often than allowed. */
  ghost predicate TagOk(cfg: Cfg, w: World, t: Tag) {
    && Count(w.accepted, t) <= 1
    && Places(w, t) == Count(w.accepted, t)
    && Count(w.calls, t) <= Allowance(cfg.cap)
    && (Count(w.accepted, t) == 0 ==> Count(w.calls, t) == 0)
  }

  ghost predicate HandOk(cfg: Cfg, w: World) {
    w.sweeper.Holding? ==> w.sweeper.job.method_ != "" && TriesAgree(cfg, w, w.sweeper.job)
  }

  ghost predicate QueuedOk(cfg: Cfg, w: World, u: UserId, i: nat) {
    i < |List(w.store, u)| ==> TriesAgree(cfg, w, List(w.store, u)[i])
  }

  ghost predicate Inv(cfg: Cfg, w: World) {
    && StoreInv(w.store)
    && HandOk(cfg, w)
    && (forall t :: TagOk(cfg, w, t))
    && (forall u, i :: QueuedOk(cfg, w, u, i))
  }

  /** A live job's attempts field counts its fallback calls, and one more is allowed. */
  ghost predicate TriesAgree(cfg: Cfg, w: World, job: Job) {
    Count(w.calls, TagOf(job)) == job.attempts && job.attempts < Allowance(cfg.cap)
  }

  lemma {:induction false} CountConcat(a: seq<Job>, b: seq<Job>, t: Tag)
    ensures Count(a + b, t) == Count(a, t) + Count(b, t)
  {
    if a == [] {
      assert a + b == b;
    } else {
      CountConcat(a[1..], b, t);
      assert (a + b)[1..] == a[1..] + b;
    }
  }

  lemma CountAppend(jobs: seq<Job>, job: Job, t: Tag)
    ensures Count(jobs + [job], t) == Count(jobs, t) + One(job, t)
  {
    CountConcat(jobs, [job], t);
    assert [job][1..] == [];
  }

  lemma {:induction false} CountSplit(jobs: seq<Job>, t: Tag)
    ensures Count(jobs, t) == Count(WithMethod(jobs), t) + Count(WithoutMethod(jobs), t)
  {
    if jobs != [] {
      CountSplit(jobs[1..], t);
      CountConcat(if jobs[0].method_ == "" then [] else [jobs[0]], WithMethod(jobs[1..]), t);
      CountConcat(if jobs[0].method_ == "" then [jobs[0]] else [], WithoutMethod(jobs[1..]), t);
      assert [jobs[0]][1..] == [];
    }
  }

  lemma {:induction false} CountOfOtherUser(jobs: seq<Job>, u: UserId, t: Tag)
    requires forall i | 0 <= i < |jobs| :: jobs[i].user == u
    requires t.0 != u
    ensures Count(jobs, t) == 0
  {
    if jobs != [] { CountOfOtherUser(jobs[1..], u, t); }
  }

  lemma {:induction false} CountHas(jobs: seq<Job>, i: nat)
    requires i < |jobs|
    ensures Count(jobs, TagOf(jobs[i])) >= 1
  {
    if i > 0 { CountHas(jobs[1..], i - 1); }
  }

  const NO_JOB := Job(0, "", "", 0, 0)

  lemma FireKeepsStore(cfg: Cfg, w: World, e: Event)
    requires StoreInv(w.store) && CanFire(w, e)
    ensures StoreInv(Fire(cfg, w, e).store)
  {
    match e {
      case Enqueue(job, at) => StoreOperations(w.store, job.user, Stamped(job, at));
      case Drain(u) => StoreOperations(w.store, u, NO_JOB);
      case PopHead => StoreOperations(w.store, w.sweeper.user, NO_JOB);
      case Examine(outcome, stamp) =>
        var job := w.sweeper.job;
        StoreOperations(w.store, job.user, Stamped(job, stamp));
        StoreOperations(w.store, job.user, Rearmed(job, stamp));
      case _ =>
    }
  }

  /** Appending a job puts that one message into its user's list. */
  lemma PushCounts(store: Store, job: Job, t: Tag)
    ensures Count(List(Push(store, job.user, job), t.0), t) == Count(List(store, t.0), t) + One(job, t)
  {
    CountAppend(List(store, job.user), job, t);
  }

  lemma ExamineKeepsTag(cfg: Cfg, w: World, outcome: Outcome, stamp: int, t: Tag)
    requires w.sweeper.Holding? && TagOk(cfg, w, t) && TriesAgree(cfg, w, w.sweeper.job)
    ensures TagOk(cfg, AfterExamine(cfg, w, outcome, stamp), t)
  {
    var job := w.sweeper.job;
    if Fresh(job, w.sweeper.now, cfg.fallbackAfter) {
      PushCounts(w.store, Stamped(job, stamp), t);
    } else {
      CountAppend(w.calls, job, t);
      match Judge(outcome, job.attempts, cfg.cap) {
        case Delivered => CountAppend(w.delivered, job, t);
        case GivenUp => CountAppend(w.gaveUp, job, t);
        case Retry => PushCounts(w.store, Rearmed(job, stamp), t);
      }
    }
  }

  /** A drain hands out or throws away every message of its user's list... */
  lemma DrainCounts(w: World, u: UserId, t: Tag)
    ensures var list := List(w.store, u);
            Count(w.drained + WithMethod(list), t) + Count(w.discarded + WithoutMethod(list), t)
            == Count(w.drained, t) + Count(w.discarded, t) + Count(list, t)
  {
    var list := List(w.store, u);
    CountSplit(list, t);
    CountConcat(w.drained, WithMethod(list), t);
    CountConcat(w.discarded, WithoutMethod(list), t);
  }

  /** ...and leaves the other lists alone. */
  lemma TakeCounts(store: Store, u: UserId, t: Tag)
    requires StoreInv(store)
    ensures Count(List(Take(store, u), t.0), t) == Count(List(store, t.0), t) - Count(List(store, u), t)
  {
    if t.0 != u { CountOfOtherUser(List(store, u), u, t); }
  }

  lemma DrainKeepsTag(cfg: Cfg, w: World, u: UserId, t: Tag)
    requires StoreInv(w.store) && TagOk(cfg, w, t)
    ensures TagOk(cfg, Fire(cfg, w, Drain(u)), t)
  {
    DrainCounts(w, u, t);
    TakeCounts(w.store, u, t);
  }

  /** Popping takes that one message out of its user's list. */
  lemma PopCounts(store: Store, u: UserId, t: Tag)
    requires List(store, u) != [] && List(store, u)[0].user == u
    ensures Count(List(store, t.0), t) == Count(List(Pop(store, u), t.0), t) + One(List(store, u)[0], t)
  {}

  lemma PopToHandKeepsPlaces(w: World, t: Tag)
    requires StoreInv(w.store) && w.sweeper.Popping?
    requires List(w.store, w.sweeper.user) != [] && List(w.store, w.sweeper.user)[0].method_ != ""
    ensures Places(AfterPop(w), t) == Places(w, t)
  {
    PopCounts(w.store, w.sweeper.user, t);
  }

  lemma PopAwayKeepsPlaces(w: World, t: Tag)
    requires StoreInv(w.store) && w.sweeper.Popping?
    requires List(w.store, w.sweeper.user) != [] && List(w.store, w.sweeper.user)[0].method_ == ""
    ensures Places(AfterPop(w), t) == Places(w, t)
  {
    PopCounts(w.store, w.sweeper.user, t);
    CountAppend(w.discarded, List(w.store, w.sweeper.user)[0], t);
  }

  lemma PopKeepsTag(cfg: Cfg, w: World, t: Tag)
    requires StoreInv(w.store) && w.sweeper.Popping? && TagOk(cfg, w, t)
    ensures TagOk(cfg, AfterPop(w), t)
  {
    var list := List(w.store, w.sweeper.user);
    if list != [] {
      if list[0].method_ == "" { PopAwayKeepsPlaces(w, t); } else { PopToHandKeepsPlaces(w, t); }
    }
  }

  lemma EnqueueKeepsTag(cfg: Cfg, w: World, job: Job, at: int, t: Tag)
    requires CanFire(w, Enqueue(job, at)) && TagOk(cfg, w, t)
    ensures TagOk(cfg, Fire(cfg, w, Enqueue(job, at)), t)
  {
    CountAppend(List(w.store, job.user), Stamped(job, at), t);
    CountAppend(w.accepted, job, t);
  }

  lemma FireKeepsTag(cfg: Cfg, w: World, e: Event, t: Tag)
    requires StoreInv(w.store) && HandOk(cfg, w) && CanFire(w, e) && TagOk(cfg, w, t)
    ensures TagOk(cfg, Fire(cfg, w, e), t)
  {
    match e {
      case Enqueue(job, at) => EnqueueKeepsTag(cfg, w, job, at, t);
      case Drain(u) => DrainKeepsTag(cfg, w, u, t);
      case PopHead => PopKeepsTag(cfg, w, t);
      case Examine(outcome, stamp) => ExamineKeepsTag(cfg, w, outcome, stamp, t);
      case _ =>
    }
  }

  /** A job in the hand is not queued as well. */
  lemma HandIsNotQueued(cfg: Cfg, w: World, u: UserId, i: nat)
    requires w.sweeper.Holding? && i < |List(w.store, u)| && List(w.store, u)[i].user == u
    requires TagOk(cfg, w, TagOf(List(w.store, u)[i]))
    ensures TagOf(List(w.store, u)[i]) != TagOf(w.sweeper.job)
  {
    CountHas(List(w.store, u), i);
  }

  lemma ExamineKeepsTries(cfg: Cfg, w: World, outcome: Outcome, stamp: int, other: Job)
    requires w.sweeper.Holding? && TagOf(other) != TagOf(w.sweeper.job) && TriesAgree(cfg, w, other)
    ensures TriesAgree(cfg, AfterExamine(cfg, w, outcome, stamp), other)
  {
    CountAppend(w.calls, w.sweeper.job, TagOf(other));
  }

  /** A job the sweeper puts back agrees with the calls made for it. */
  lemma PutBackAgrees(cfg: Cfg, w: World, outcome: Outcome, stamp: int)
    requires w.sweeper.Holding? && HandOk(cfg, w)
    ensures var job, after := w.sweeper.job, AfterExamine(cfg, w, outcome, stamp);
            if Fresh(job, w.sweeper.now, cfg.fallbackAfter) then TriesAgree(cfg, after, Stamped(job, stamp))
            else Judge(outcome, job.attempts, cfg.cap) == Retry ==> TriesAgree(cfg, after, Rearmed(job, stamp))
  {
    CountAppend(w.calls, w.sweeper.job, TagOf(w.sweeper.job));
  }

  lemma ExamineKeepsQueued(cfg: Cfg, w: World, outcome: Outcome, stamp: int, u: UserId, i: nat)
    requires Inv(cfg, w) && w.sweeper.Holding?
    ensures QueuedOk(cfg, AfterExamine(cfg, w, outcome, stamp), u, i)
  {
    if i < |List(w.store, u)| {
      var other := List(w.store, u)[i];
      assert QueuedOk(cfg, w, u, i) && TagOk(cfg, w, TagOf(other));
      HandIsNotQueued(cfg, w, u, i);
      ExamineKeepsTries(cfg, w, outcome, stamp, other);
    }
    PutBackAgrees(cfg, w, outcome, stamp);
  }

  lemma PopKeepsQueued(cfg: Cfg, w: World, u: UserId, i: nat)
    requires w.sweeper.Popping? && QueuedOk(cfg, w, u, i) && QueuedOk(cfg, w, u, i + 1)
    ensures QueuedOk(cfg, AfterPop(w), u, i)
  {}

  lemma FireKeepsQueued(cfg: Cfg, w: World, e: Event, u: UserId, i: nat)
    requires Inv(cfg, w) && CanFire(w, e)
    ensures QueuedOk(cfg, Fire(cfg, w, e), u, i)
  {
    assert QueuedOk(cfg, w, u, i) && QueuedOk(cfg, w, u, i + 1);
    match e {
      case Enqueue(job, _) => assert TagOk(cfg, w, TagOf(job));
      case PopHead => PopKeepsQueued(cfg, w, u, i);
      case Examine(outcome, stamp) => ExamineKeepsQueued(cfg, w, outcome, stamp, u, i);
      case _ =>
    }
  }

  lemma FireKeepsHand(cfg: Cfg, w: World, e: Event)
    requires Inv(cfg, w) && CanFire(w, e)
    ensures HandOk(cfg, Fire(cfg, w, e))
  {
    if e.PopHead? {
      assert QueuedOk(cfg, w, w.sweeper.user, 0);
    }
  }

  lemma FireKeepsInv(cfg: Cfg, w: World, e: Event)
    requires Inv(cfg, w) && CanFire(w, e)
    ensures Inv(cfg, Fire(cfg, w, e))
  {
    FireKeepsStore(cfg, w, e);
    FireKeepsHand(cfg, w, e);
    forall t ensures TagOk(cfg, Fire(cfg, w, e), t) {
      FireKeepsTag(cfg, w, e, t);
    }
    forall u, i ensures QueuedOk(cfg, Fire(cfg, w, e), u, i) {
      FireKeepsQueued(cfg, w, e, u, i);
    }
  }

  predicate CanRun(cfg: Cfg, w: World, events: seq<Event>)
    decreases |events|
  {
    events == [] || (CanFire(w, events[0]) && CanRun(cfg, Fire(cfg, w, events[0]), events[1..]))
  }

  function Final(cfg: Cfg, w: World, events: seq<Event>): World
    requires CanRun(cfg, w, events)
    decreases |events|
  {
    if events == [] then w else Final(cfg, Fire(cfg, w, events[0]), events[1..])
  }

  const START := World(Store(map[], {}), Idle, [], [], [], [], [], [], map[])

  lemma {:induction false} RunKeepsInv(cfg: Cfg, w: World, events: seq<Event>)
    requires Inv(cfg, w) && CanRun(cfg, w, events)
    ensures Inv(cfg, Final(cfg, w, events))
    decreases |events|
  {
    if events != [] {
      FireKeepsInv(cfg, w, events[0]);
      RunKeepsInv(cfg, Fire(cfg, w, events[0]), events[1..]);
    }
  }

  /** From an empty queue, in every run: each accepted message is in exactly one
      place, unknown messages are nowhere, no message gets more fallback calls
      than it is allowed, and the index and lists agree. */
  lemma EveryMessageInOnePlace(cfg: Cfg, events: seq<Event>, t: Tag)
    requires CanRun(cfg, START, events)
    ensures var w := Final(cfg, START, events);
            && Places(w, t) == Count(w.accepted, t) <= 1
            && Count(w.calls, t) <= Allowance(cfg.cap)
            && (forall u :: u in w.store.index <==> List(w.store, u) != [])
            && (forall u, i | 0 <= i < |List(w.store, u)| :: List(w.store, u)[i].user == u)
  {
    RunKeepsInv(cfg, START, events);
    assert TagOk(cfg, Final(cfg, START, events), t);
  }

  // ----- Why a message ended -----

  function Waiting(w: World, t: Tag): nat {
    Count(List(w.store, t.0), t) + if w.sweeper.Holding? then One(w.sweeper.job, t) else 0
  }

  /** A delivered message was accepted; one that was given up was refused, or has
      used up its tries; one that still waits after a try may be tried again. */
  ghost predicate EndedRightly(cfg: Cfg, w: World, t: Tag) {
    && (Count(w.delivered, t) > 0 ==> t in w.answers && Accepts(w.answers[t]))
    && (Count(w.gaveUp, t) > 0 ==>
          && t in w.answers && !Accepts(w.answers[t])
          && (Refuses(w.answers[t]) || Count(w.calls, t) == Allowance(cfg.cap)))
    && (Waiting(w, t) > 0 && Count(w.calls, t) > 0 ==> t in w.answers && MayRetry(w.answers[t]))
  }

  lemma EnqueueKeepsEnded(cfg: Cfg, w: World, job: Job, at: int, t: Tag)
    requires CanFire(w, Enqueue(job, at)) && TagOk(cfg, w, t) && EndedRightly(cfg, w, t)
    ensures EndedRightly(cfg, Fire(cfg, w, Enqueue(job, at)), t)
  {
    CountAppend(List(w.store, job.user), Stamped(job, at), t);
  }

  lemma PopKeepsEnded(cfg: Cfg, w: World, t: Tag)
    requires StoreInv(w.store) && w.sweeper.Popping? && EndedRightly(cfg, w, t)
    ensures EndedRightly(cfg, AfterPop(w), t)
  {
    if List(w.store, w.sweeper.user) != [] { PopCounts(w.store, w.sweeper.user, t); }
  }

  lemma FreshKeepsEnded(cfg: Cfg, w: World, outcome: Outcome, stamp: int, t: Tag)
    requires w.sweeper.Holding? && EndedRightly(cfg, w, t)
    requires Fresh(w.sweeper.job, w.sweeper.now, cfg.fallbackAfter)
    ensures EndedRightly(cfg, AfterExamine(cfg, w, outcome, stamp), t)
  {
    PushCounts(w.store, Stamped(w.sweeper.job, stamp), t);
  }

  lemma CallCounts(cfg: Cfg, w: World, outcome: Outcome, stamp: int, t: Tag)
    requires w.sweeper.Holding? && TagOf(w.sweeper.job) != t
    requires !Fresh(w.sweeper.job, w.sweeper.now, cfg.fallbackAfter)
    ensures var w' := AfterExamine(cfg, w, outcome, stamp);
            && Count(w'.calls, t) == Count(w.calls, t) && Waiting(w', t) == Waiting(w, t)
            && Count(w'.delivered, t) == Count(w.delivered, t) && Count(w'.gaveUp, t) == Count(w.gaveUp, t)
  {
    var job := w.sweeper.job;
    CountAppend(w.calls, job, t);
    CountAppend(w.delivered, job, t);
    CountAppend(w.gaveUp, job, t);
    PushCounts(w.store, Rearmed(job, stamp), t);
  }

  lemma CallOfOtherKeepsEnded(cfg: Cfg, w: World, outcome: Outcome, stamp: int, t: Tag)
    requires w.sweeper.Holding? && EndedRightly(cfg, w, t) && TagOf(w.sweeper.job) != t
    requires !Fresh(w.sweeper.job, w.sweeper.now, cfg.fallbackAfter)
    ensures EndedRightly(cfg, AfterExamine(cfg, w, outcome, stamp), t)
  {
    CallCounts(cfg, w, outcome, stamp, t);
  }

  /** The call itself: the answer decides, and the tries when it leaves the choice. */
  lemma CallEndsRightly(cfg: Cfg, w: World, outcome: Outcome, stamp: int, t: Tag)
    requires w.sweeper.Holding? && TagOf(w.sweeper.job) == t && TagOk(cfg, w, t) && TriesAgree(cfg, w, w.sweeper.job)
    requires !Fresh(w.sweeper.job, w.sweeper.now, cfg.fallbackAfter)
    ensures EndedRightly(cfg, AfterExamine(cfg, w, outcome, stamp), t)
  {
    var job := w.sweeper.job;
    CountAppend(w.calls, job, t);
    CountAppend(w.delivered, job, t);
    CountAppend(w.gaveUp, job, t);
    PushCounts(w.store, Rearmed(job, stamp), t);
  }

  lemma FireKeepsEnded(cfg: Cfg, w: World, e: Event, t: Tag)
    requires Inv(cfg, w) && CanFire(w, e) && EndedRightly(cfg, w, t)
    ensures EndedRightly(cfg, Fire(cfg, w, e), t)
  {
    assert TagOk(cfg, w, t);
    match e {
      case Enqueue(job, at) => EnqueueKeepsEnded(cfg, w, job, at, t);
      case PopHead => PopKeepsEnded(cfg, w, t);
      case Examine(outcome, stamp) =>
        if Fresh(w.sweeper.job, w.sweeper.now, cfg.fallbackAfter) {
          FreshKeepsEnded(cfg, w, outcome, stamp, t);
        } else if TagOf(w.sweeper.job) == t {
          CallEndsRightly(cfg, w, outcome, stamp, t);
        } else {
          CallOfOtherKeepsEnded(cfg, w, outcome, stamp, t);
        }
      case _ =>
    }
  }

  lemma {:induction false} RunKeepsEnded(cfg: Cfg, w: World, events: seq<Event>, t: Tag)
    requires Inv(cfg, w) && CanRun(cfg, w, events) && EndedRightly(cfg, w, t)
    ensures EndedRightly(cfg, Final(cfg, w, events), t)
    decreases |events|
  {
    if events != [] {
      FireKeepsInv(cfg, w, events[0]);
      FireKeepsEnded(cfg, w, events[0], t);
      RunKeepsEnded(cfg, Fire(cfg, w, events[0]), events[1..], t);
    }
  }

  /** From an empty queue, in every run: a message counted as delivered was accepted
      by its last answer, and one that was given up was refused by it or has had
      exactly as many fallback calls as it may. */
  lemma MessagesEndRightly(cfg: Cfg, events: seq<Event>, t: Tag)
    requires CanRun(cfg, START, events)
    ensures var w := Final(cfg, START, events);
            && (Count(w.delivered, t) > 0 ==> t in w.answers && w.answers[t].Reply? && w.answers[t].ok)
            && (Count(w.gaveUp, t) > 0 ==>
                  && t in w.answers
                  && var last := w.answers[t];
                     if last.Reply? && (last.permanent || !last.needsStart) then !last.ok
                     else Count(w.calls, t) == if cfg.cap < 1 then 1 else cfg.cap)
  {
    RunKeepsEnded(cfg, START, events, t);
  }

  // ----- Progress -----

  predicate PopsUser(w: World, e: Event, u: UserId) {
    e.PopHead? && w.sweeper.Popping? && w.sweeper.user == u
  }

  /** Whether the job at position `i` of `u`'s list is examined during the run,
      following its position as the sweeper pops in front of it. */
  predicate Reached(cfg: Cfg, w: World, events: seq<Event>, u: UserId, i: nat)
    requires CanRun(cfg, w, events)
    decreases |events|
  {
    if events == [] then false
    else if PopsUser(w, events[0], u) then
      i == 0 || Reached(cfg, Fire(cfg, w, events[0]), events[1..], u, i - 1)
    else Reached(cfg, Fire(cfg, w, events[0]), events[1..], u, i)
  }

  /** The position followed by `Reached` really is the same job's, as long as the
      user's list is not drained: popping brings it one nearer and nothing else
      moves it, whatever is appended meanwhile. */
  lemma PositionFollowsJob(cfg: Cfg, w: World, e: Event, u: UserId, i: nat)
    requires CanFire(w, e) && i < |List(w.store, u)| && e != Drain(u)
    requires StoreInv(w.store)
    ensures var w' := Fire(cfg, w, e);
            var job := List(w.store, u)[i];
            if PopsUser(w, e, u)
            then (if i == 0 then job.method_ == "" || w'.sweeper == Holding(job, w.sweeper.todo, w.sweeper.now)
                  else i - 1 < |List(w'.store, u)| && List(w'.store, u)[i - 1] == job)
            else i < |List(w'.store, u)| && List(w'.store, u)[i] == job
  {}

  function CountEnds(events: seq<Event>): nat {
    if events == [] then 0 else (if events[0].EndSweep? then 1 else 0) + CountEnds(events[1..])
  }

  /** The sweeper will still pop `u` before its current sweep ends. */
  predicate Owes(s: Sweeper, u: UserId) {
    match s
    case Idle => false
    case Between(todo, _) => u in todo
    case Popping(v, todo, _) => v == u || u in todo
    case Holding(_, todo, _) => u in todo
  }

  /** A job at position `i` is examined before `i + 1` further sweeps are over,
      or `i + 2` when the current one no longer owes its user a visit. */
  lemma {:induction false} ReachedInTime(cfg: Cfg, w: World, events: seq<Event>, u: UserId, i: nat)
    requires Inv(cfg, w) && CanRun(cfg, w, events)
    requires Drain(u) !in events
    requires i < |List(w.store, u)|
    requires CountEnds(events) >= i + (if w.sweeper.Idle? || Owes(w.sweeper, u) then 1 else 2)
    ensures Reached(cfg, w, events, u, i)
    decreases |events|
  {
    var e := events[0];
    var w' := Fire(cfg, w, e);
    FireKeepsInv(cfg, w, e);
    PositionFollowsJob(cfg, w, e, u, i);
    if PopsUser(w, e, u) {
      if i > 0 { ReachedInTime(cfg, w', events[1..], u, i - 1); }
    } else {
      ReachedInTime(cfg, w', events[1..], u, i);
    }
  }

  /** A job at position `i` of its list, if not drained first, is examined within
      `i + 1` sweeps, however many jobs arrive meanwhile. */
  lemma ExaminedWithinSweeps(cfg: Cfg, w: World, events: seq<Event>, u: UserId, i: nat)
    requires Inv(cfg, w) && CanRun(cfg, w, events) && w.sweeper.Idle?
    requires Drain(u) !in events
    requires i < |List(w.store, u)| && CountEnds(events) >= i + 1
    ensures Reached(cfg, w, events, u, i)
  {
    ReachedInTime(cfg, w, events, u, i);
  }

  // ----- The sweep method is a run -----

  /** The single steps of sweeping one user alone. */
  function Steps(e: Env, jobs: seq<Job>, log: Log): seq<Event>
    decreases Weight(jobs, e.cap)
  {
    if jobs == [] || jobs[0].method_ == "" then [PopHead]
    else
      var job := jobs[0];
      var stamp := e.clock(job.user, |log.calls|);
      var step := [PopHead, Examine(e.deliver(job, |log.calls|), stamp)];
      if Fresh(job, e.now, e.fallbackAfter) then step
      else
        var v := Judge(e.deliver(job, |log.calls|), job.attempts, e.cap);
        WeightAppend(jobs[1..], Rearmed(job, stamp), e.cap);
        step + Steps(e, if v == Retry then jobs[1..] + [Rearmed(job, stamp)] else jobs[1..], Record(log, job, v))
  }

  lemma RunTwo(cfg: Cfg, w: World, a: Event, b: Event, rest: seq<Event>)
    requires CanFire(w, a) && CanFire(Fire(cfg, w, a), b)
    requires CanRun(cfg, Fire(cfg, Fire(cfg, w, a), b), rest)
    ensures CanRun(cfg, w, [a, b] + rest)
    ensures Final(cfg, w, [a, b] + rest) == Final(cfg, Fire(cfg, Fire(cfg, w, a), b), rest)
  {
    assert ([a, b] + rest)[1..] == [b] + rest;
    assert ([b] + rest)[1..] == rest;
  }

  /** Popping and examining a head that names a method, seen from its user's list. */
  lemma PopAndExamine(cfg: Cfg, w: World, outcome: Outcome, stamp: int)
    requires StoreInv(w.store) && w.sweeper.Popping?
    requires var jobs := List(w.store, w.sweeper.user); jobs != [] && jobs[0].method_ != ""
    ensures AfterPop(w).sweeper.Holding?
    ensures var u, jobs := w.sweeper.user, List(w.store, w.sweeper.user);
            var job, after := jobs[0], AfterExamine(cfg, AfterPop(w), outcome, stamp);
            && job.user == u && StoreInv(after.store)
            && if Fresh(job, w.sweeper.now, cfg.fallbackAfter)
               then after.sweeper == Between(w.sweeper.todo, w.sweeper.now)
                    && List(after.store, u) == jobs[1..] + [Stamped(job, stamp)]
               else after.sweeper == w.sweeper
                    && List(after.store, u) == if Judge(outcome, job.attempts, cfg.cap) == Retry
                                               then jobs[1..] + [Rearmed(job, stamp)] else jobs[1..]
  {
    var u := w.sweeper.user;
    var job := List(w.store, u)[0];
    StoreOperations(w.store, u, job);
    StoreOperations(AfterPop(w).store, u, Stamped(job, stamp));
    StoreOperations(AfterPop(w).store, u, Rearmed(job, stamp));
  }

  /** Sweeping a user in one go is one of the runs above: it ends where those
      steps end, so what holds of every run holds of the sweep method. */
  lemma {:induction false} SweepIsARun(cfg: Cfg, e: Env, w: World, log: Log)
    requires StoreInv(w.store) && w.sweeper.Popping? && w.sweeper.now == e.now
    requires cfg == Cfg(e.fallbackAfter, e.cap)
    ensures var u := w.sweeper.user;
            var events := Steps(e, List(w.store, u), log);
            && CanRun(cfg, w, events)
            && Final(cfg, w, events).sweeper == Between(w.sweeper.todo, e.now)
            && List(Final(cfg, w, events).store, u) == SweepUser(e, List(w.store, u), log).0
    decreases Weight(List(w.store, w.sweeper.user), e.cap)
  {
    var u := w.sweeper.user;
    var jobs := List(w.store, u);
    if jobs == [] || jobs[0].method_ == "" {
      StoreOperations(w.store, u, Job(0, u, "", 0, 0));
      assert CanRun(cfg, AfterPop(w), []);
      assert [PopHead][1..] == [];
    } else {
      var job := jobs[0];
      var answer, stamp := e.deliver(job, |log.calls|), e.clock(u, |log.calls|);
      var verdict := Judge(answer, job.attempts, e.cap);
      PopAndExamine(cfg, w, answer, stamp);
      var after := AfterExamine(cfg, AfterPop(w), answer, stamp);
      var rest := [];
      if !Fresh(job, e.now, e.fallbackAfter) {
        WeightAppend(jobs[1..], Rearmed(job, stamp), e.cap);
        SweepIsARun(cfg, e, after, Record(log, job, verdict));
        rest := Steps(e, List(after.store, u), Record(log, job, verdict));
      }
      RunTwo(cfg, w, PopHead, Examine(answer, stamp), rest);
      assert Steps(e, jobs, log) == [PopHead, Examine(answer, stamp)] + rest;
    }
  }
}
