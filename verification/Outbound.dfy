/** The sharded outbound queues of one bot (internal/telegram/client.go): callers
    push jobs, one worker per shard sends them and posts each result under its
    job's id. */
module Outbound {

  type ChatId = string
  type JobId = nat

  /** `urgent` marks answerCallbackQuery, which is pushed to the front. */
  datatype Job = Job(id: JobId, chat: ChatId, urgent: bool)

  type Hash = string -> int

  /** outboundQueueKeyForBot: one queue without sharding, else the chat's shard. */
  function ShardOf(hash: Hash, shards: int, chat: ChatId): nat {
    if shards <= 1 then 0 else Adjusted(GoRem(hash(chat), shards), shards)
  }

  /** Go's remainder takes the sign of the dividend. */
  function GoRem(n: int, d: int): (r: int)
    requires d > 0
    ensures -d < r < d
  {
    if n >= 0 then n % d else -((-n) % d)
  }

  /** With several shards the adjusted remainder is the mathematical one, also for a
      negative hash; without sharding there is one queue. */
  lemma ShardIsTheRemainder(hash: Hash, shards: int, chat: ChatId)
    ensures shards <= 1 ==> ShardOf(hash, shards, chat) == 0
    ensures shards > 1 ==> ShardOf(hash, shards, chat) == hash(chat) % shards
  {
    if shards > 1 && hash(chat) < 0 {
      var q, r := (-hash(chat)) / shards, (-hash(chat)) % shards;
      NegativeRemainder(hash(chat), q, r, shards);
    }
  }

  lemma NegativeRemainder(n: int, q: int, r: int, d: int)
    requires d > 0 && 0 <= r < d && -n == q * d + r
    ensures n % d == if r == 0 then 0 else d - r
  {
    var k := if r == 0 then -q else -q - 1;
    var rest := if r == 0 then 0 else d - r;
    assert n == k * d + rest;
    RemainderIs(n, k, rest, d);
  }

  lemma RemainderIs(n: int, k: int, rest: int, d: int)
    requires d > 0 && 0 <= rest < d && n == k * d + rest
    ensures n % d == rest
  {
    var a, b := n / d, n % d;
    Quotient(n, d);
    assert (a - k) * d == a * d - k * d && (k - a) * d == k * d - a * d;
    if a > k { AtLeastOnce(a - k, d); }
    if a < k { AtLeastOnce(k - a, d); }
  }

  lemma Quotient(n: int, d: int)
    requires d > 0
    ensures n == (n / d) * d + n % d
  {}

  lemma {:induction false} AtLeastOnce(x: int, d: int)
    requires x >= 1 && d > 0
    ensures x * d >= d
    decreases x
  {
    if x > 1 {
      AtLeastOnce(x - 1, d);
      assert x * d == (x - 1) * d + d;
    }
  }

  function Adjusted(rem: int, shards: int): (r: nat)
    requires -shards < rem < shards
    ensures r < shards
  {
    if rem < 0 then rem + shards else rem
  }

  function QueueCount(shards: int): nat {
    if shards <= 1 then 1 else shards
  }

  datatype Hand = Free | Sending(job: Job)

  /** `pushed` and `sent` record every push and every send in order; `results`
      holds the posted results, `answer` being what sending that job gave. */
  datatype State<!R> = State(queues: seq<seq<Job>>, hands: seq<Hand>, pushed: seq<Job>, sent: seq<Job>,
                             results: map<JobId, R>)

  datatype Event = Enqueue(job: Job) | Take(shard: nat) | Send(shard: nat) | Receive(id: JobId)

  class Queues {
    const hash: Hash
    const shards: int
    var queues: seq<seq<Job>>
    const leftover: seq<seq<Job>>  // the bot's keys that this shard count does not use

    constructor (hash: Hash, shards: int, leftover: seq<seq<Job>>)
      ensures this.hash == hash && this.shards == shards && this.leftover == leftover
      ensures queues == seq(QueueCount(shards), _ => [])
    {
      this.hash, this.shards, this.leftover := hash, shards, leftover;
      queues := seq(QueueCount(shards), _ => []);
    }

    /** The push of callViaQueue: to the tail, or to the front for answerCallbackQuery. */
    method EnqueueJob(job: Job)
      requires |queues| == QueueCount(shards)
      modifies this
      ensures queues == PushTo(old(queues), ShardOf(hash, shards, job.chat), job)
      ensures |queues| == |old(queues)|
      ensures forall k | 0 <= k < |queues| ::
                queues[k] == if k != (if shards <= 1 then 0 else hash(job.chat) % shards) then old(queues)[k]
                             else if job.urgent then [job] + old(queues)[k] else old(queues)[k] + [job]
    {
      var k := ShardOf(hash, shards, job.chat);
      ShardIsTheRemainder(hash, shards, job.chat);
      if job.urgent {
        queues := queues[k := [job] + queues[k]];
      } else {
        queues := queues[k := queues[k] + [job]];
      }
    }

    /** BLPOP of one shard. */
    method Next(k: nat) returns (found: bool, job: Job)
      requires k < |queues|
      modifies this
      ensures old(queues)[k] == [] ==> !found && queues == old(queues)
      ensures old(queues)[k] != [] ==>
                found && job == old(queues)[k][0] && queues == old(queues)[k := old(queues)[k][1..]]
    {
      if queues[k] == [] {
        return false, Job(0, "", false);
      }
      found, job := true, queues[k][0];
      queues := queues[k := queues[k][1..]];
    }

    /** OutboundQueueLen: the total depth of all of the bot's keys. */
    method TotalLength() returns (total: nat)
      ensures total == Depth(queues) + Depth(leftover)
    {
      total := 0;
      for i := 0 to |queues|
        invariant Depth(queues) == total + Depth(queues[i..])
      {
        assert queues[i..][1..] == queues[i + 1..];
        total := total + |queues[i]|;
      }
      for i := 0 to |leftover|
        invariant Depth(queues) + Depth(leftover) == total + Depth(leftover[i..])
      {
        assert leftover[i..][1..] == leftover[i + 1..];
        total := total + |leftover[i]|;
      }
    }
  }

  function Depth(queues: seq<seq<Job>>): nat {
    if queues == [] then 0 else |queues[0]| + Depth(queues[1..])
  }

  function PushTo(queues: seq<seq<Job>>, k: nat, job: Job): seq<seq<Job>>
    requires k < |queues|
  {
    queues[k := if job.urgent then [job] + queues[k] else queues[k] + [job]]
  }

  // ----- Runs of producers and shard workers -----

  /** Job ids are fresh. */
  predicate CanFire<R>(s: State<R>, e: Event) {
    match e
    case Enqueue(job) => forall i | 0 <= i < |s.pushed| :: s.pushed[i].id != job.id
    case Take(k) => k < |s.queues| && k < |s.hands| && s.hands[k].Free? && s.queues[k] != []
    case Send(k) => k < |s.hands| && s.hands[k].Sending?
    case Receive(id) => id in s.results
  }

  function Fire<R>(hash: Hash, shards: int, answer: Job -> R, s: State<R>, e: Event): State<R>
    requires CanFire(s, e) && |s.queues| == QueueCount(shards)
  {
    match e
    case Enqueue(job) =>
      s.(queues := PushTo(s.queues, ShardOf(hash, shards, job.chat), job), pushed := s.pushed + [job])
    case Take(k) => s.(hands := s.hands[k := Sending(s.queues[k][0])], queues := s.queues[k := s.queues[k][1..]])
    case Send(k) =>
      var job := s.hands[k].job;
      s.(hands := s.hands[k := Free], sent := s.sent + [job], results := s.results[job.id := answer(job)])
    case Receive(id) => s.(results := s.results - {id})
  }

  /** A worker takes the head of its own shard, sends what it took, and posts the
      answer under the job's id, where it stays until the call that waits for that
      id receives it. */
  lemma WorkersAnswer<R>(hash: Hash, shards: int, answer: Job -> R, s: State<R>, k: nat, id: JobId)
    requires |s.queues| == QueueCount(shards)
    ensures CanFire(s, Take(k)) ==>
              var s' := Fire(hash, shards, answer, s, Take(k));
              s.queues[k] == [s.queues[k][0]] + s'.queues[k] && s'.hands[k] == Sending(s.queues[k][0])
    ensures CanFire(s, Send(k)) ==>
              var s', job := Fire(hash, shards, answer, s, Send(k)), s.hands[k].job;
              && s'.sent == s.sent + [job] && s'.hands[k] == Free
              && job.id in s'.results && s'.results[job.id] == answer(job)
              && (id != job.id && id in s.results ==> id in s'.results && s'.results[id] == s.results[id])
    ensures CanFire(s, Receive(id)) ==>
              Fire(hash, shards, answer, s, Receive(id)).results == map j | j in s.results && j != id :: s.results[j]
  {}

  // ----- Order per chat -----

  /** The ordinary jobs of one chat, in order. */
  function Of(jobs: seq<Job>, c: ChatId): seq<Job> {
    if jobs == [] then []
    else (if jobs[0].chat == c && !jobs[0].urgent then [jobs[0]] else []) + Of(jobs[1..], c)
  }

  lemma {:induction false} OfConcat(a: seq<Job>, b: seq<Job>, c: ChatId)
    ensures Of(a + b, c) == Of(a, c) + Of(b, c)
  {
    if a == [] {
      assert a + b == b;
    } else {
      OfConcat(a[1..], b, c);
      assert (a + b)[1..] == a[1..] + b;
      var head := if a[0].chat == c && !a[0].urgent then [a[0]] else [];
      assert head + (Of(a[1..], c) + Of(b, c)) == (head + Of(a[1..], c)) + Of(b, c);
    }
  }

  lemma OfOne(job: Job, c: ChatId)
    ensures Of([job], c) == if job.chat == c && !job.urgent then [job] else []
  {
    assert [job][1..] == [];
  }

  function HandJobs(h: Hand): seq<Job> {
    if h.Free? then [] else [h.job]
  }

  /** Jobs only sit in the queue or with the worker of their own chat's shard. */
  ghost predicate InOwnShard<R>(hash: Hash, shards: int, s: State<R>) {
    && |s.queues| == |s.hands| == QueueCount(shards)
    && (forall k, i | 0 <= k < |s.queues| && 0 <= i < |s.queues[k]| :: ShardOf(hash, shards, s.queues[k][i].chat) == k)
    && (forall k | 0 <= k < |s.hands| && s.hands[k].Sending? :: ShardOf(hash, shards, s.hands[k].job.chat) == k)
  }

  /** What was pushed for a chat is what was sent, then what its shard's worker
      holds, then what is queued, in that order. */
  ghost predicate InOrder<R>(hash: Hash, shards: int, s: State<R>, c: ChatId)
    requires |s.queues| == |s.hands| == QueueCount(shards)
  {
    var k := ShardOf(hash, shards, c);
    Of(s.pushed, c) == Of(s.sent, c) + Of(HandJobs(s.hands[k]), c) + Of(s.queues[k], c)
  }

  lemma FireKeepsShards<R>(hash: Hash, shards: int, answer: Job -> R, s: State<R>, e: Event)
    requires InOwnShard(hash, shards, s) && CanFire(s, e)
    ensures InOwnShard(hash, shards, Fire(hash, shards, answer, s, e))
  {}

  lemma PushKeepsOrder(queue: seq<Job>, job: Job, c: ChatId)
    ensures Of(if job.urgent then [job] + queue else queue + [job], c) == Of(queue, c) + Of([job], c)
  {
    OfConcat(queue, [job], c);
    OfConcat([job], queue, c);
    OfOne(job, c);
    assert Of(queue, c) + [] == Of(queue, c) == [] + Of(queue, c);
  }

  lemma EnqueueKeepsOrder<R>(hash: Hash, shards: int, answer: Job -> R, s: State<R>, job: Job, c: ChatId)
    requires InOwnShard(hash, shards, s) && CanFire(s, Enqueue(job)) && InOrder(hash, shards, s, c)
    ensures InOrder(hash, shards, Fire(hash, shards, answer, s, Enqueue(job)), c)
  {
    var k := ShardOf(hash, shards, c);
    OfConcat(s.pushed, [job], c);
    OfOne(job, c);
    if ShardOf(hash, shards, job.chat) == k {
      PushKeepsOrder(s.queues[k], job, c);
    } else {
      assert Of(s.pushed, c) + [] == Of(s.pushed, c);
    }
  }

  lemma TakeKeepsOrder<R>(hash: Hash, shards: int, answer: Job -> R, s: State<R>, j: nat, c: ChatId)
    requires InOwnShard(hash, shards, s) && CanFire(s, Take(j)) && InOrder(hash, shards, s, c)
    ensures InOrder(hash, shards, Fire(hash, shards, answer, s, Take(j)), c)
  {
    if j == ShardOf(hash, shards, c) {
      var job, rest := s.queues[j][0], s.queues[j][1..];
      assert s.queues[j] == [job] + rest;
      OfConcat([job], rest, c);
      assert HandJobs(s.hands[j]) == [] && Of([], c) == [];
      assert Of(s.sent, c) + [] == Of(s.sent, c);
      AppendAssociates(Of(s.sent, c), Of([job], c), Of(rest, c));
    }
  }

  lemma AppendAssociates(a: seq<Job>, b: seq<Job>, c: seq<Job>)
    ensures a + b + c == a + (b + c)
  {}

  /** Whatever another chat's worker sends is not the chat's. */
  lemma OthersAreNotOf(job: Job, c: ChatId)
    requires job.chat != c
    ensures Of([job], c) == []
  {
    OfOne(job, c);
  }

  lemma SendKeepsOrder<R>(hash: Hash, shards: int, answer: Job -> R, s: State<R>, j: nat, c: ChatId)
    requires InOwnShard(hash, shards, s) && CanFire(s, Send(j)) && InOrder(hash, shards, s, c)
    ensures InOrder(hash, shards, Fire(hash, shards, answer, s, Send(j)), c)
  {
    var job := s.hands[j].job;
    OfConcat(s.sent, [job], c);
    if j == ShardOf(hash, shards, c) {
      assert HandJobs(s.hands[j]) == [job] && Of(HandJobs(Free), c) == [];
      assert Of(s.sent + [job], c) + [] == Of(s.sent + [job], c);
    } else {
      OthersAreNotOf(job, c);
      assert Of(s.sent, c) + [] == Of(s.sent, c);
    }
  }

  lemma FireKeepsOrder<R>(hash: Hash, shards: int, answer: Job -> R, s: State<R>, e: Event, c: ChatId)
    requires InOwnShard(hash, shards, s) && CanFire(s, e) && InOrder(hash, shards, s, c)
    ensures |Fire(hash, shards, answer, s, e).queues| == |Fire(hash, shards, answer, s, e).hands| == QueueCount(shards)
    ensures InOrder(hash, shards, Fire(hash, shards, answer, s, e), c)
  {
    match e {
      case Enqueue(job) => EnqueueKeepsOrder(hash, shards, answer, s, job, c);
      case Take(j) => TakeKeepsOrder(hash, shards, answer, s, j, c);
      case Send(j) => SendKeepsOrder(hash, shards, answer, s, j, c);
      case Receive(_) =>
    }
  }

  // ----- Each call gets its own result -----

  /** A posted result is the answer to the pushed job with that id. */
  ghost predicate OwnResults<R>(answer: Job -> R, s: State<R>) {
    && (forall i, j | 0 <= i < j < |s.pushed| :: s.pushed[i].id != s.pushed[j].id)
    && (forall k, i | 0 <= k < |s.queues| && 0 <= i < |s.queues[k]| :: s.queues[k][i] in s.pushed)
    && (forall k | 0 <= k < |s.hands| && s.hands[k].Sending? :: s.hands[k].job in s.pushed)
    && (forall id | id in s.results :: exists i :: 0 <= i < |s.pushed| && s.pushed[i].id == id
                                                   && s.results[id] == answer(s.pushed[i]))
  }

  lemma FireKeepsResults<R>(hash: Hash, shards: int, answer: Job -> R, s: State<R>, e: Event)
    requires |s.queues| == QueueCount(shards) && CanFire(s, e) && OwnResults(answer, s)
    ensures OwnResults(answer, Fire(hash, shards, answer, s, e))
  {
    var s' := Fire(hash, shards, answer, s, e);
    forall id | id in s'.results
      ensures exists i :: 0 <= i < |s'.pushed| && s'.pushed[i].id == id && s'.results[id] == answer(s'.pushed[i])
    {
      if e.Send? && id == s.hands[e.shard].job.id {
        assert s.hands[e.shard].job in s.pushed;
      } else {
        var i :| 0 <= i < |s.pushed| && s.pushed[i].id == id && s.results[id] == answer(s.pushed[i]);
        assert s'.pushed[i] == s.pushed[i];
      }
    }
  }

  // ----- Nothing lost, nothing twice -----

  function Jobs(queues: seq<seq<Job>>): multiset<Job> {
    if queues == [] then multiset{} else multiset(queues[0]) + Jobs(queues[1..])
  }

  lemma {:induction false} JobsUpdate(queues: seq<seq<Job>>, k: nat, q: seq<Job>, job: Job)
    requires k < |queues|
    ensures Jobs(queues[k := q])[job] + multiset(queues[k])[job] == Jobs(queues)[job] + multiset(q)[job]
  {
    if k == 0 {
      assert queues[0 := q][1..] == queues[1..];
    } else {
      JobsUpdate(queues[1..], k - 1, q, job);
      assert queues[k := q][1..] == queues[1..][k - 1 := q];
    }
  }

  lemma PushAdds(queues: seq<seq<Job>>, k: nat, job: Job, x: Job)
    requires k < |queues|
    ensures Jobs(PushTo(queues, k, job))[x] == Jobs(queues)[x] + multiset{job}[x]
  {
    JobsUpdate(queues, k, if job.urgent then [job] + queues[k] else queues[k] + [job], x);
  }

  lemma TakeRemoves(queues: seq<seq<Job>>, k: nat, x: Job)
    requires k < |queues| && queues[k] != []
    ensures Jobs(queues)[x] == Jobs(queues[k := queues[k][1..]])[x] + multiset{queues[k][0]}[x]
  {
    assert queues[k] == [queues[k][0]] + queues[k][1..];
    JobsUpdate(queues, k, queues[k][1..], x);
  }

  /** The shards together hold what a single queue would: pushing adds that one
      job to the whole, and taking from a shard removes that one job. */
  lemma ShardsHoldOneQueue(queues: seq<seq<Job>>, k: nat, job: Job)
    requires k < |queues|
    ensures Jobs(PushTo(queues, k, job)) == Jobs(queues) + multiset{job}
    ensures queues[k] != [] ==> Jobs(queues) == Jobs(queues[k := queues[k][1..]]) + multiset{queues[k][0]}
  {
    forall x ensures Jobs(PushTo(queues, k, job))[x] == (Jobs(queues) + multiset{job})[x] {
      PushAdds(queues, k, job, x);
    }
    if queues[k] != [] {
      forall x ensures Jobs(queues)[x] == (Jobs(queues[k := queues[k][1..]]) + multiset{queues[k][0]})[x] {
        TakeRemoves(queues, k, x);
      }
    }
  }

  function InHand(h: Hand, job: Job): nat {
    if h.Sending? && h.job == job then 1 else 0
  }

  /** The depth is the number of jobs in all the queues. */
  lemma {:induction false} DepthCountsJobs(queues: seq<seq<Job>>)
    ensures Depth(queues) == |Jobs(queues)|
  {
    if queues != [] { DepthCountsJobs(queues[1..]); }
  }

  function HandCount(hands: seq<Hand>, job: Job): nat {
    if hands == [] then 0 else InHand(hands[0], job) + HandCount(hands[1..], job)
  }

  lemma {:induction false} HandCountUpdate(hands: seq<Hand>, k: nat, h: Hand, job: Job)
    requires k < |hands|
    ensures HandCount(hands[k := h], job) + InHand(hands[k], job) == HandCount(hands, job) + InHand(h, job)
  {
    if k == 0 {
      assert hands[0 := h][1..] == hands[1..];
    } else {
      HandCountUpdate(hands[1..], k - 1, h, job);
      assert hands[k := h][1..] == hands[1..][k - 1 := h];
    }
  }

  /** Every push of a job is queued, in a worker's hands or sent, once each. */
  ghost predicate NothingLost<R>(s: State<R>, job: Job) {
    multiset(s.pushed)[job] == Jobs(s.queues)[job] + HandCount(s.hands, job) + multiset(s.sent)[job]
  }

  lemma FireLosesNothing<R>(hash: Hash, shards: int, answer: Job -> R, s: State<R>, e: Event, job: Job)
    requires |s.queues| == QueueCount(shards) && CanFire(s, e) && NothingLost(s, job)
    ensures NothingLost(Fire(hash, shards, answer, s, e), job)
  {
    match e {
      case Enqueue(pushed) => PushAdds(s.queues, ShardOf(hash, shards, pushed.chat), pushed, job);
      case Take(k) =>
        TakeRemoves(s.queues, k, job);
        HandCountUpdate(s.hands, k, Sending(s.queues[k][0]), job);
      case Send(k) => HandCountUpdate(s.hands, k, Free, job);
      case Receive(_) =>
    }
  }

  // ----- Every run -----

  ghost predicate CanRun<R>(hash: Hash, shards: int, answer: Job -> R, s: State<R>, events: seq<Event>)
    decreases |events|
  {
    events == [] ||
    (CanFire(s, events[0]) && |s.queues| == QueueCount(shards)
     && CanRun(hash, shards, answer, Fire(hash, shards, answer, s, events[0]), events[1..]))
  }

  ghost function Final<R>(hash: Hash, shards: int, answer: Job -> R, s: State<R>, events: seq<Event>): State<R>
    requires CanRun(hash, shards, answer, s, events)
    decreases |events|
  {
    if events == [] then s else Final(hash, shards, answer, Fire(hash, shards, answer, s, events[0]), events[1..])
  }

  function Start<R>(shards: int): State<R> {
    State(seq(QueueCount(shards), _ => []), seq(QueueCount(shards), _ => Free), [], [], map[])
  }

  lemma {:induction false} RunKeeps<R>(hash: Hash, shards: int, answer: Job -> R, s: State<R>, events: seq<Event>,
                                       c: ChatId, job: Job)
    requires CanRun(hash, shards, answer, s, events)
    requires InOwnShard(hash, shards, s) && InOrder(hash, shards, s, c)
    requires OwnResults(answer, s) && NothingLost(s, job)
    ensures var s' := Final(hash, shards, answer, s, events);
            && InOwnShard(hash, shards, s') && InOrder(hash, shards, s', c)
            && OwnResults(answer, s') && NothingLost(s', job)
    decreases |events|
  {
    if events != [] {
      FireKeepsShards(hash, shards, answer, s, events[0]);
      FireKeepsOrder(hash, shards, answer, s, events[0], c);
      FireKeepsResults(hash, shards, answer, s, events[0]);
      FireLosesNothing(hash, shards, answer, s, events[0], job);
      RunKeeps(hash, shards, answer, Fire(hash, shards, answer, s, events[0]), events[1..], c, job);
    }
  }

  lemma {:induction false} StartsEmpty(n: nat, job: Job)
    ensures Jobs(seq(n, _ => []))[job] == 0 && HandCount(seq(n, _ => Free), job) == 0
  {
    if n > 0 {
      StartsEmpty(n - 1, job);
      assert seq<seq<Job>>(n, _ => [])[1..] == seq<seq<Job>>(n - 1, _ => []);
      assert seq<Hand>(n, _ => Free)[1..] == seq<Hand>(n - 1, _ => Free);
    }
  }

  /** Under every interleaving of producers and workers no job is lost or sent
      twice, the jobs sent to a chat are a prefix of the jobs pushed for it
      (answerCallbackQuery aside), and any result waiting under a job's id is
      that job's own. */
  lemma SentInOrderWithOwnResults<R>(hash: Hash, shards: int, answer: Job -> R, events: seq<Event>, c: ChatId, job: Job)
    requires CanRun(hash, shards, answer, Start(shards), events)
    ensures var s := Final(hash, shards, answer, Start(shards), events);
            && Of(s.sent, c) <= Of(s.pushed, c)
            && NothingLost(s, job)
            && (job in s.pushed && job.id in s.results ==> s.results[job.id] == answer(job))
  {
    StartsEmpty(QueueCount(shards), job);
    RunKeeps(hash, shards, answer, Start(shards), events, c, job);
  }
}
