/** The adaptive sliding-window limiter (internal/fleet/limiter.go): additive
    increase, multiplicative decrease.  Times are nanoseconds, the budget is a
    real number of messages per second. */
module Limiter {
  import opened Options

  const SECOND: int := 1_000_000_000

  /** `max <= 0` means there is no ceiling. */
  datatype Config = Config(seed: real, floor: real, increment: real, decay: real, max: real, cooldown: int)

  function RealMax(a: real, b: real): real {
    if a >= b then a else b
  }

  /** NewLimiter's clamping of its configuration. */
  function Normalize(c: Config): Config {
    var floor := if c.floor < 0.1 then 0.1 else c.floor;
    Config(if c.seed < floor then floor else c.seed,
           floor,
           if c.increment <= 0.0 then 1.0 else c.increment,
           if c.decay <= 0.0 || c.decay >= 1.0 then 0.5 else c.decay,
           c.max,
           if c.cooldown <= 0 then 30 * SECOND else c.cooldown)
  }

  predicate Normal(c: Config) {
    c.floor >= 0.1 && c.seed >= c.floor && c.increment > 0.0 && 0.0 < c.decay < 1.0 && c.cooldown > 0
  }

  /** What the configured values become: a floor of at least 0.1, a seed of at least
      the floor, an increment of 1, a decay of a half and a cooldown of thirty
      seconds where the given ones make no sense.  Values that make sense stay. */
  lemma NormalizedValues(c: Config)
    ensures var n := Normalize(c);
            && Normal(n) && n.max == c.max
            && (c.floor >= 0.1 ==> n.floor == c.floor) && (c.floor < 0.1 ==> n.floor == 0.1)
            && (c.seed >= n.floor ==> n.seed == c.seed) && (c.seed < n.floor ==> n.seed == n.floor)
            && (c.increment > 0.0 ==> n.increment == c.increment) && (c.increment <= 0.0 ==> n.increment == 1.0)
            && (0.0 < c.decay < 1.0 ==> n.decay == c.decay) && (!(0.0 < c.decay < 1.0) ==> n.decay == 0.5)
            && (c.cooldown > 0 ==> n.cooldown == c.cooldown) && (c.cooldown <= 0 ==> n.cooldown == 30_000_000_000)
            && (Normal(c) ==> n == c)
  {}

  /** The limiter's fields; a zero time is None. */
  datatype State = State(budget: real, slots: seq<int>, lastGrow: Option<int>, lastFlood: Option<int>,
                         floodedUntil: Option<int>)

  /** Drops the leading slots that are older than the cutoff; later ones stay even if older. */
  function Pruned(slots: seq<int>, cutoff: int): seq<int> {
    if slots != [] && slots[0] < cutoff then Pruned(slots[1..], cutoff) else slots
  }

  function Grown(c: Config, s: State, now: int): State {
    if s.lastFlood.Some? && now - s.lastFlood.value < c.cooldown then s
    else if s.lastGrow.None? then s.(lastGrow := Some(now))
    else if now - s.lastGrow.value < SECOND then s
    else
      var raised := s.budget + c.increment;
      s.(budget := if c.max > 0.0 && raised > c.max then c.max else raised, lastGrow := Some(now))
  }

  function Allowed(budget: real): int {
    if budget.Floor < 1 then 1 else budget.Floor
  }

  /** reserve: the new state, the wait, and whether an admission was recorded. */
  function Reserve(c: Config, s: State, now: int): (State, int, bool) {
    var g := Grown(c, s.(slots := Pruned(s.slots, now - SECOND)), now);
    if |g.slots| < Allowed(g.budget) then (g.(slots := g.slots + [now]), 0, true)
    else (g, g.slots[0] + SECOND - now, false)
  }

  /** When the budget may grow: no flood within the cooldown, and a whole second
      since the last growth. */
  predicate Due(c: Config, s: State, now: int) {
    && (s.lastFlood.Some? ==> s.lastFlood.value + c.cooldown <= now)
    && s.lastGrow.Some? && s.lastGrow.value + 1_000_000_000 <= now
  }

  /** A due tick adds one increment, up to the ceiling if there is one, and restarts
      the second; the first tick after a quiet start only starts it; nothing else
      touches the budget. */
  lemma GrownExactlyWhen(c: Config, s: State, now: int)
    requires Normal(c)
    ensures var g := Grown(c, s, now);
            && g.slots == s.slots && g.lastFlood == s.lastFlood && g.floodedUntil == s.floodedUntil
            && (Due(c, s, now) ==> g.lastGrow == Some(now)
                                   && (c.max <= 0.0 ==> g.budget == s.budget + c.increment)
                                   && (c.max > 0.0 ==> g.budget <= c.max)
                                   && (c.max > 0.0 && s.budget + c.increment <= c.max
                                       ==> g.budget == s.budget + c.increment)
                                   && (c.max > 0.0 && s.budget + c.increment > c.max ==> g.budget == c.max))
            && (!Due(c, s, now) ==> g.budget == s.budget)
            && (!Due(c, s, now) ==> (g.lastGrow != s.lastGrow
                 <==> s.lastGrow.None? && (s.lastFlood.Some? ==> s.lastFlood.value + c.cooldown <= now)))
            && (g.lastGrow != s.lastGrow ==> g.lastGrow == Some(now))
  {}

  /** A reservation drops the leading slots older than one second.  It is admitted
      exactly when no slot is left or one more still fits into the budget; else the
      caller waits until the oldest slot is one second old. */
  lemma ReservedExactlyWhen(c: Config, s: State, now: int)
    ensures var (s', wait, admitted) := Reserve(c, s, now);
            var kept := if admitted && s'.slots != [] then s'.slots[..|s'.slots| - 1] else s'.slots;
            var n := |s.slots| - |kept|;
            && n >= 0 && kept == s.slots[n..]
            && (forall i | 0 <= i < n :: s.slots[i] < now - 1_000_000_000)
            && (n < |s.slots| ==> s.slots[n] >= now - 1_000_000_000)
            && (admitted <==> kept == [] || (|kept| + 1) as real <= s'.budget)
            && (admitted ==> wait == 0 && s'.slots == kept + [now])
            && (!admitted ==> kept != [] && wait == kept[0] + 1_000_000_000 - now)
            && s'.budget == Grown(c, s, now).budget && s'.lastGrow == Grown(c, s, now).lastGrow
            && s'.lastFlood == s.lastFlood && s'.floodedUntil == s.floodedUntil
  {
    PrunedIsSuffix(s.slots, now - 1_000_000_000);
    var pruned := Pruned(s.slots, now - SECOND);
    assert (pruned + [now])[..|pruned|] == pruned;
  }

  /** A penalty multiplies the budget by Decay, but not below Floor and not above a
      Max, notes the flood, and keeps the limiter flooded for the cooldown, or for
      the server's pause and the cooldown together. */
  lemma PenaltyValues(c: Config, s: State, now: int, retryAfter: int)
    requires Normal(c)
    ensures var p := Penalize(c, s, now, retryAfter);
            && p.slots == s.slots && p.lastGrow == s.lastGrow && p.lastFlood == Some(now)
            && p.floodedUntil == Some(now + c.cooldown + if retryAfter > 0 then retryAfter else 0)
            && (c.max <= 0.0 && s.budget * c.decay >= c.floor ==> p.budget == s.budget * c.decay)
            && (c.max <= 0.0 && s.budget * c.decay < c.floor ==> p.budget == c.floor)
            && (c.max > 0.0 && c.floor <= s.budget * c.decay <= c.max ==> p.budget == s.budget * c.decay)
            && (c.max > 0.0 && s.budget * c.decay < c.floor <= c.max ==> p.budget == c.floor)
            && (c.max > 0.0 && (s.budget * c.decay > c.max || c.floor > c.max) ==> p.budget == c.max)
  {}

  /** Products of reals are kept behind a name: the solver is slow on them. */
  function Times(a: real, b: real): real {
    a * b
  }

  function Clamped(c: Config, budget: real): real {
    var cut := RealMax(c.floor, budget);
    if c.max > 0.0 && cut > c.max then c.max else cut
  }

  function PenalizedBudget(c: Config, budget: real): real {
    Clamped(c, Times(budget, c.decay))
  }

  function Penalize(c: Config, s: State, now: int, retryAfter: int): State {
    s.(budget := PenalizedBudget(c, s.budget), lastFlood := Some(now),
       floodedUntil := Some(now + if retryAfter + c.cooldown < c.cooldown then c.cooldown else retryAfter + c.cooldown))
  }

  class Limiter {
    const cfg: Config
    var budget: real
    var slots: seq<int>
    var lastGrow: Option<int>
    var lastFlood: Option<int>
    var floodedUntil: Option<int>

    ghost function View(): State
      reads this
    {
      State(budget, slots, lastGrow, lastFlood, floodedUntil)
    }

    constructor (c: Config)
      ensures cfg == Normalize(c) && Normal(cfg)
      ensures View() == State(cfg.seed, [], None, None, None)
    {
      var n := Normalize(c);
      cfg, budget := n, n.seed;
      slots, lastGrow, lastFlood, floodedUntil := [], None, None, None;
    }

    method Prune(now: int)
      modifies this`slots
      ensures slots == Pruned(old(slots), now - SECOND)
    {
      var cutoff := now - SECOND;
      var idx := 0;
      while idx < |slots| && slots[idx] < cutoff
        invariant 0 <= idx <= |slots|
        invariant Pruned(slots, cutoff) == Pruned(slots[idx..], cutoff)
      {
        assert slots[idx..][1..] == slots[idx + 1..];
        idx := idx + 1;
      }
      if idx > 0 {
        slots := slots[idx..];
      }
    }

    method Grow(now: int)
      modifies this`budget, this`lastGrow
      ensures View() == Grown(cfg, old(View()), now)
    {
      if lastFlood.Some? && now - lastFlood.value < cfg.cooldown {
        return;
      }
      if lastGrow.None? {
        lastGrow := Some(now);
        return;
      }
      if now - lastGrow.value < SECOND {
        return;
      }
      budget := budget + cfg.increment;
      if cfg.max > 0.0 && budget > cfg.max {
        budget := cfg.max;
      }
      lastGrow := Some(now);
    }

    method TryReserve(now: int) returns (wait: int, ghost recorded: bool)
      modifies this
      ensures (View(), wait, recorded) == Reserve(cfg, old(View()), now)
      ensures slots != []
      ensures recorded ==> wait == 0 && slots[|slots| - 1] == now && (|slots| == 1 || |slots| as real <= budget)
      ensures !recorded ==> wait == slots[0] + 1_000_000_000 - now && (|slots| + 1) as real > budget
    {
      ReservedExactlyWhen(cfg, View(), now);
      Prune(now);
      Grow(now);
      var allowed := budget.Floor;
      if allowed < 1 {
        allowed := 1;
      }
      if |slots| < allowed {
        slots := slots + [now];
        return 0, true;
      }
      return slots[0] + SECOND - now, false;
    }

    method Flood(now: int, retryAfter: int) returns (pause: int)
      modifies this
      ensures View() == Penalize(cfg, old(View()), now, retryAfter)
      ensures pause == if retryAfter < 0 then 0 else retryAfter
    {
      budget := RealMax(cfg.floor, budget * cfg.decay);
      if cfg.max > 0.0 {
        budget := if budget < cfg.max then budget else cfg.max;
      }
      lastFlood := Some(now);
      var cooldown := retryAfter + cfg.cooldown;
      if cooldown < cfg.cooldown {
        cooldown := cfg.cooldown;
      }
      floodedUntil := Some(now + cooldown);
      pause := if retryAfter < 0 then 0 else retryAfter;
    }
  }

  // ----- Runs -----

  /** Each event carries the clock reading it took. */
  datatype Event = Ask(now: int) | Flood(now: int, retryAfter: int)

  /** The limiter with its history: every recorded admission, the largest clock
      reading so far and the first growth tick. */
  datatype Trace = Trace(state: State, recorded: seq<int>, latest: Option<int>, firstTick: Option<int>)

  function Later(latest: Option<int>, now: int): int {
    if latest.Some? && latest.value > now then latest.value else now
  }

  function Fire(c: Config, t: Trace, e: Event): Trace {
    match e
    case Ask(now) =>
      var (s, _, admitted) := Reserve(c, t.state, now);
      Trace(s, if admitted then t.recorded + [now] else t.recorded, Some(Later(t.latest, now)),
            if t.firstTick.None? then s.lastGrow else t.firstTick)
    case Flood(now, retryAfter) =>
      t.(state := Penalize(c, t.state, now, retryAfter), latest := Some(Later(t.latest, now)))
  }

  function Run(c: Config, t: Trace, events: seq<Event>): Trace
    decreases |events|
  {
    if events == [] then t else Run(c, Fire(c, t, events[0]), events[1..])
  }

  function Fresh(c: Config): Trace {
    Trace(State(c.seed, [], None, None, None), [], None, None)
  }

  // ----- The window -----

  /** Admissions stamped at `from` or later. */
  function CountSince(stamps: seq<int>, from: int): nat {
    if stamps == [] then 0 else (if stamps[0] >= from then 1 else 0) + CountSince(stamps[1..], from)
  }

  lemma {:induction false} CountSinceConcat(a: seq<int>, b: seq<int>, from: int)
    ensures CountSince(a + b, from) == CountSince(a, from) + CountSince(b, from)
  {
    if a == [] {
      assert a + b == b;
    } else {
      CountSinceConcat(a[1..], b, from);
      assert (a + b)[1..] == a[1..] + b;
    }
  }

  lemma {:induction false} CountSinceBounds(stamps: seq<int>, from: int)
    ensures CountSince(stamps, from) <= |stamps|
    ensures (forall i | 0 <= i < |stamps| :: stamps[i] < from) ==> CountSince(stamps, from) == 0
  {
    if stamps != [] { CountSinceBounds(stamps[1..], from); }
  }

  /** The slots are the last of the recorded admissions, and those dropped before
      them were stamped earlier than `from`. */
  ghost predicate EndsWith(recorded: seq<int>, slots: seq<int>, from: int) {
    var n := |recorded| - |slots|;
    && n >= 0
    && (forall i | 0 <= i < n :: recorded[i] < from)
    && (forall i | n <= i < |recorded| :: recorded[i] == slots[i - n])
  }

  /** Every dropped admission is more than a second older than the latest reading. */
  ghost predicate WindowInv(t: Trace) {
    if t.latest.Some? then EndsWith(t.recorded, t.state.slots, t.latest.value - SECOND) else t.recorded == t.state.slots
  }

  lemma {:induction false} PrunedIsSuffix(slots: seq<int>, cutoff: int)
    ensures var n := |slots| - |Pruned(slots, cutoff)|;
            && n >= 0 && Pruned(slots, cutoff) == slots[n..]
            && (forall i | 0 <= i < n :: slots[i] < cutoff)
            && (n < |slots| ==> slots[n] >= cutoff)
  {
    if slots != [] && slots[0] < cutoff {
      PrunedIsSuffix(slots[1..], cutoff);
    }
  }

  lemma ReserveSlots(c: Config, s: State, now: int)
    ensures var (s', _, admitted) := Reserve(c, s, now);
            var pruned := Pruned(s.slots, now - SECOND);
            s'.slots == if admitted then pruned + [now] else pruned
  {}

  /** Pruning drops slots that are too old, and a later reading forgets none. */
  lemma PruningKeepsEnd(recorded: seq<int>, slots: seq<int>, from: int, cutoff: int, later: int)
    requires EndsWith(recorded, slots, from) && from <= later && cutoff <= later
    ensures EndsWith(recorded, Pruned(slots, cutoff), later)
  {
    PrunedIsSuffix(slots, cutoff);
  }

  lemma RecordingKeepsEnd(recorded: seq<int>, slots: seq<int>, from: int, now: int)
    requires EndsWith(recorded, slots, from)
    ensures EndsWith(recorded + [now], slots + [now], from)
  {}

  lemma PruningKeepsWindow(t: Trace, now: int)
    requires WindowInv(t)
    ensures EndsWith(t.recorded, Pruned(t.state.slots, now - SECOND), Later(t.latest, now) - SECOND)
  {
    var from := if t.latest.Some? then t.latest.value - SECOND else now - SECOND;
    PruningKeepsEnd(t.recorded, t.state.slots, from, now - SECOND, Later(t.latest, now) - SECOND);
  }

  lemma AskKeepsWindow(c: Config, t: Trace, now: int)
    requires WindowInv(t)
    ensures WindowInv(Fire(c, t, Ask(now)))
  {
    AskEffect(c, t, now);
    WindowOf(t, Fire(c, t, Ask(now)), now, Reserve(c, t.state, now).2);
  }

  /** What an ask does to the history, apart from the budget. */
  predicate Asked(t: Trace, t': Trace, now: int, admitted: bool) {
    && t'.latest == Some(Later(t.latest, now))
    && var pruned := Pruned(t.state.slots, now - SECOND);
       if admitted then t'.recorded == t.recorded + [now] && t'.state.slots == pruned + [now]
       else t'.recorded == t.recorded && t'.state.slots == pruned
  }

  lemma AskEffect(c: Config, t: Trace, now: int)
    ensures Asked(t, Fire(c, t, Ask(now)), now, Reserve(c, t.state, now).2)
  {
    ReserveSlots(c, t.state, now);
  }

  lemma WindowOf(t: Trace, t': Trace, now: int, admitted: bool)
    requires WindowInv(t) && Asked(t, t', now, admitted)
    ensures WindowInv(t')
  {
    PruningKeepsWindow(t, now);
    if admitted {
      RecordingKeepsEnd(t.recorded, Pruned(t.state.slots, now - SECOND), Later(t.latest, now) - SECOND, now);
    }
  }

  lemma FloodKeepsWindow(c: Config, t: Trace, now: int, retryAfter: int)
    requires WindowInv(t)
    ensures WindowInv(Fire(c, t, Flood(now, retryAfter)))
  {}

  lemma FireKeepsWindow(c: Config, t: Trace, e: Event)
    requires WindowInv(t)
    ensures WindowInv(Fire(c, t, e))
  {
    match e
    case Ask(now) => AskKeepsWindow(c, t, now);
    case Flood(now, retryAfter) => FloodKeepsWindow(c, t, now, retryAfter);
  }

  lemma {:induction false} RunKeepsWindow(c: Config, t: Trace, events: seq<Event>)
    requires WindowInv(t)
    ensures WindowInv(Run(c, t, events))
    decreases |events|
  {
    if events != [] {
      FireKeepsWindow(c, t, events[0]);
      RunKeepsWindow(c, Fire(c, t, events[0]), events[1..]);
    }
  }

  /** Whenever an admission is recorded, in any run and whatever order the clock
      readings arrive in, the admissions recorded in the second before the
      largest reading so far number at most max(1, floor(budget)). */
  lemma WindowNeverExceedsBudget(c: Config, events: seq<Event>, now: int)
    ensures var t := Run(c, Fresh(c), events);
            var t' := Fire(c, t, Ask(now));
            Reserve(c, t.state, now).2
            ==> && CountSince(t'.recorded, t'.latest.value - SECOND) <= Allowed(t'.state.budget)
                && var recent := CountSince(t'.recorded, t'.latest.value - 1_000_000_000);
                   recent <= 1 || recent as real <= t'.state.budget
  {
    var t := Run(c, Fresh(c), events);
    RunKeepsWindow(c, Fresh(c), events);
    if Reserve(c, t.state, now).2 { AdmissionFitsWindow(c, t, now); }
  }

  lemma AdmissionFitsWindow(c: Config, t: Trace, now: int)
    requires WindowInv(t) && Reserve(c, t.state, now).2
    ensures var t' := Fire(c, t, Ask(now));
            && CountSince(t'.recorded, t'.latest.value - SECOND) <= Allowed(t'.state.budget)
            && var recent := CountSince(t'.recorded, t'.latest.value - 1_000_000_000);
               recent <= 1 || recent as real <= t'.state.budget
  {
    AskKeepsWindow(c, t, now);
    RecordedWindow(Fire(c, t, Ask(now)));
    AdmittedFits(c, t.state, now);
  }

  lemma AdmittedFits(c: Config, s: State, now: int)
    ensures var (s', _, admitted) := Reserve(c, s, now); admitted ==> |s'.slots| <= Allowed(s'.budget)
  {}

  /** Only the slots can fall into the last second. */
  lemma RecordedWindow(t: Trace)
    requires WindowInv(t) && t.latest.Some?
    ensures CountSince(t.recorded, t.latest.value - SECOND) <= |t.state.slots|
  {
    var n := |t.recorded| - |t.state.slots|;
    var from := t.latest.value - SECOND;
    assert t.recorded == t.recorded[..n] + t.recorded[n..] && |t.recorded[n..]| == |t.state.slots|;
    CountSinceConcat(t.recorded[..n], t.recorded[n..], from);
    CountSinceBounds(t.recorded[..n], from);
    CountSinceBounds(t.recorded[n..], from);
  }

  /** The wait is never negative, and it is zero without a recorded admission
      exactly when the window is full and its oldest slot is one second old. */
  lemma ZeroWaitWithoutRecord(c: Config, s: State, now: int)
    ensures var (s', wait, admitted) := Reserve(c, s, now);
            && wait >= 0
            && (admitted <==> |Pruned(s.slots, now - SECOND)| < Allowed(s'.budget))
            && (wait == 0 && !admitted <==> !admitted && s'.slots[0] + SECOND == now)
  {
    PrunedIsSuffix(s.slots, now - SECOND);
  }

  // ----- Admitted at once -----

  /** With a running clock the slots stay in order, and they are the admissions of
      the last second and perhaps some before. */
  ghost predicate InOrder(t: Trace) {
    && (forall i, j | 0 <= i < j < |t.state.slots| :: t.state.slots[i] <= t.state.slots[j])
    && (forall i | 0 <= i < |t.state.slots| :: t.latest.Some? && t.state.slots[i] <= t.latest.value)
  }

  lemma PruningKeepsInOrder(t: Trace, cutoff: int, i: int, j: int)
    requires InOrder(t) && 0 <= i < |Pruned(t.state.slots, cutoff)|
    ensures var pruned := Pruned(t.state.slots, cutoff);
            && t.latest.Some? && pruned[i] <= t.latest.value
            && (i < j < |pruned| ==> pruned[i] <= pruned[j])
  {
    PrunedIsSuffix(t.state.slots, cutoff);
  }

  lemma AskKeepsInOrder(t: Trace, t': Trace, now: int, admitted: bool)
    requires InOrder(t) && (t.latest.Some? ==> t.latest.value <= now) && Asked(t, t', now, admitted)
    ensures InOrder(t')
  {
    var pruned := Pruned(t.state.slots, now - SECOND);
    forall i, j | 0 <= i < |pruned| && i < j ensures pruned[i] <= now && (j < |pruned| ==> pruned[i] <= pruned[j]) {
      PruningKeepsInOrder(t, now - SECOND, i, j);
    }
    forall i | 0 <= i < |pruned| ensures pruned[i] <= now {
      PruningKeepsInOrder(t, now - SECOND, i, i);
    }
  }

  lemma FireKeepsInOrder(c: Config, t: Trace, e: Event)
    requires InOrder(t) && (t.latest.Some? ==> t.latest.value <= e.now)
    ensures InOrder(Fire(c, t, e))
  {
    if e.Ask? {
      AskEffect(c, t, e.now);
      AskKeepsInOrder(t, Fire(c, t, e), e.now, Reserve(c, t.state, e.now).2);
    }
  }

  lemma {:induction false} RunKeepsInOrder(c: Config, t: Trace, events: seq<Event>)
    requires InOrder(t) && ClockRuns(t, c, events)
    ensures InOrder(Run(c, t, events))
    decreases |events|
  {
    if events != [] {
      FireKeepsInOrder(c, t, events[0]);
      RunKeepsInOrder(c, Fire(c, t, events[0]), events[1..]);
    }
  }

  lemma {:induction false} AllRecent(stamps: seq<int>, from: int)
    requires forall i | 0 <= i < |stamps| :: stamps[i] >= from
    ensures CountSince(stamps, from) == |stamps|
  {
    if stamps != [] { AllRecent(stamps[1..], from); }
  }

  /** The slots a reservation keeps are exactly the admissions of the last second. */
  lemma KeptAreRecent(c: Config, t: Trace, now: int)
    requires WindowInv(t) && InOrder(t) && (t.latest.Some? ==> t.latest.value <= now)
    ensures CountSince(t.recorded, now - SECOND) == |Pruned(t.state.slots, now - SECOND)|
  {
    var pruned := Pruned(t.state.slots, now - SECOND);
    PruningKeepsWindow(t, now);
    PrunedIsSuffix(t.state.slots, now - SECOND);
    var n := |t.recorded| - |pruned|;
    assert t.recorded == t.recorded[..n] + t.recorded[n..] && t.recorded[n..] == pruned;
    CountSinceConcat(t.recorded[..n], pruned, now - SECOND);
    CountSinceBounds(t.recorded[..n], now - SECOND);
    AllRecent(pruned, now - SECOND);
  }

  /** In any run with a clock that does not go back, a reservation is admitted at
      once if and only if the last second holds no admission or one more admission
      fits into the budget. */
  lemma AdmittedExactlyWhen(c: Config, events: seq<Event>, now: int)
    requires ClockRuns(Fresh(c), c, events)
    requires var t := Run(c, Fresh(c), events); t.latest.Some? ==> t.latest.value <= now
    ensures var t := Run(c, Fresh(c), events);
            var (s', wait, admitted) := Reserve(c, t.state, now);
            var recent := CountSince(t.recorded, now - 1_000_000_000);
            admitted <==> recent == 0 || (recent + 1) as real <= s'.budget
  {
    var t := Run(c, Fresh(c), events);
    RunKeepsWindow(c, Fresh(c), events);
    RunKeepsInOrder(c, Fresh(c), events);
    KeptAreRecent(c, t, now);
    ReservedExactlyWhen(c, t.state, now);
    ReserveSlots(c, t.state, now);
  }

  // ----- The budget -----

  /** The highest budget reachable `elapsed` nanoseconds after the first growth tick. */
  function GrowthBound(c: Config, elapsed: int): real {
    c.seed + c.increment * (elapsed / SECOND) as real
  }

  ghost predicate BudgetInv(c: Config, t: Trace) {
    var s := t.state;
    && s.budget > 0.0
    && (c.max <= 0.0 || c.max >= c.floor ==> s.budget >= c.floor)
    && (c.max > 0.0 ==> s.budget <= RealMax(c.seed, c.max))
    && (s.lastGrow.Some? <==> t.firstTick.Some?)
    && (s.lastGrow.None? ==> s.budget <= c.seed)
    && (s.lastGrow.Some? ==>
          && t.latest.Some? && t.firstTick.value <= s.lastGrow.value <= t.latest.value
          && s.budget <= GrowthBound(c, s.lastGrow.value - t.firstTick.value))
  }

  lemma GrowthBoundGrows(c: Config, early: int, late: int)
    requires Normal(c) && 0 <= early && early + SECOND <= late
    ensures GrowthBound(c, early) + c.increment <= GrowthBound(c, late)
  {
    var a, b := early / SECOND, late / SECOND;
    assert a + 1 <= b;
    assert c.increment * (a + 1) as real <= c.increment * b as real;
    assert c.increment * (a + 1) as real == c.increment * a as real + c.increment;
  }

  lemma GrowthBoundMonotone(c: Config, early: int, late: int)
    requires Normal(c) && 0 <= early <= late
    ensures c.seed <= GrowthBound(c, early) <= GrowthBound(c, late)
  {
    var a, b := early / SECOND, late / SECOND;
    assert 0 <= a <= b;
    assert c.increment * 0.0 <= c.increment * a as real <= c.increment * b as real;
  }

  lemma ProductLess(b: real, d: real)
    requires b > 0.0 && 0.0 < d < 1.0
    ensures b * d < b
  {}

  lemma ProductShrinks(b: real, d: real)
    requires b > 0.0 && 0.0 < d < 1.0
    ensures 0.0 < Times(b, d)
    ensures Times(b, d) < b
  {
    ProductLess(b, d);
    var x := b * d;
    assert x < b;
    assert Times(b, d) == x;
  }

  lemma ClampedBounds(c: Config, cut: real, budget: real)
    requires c.floor >= 0.1 && 0.0 < cut < budget
    ensures 0.0 < Clamped(c, cut) <= RealMax(c.floor, budget)
    ensures c.max <= 0.0 || c.max >= c.floor ==> Clamped(c, cut) >= c.floor
    ensures c.max > 0.0 ==> Clamped(c, cut) <= c.max
  {}

  lemma PenaltyShrinks(c: Config, budget: real)
    requires Normal(c) && budget > 0.0
    ensures 0.0 < PenalizedBudget(c, budget) <= RealMax(c.floor, budget)
    ensures c.max <= 0.0 || c.max >= c.floor ==> PenalizedBudget(c, budget) >= c.floor
    ensures c.max > 0.0 ==> PenalizedBudget(c, budget) <= c.max
  {
    ProductShrinks(budget, c.decay);
    ClampedBounds(c, Times(budget, c.decay), budget);
  }

  lemma AskKeepsBudget(c: Config, t: Trace, now: int)
    requires Normal(c) && BudgetInv(c, t) && (t.latest.Some? ==> t.latest.value <= now)
    ensures BudgetInv(c, Fire(c, t, Ask(now)))
  {
    var s := t.state;
    if s.lastGrow.Some? && now - s.lastGrow.value >= SECOND {
      GrowthBoundGrows(c, s.lastGrow.value - t.firstTick.value, now - t.firstTick.value);
    }
    GrowthBoundMonotone(c, 0, 0);
  }

  lemma FloodKeepsBudget(c: Config, t: Trace, now: int, retryAfter: int)
    requires Normal(c) && BudgetInv(c, t) && (t.latest.Some? ==> t.latest.value <= now)
    ensures BudgetInv(c, Fire(c, t, Flood(now, retryAfter)))
  {
    PenaltyShrinks(c, t.state.budget);
    if t.state.lastGrow.Some? {
      var elapsed := t.state.lastGrow.value - t.firstTick.value;
      GrowthBoundMonotone(c, elapsed, elapsed);
    }
  }

  ghost predicate ClockRuns(t: Trace, c: Config, events: seq<Event>)
    decreases |events|
  {
    events == [] ||
    ((t.latest.Some? ==> t.latest.value <= events[0].now) && ClockRuns(Fire(c, t, events[0]), c, events[1..]))
  }

  lemma {:induction false} RunKeepsBudget(c: Config, t: Trace, events: seq<Event>)
    requires Normal(c) && BudgetInv(c, t) && ClockRuns(t, c, events)
    ensures BudgetInv(c, Run(c, t, events))
    decreases |events|
  {
    if events != [] {
      match events[0] {
        case Ask(now) => AskKeepsBudget(c, t, now);
        case Flood(now, retryAfter) => FloodKeepsBudget(c, t, now, retryAfter);
      }
      RunKeepsBudget(c, Fire(c, t, events[0]), events[1..]);
    }
  }

  /** In every run with a clock that does not go back, from any configuration:
      the budget stays at least Floor (unless a positive Max lies below it), at
      most max(Seed, Max) when there is a Max, and at most Seed plus one
      Increment per whole second since the first growth tick. */
  lemma BudgetStaysInBounds(raw: Config, events: seq<Event>)
    requires var c := Normalize(raw); ClockRuns(Fresh(c), c, events)
    ensures var c := Normalize(raw);
            var t := Run(c, Fresh(c), events);
            && (c.max <= 0.0 || c.max >= c.floor ==> t.state.budget >= c.floor)
            && (c.max > 0.0 ==> t.state.budget <= RealMax(c.seed, c.max))
            && (t.firstTick.Some? && t.latest.Some?
                ==> t.state.budget <= GrowthBound(c, t.latest.value - t.firstTick.value))
            && (t.firstTick.None? ==> t.state.budget <= c.seed)
  {
    var c := Normalize(raw);
    var t := Run(c, Fresh(c), events);
    RunKeepsBudget(c, Fresh(c), events);
    if t.firstTick.Some? {
      GrowthBoundMonotone(c, t.state.lastGrow.value - t.firstTick.value, t.latest.value - t.firstTick.value);
    }
  }

  /** Asks that are at least one second apart, the first one second after `last`. */
  predicate SecondsApart(last: int, events: seq<Event>)
    decreases |events|
  {
    events == [] ||
    (events[0].Ask? && last + 1_000_000_000 <= events[0].now && SecondsApart(events[0].now, events[1..]))
  }

  lemma QuietSecond(c: Config, t: Trace, now: int)
    requires Normal(c) && c.max <= 0.0
    requires t.state.lastGrow.Some? && t.state.lastFlood.None? && t.state.lastGrow.value + 1_000_000_000 <= now
    ensures var s := Fire(c, t, Ask(now)).state;
            s.budget == t.state.budget + c.increment && s.lastGrow == Some(now) && s.lastFlood.None?
  {
    ReservedExactlyWhen(c, t.state, now);
    GrownExactlyWhen(c, t.state, now);
  }

  /** Without a flood and without a Max, each second of sending adds one increment. */
  lemma {:induction false} QuietSecondsGrow(c: Config, t: Trace, events: seq<Event>)
    requires Normal(c) && c.max <= 0.0
    requires t.state.lastGrow.Some? && t.state.lastFlood.None? && SecondsApart(t.state.lastGrow.value, events)
    ensures Run(c, t, events).state.budget == t.state.budget + Times(c.increment, |events| as real)
    decreases |events|
  {
    if events == [] {
      TimesZero(c.increment);
    } else {
      QuietSecond(c, t, events[0].now);
      QuietSecondsGrow(c, Fire(c, t, events[0]), events[1..]);
      TimesOneMore(c.increment, |events| - 1);
    }
  }

  lemma TimesZero(x: real)
    ensures Times(x, 0 as real) == 0.0
  {}

  lemma TimesOneMore(x: real, k: nat)
    ensures x + Times(x, k as real) == Times(x, (k + 1) as real)
  {}

  function Power(d: real, k: nat): real {
    if k == 0 then 1.0 else Times(d, Power(d, k - 1))
  }

  function Penalties(c: Config, budget: real, k: nat): real {
    if k == 0 then budget else PenalizedBudget(c, Penalties(c, budget, k - 1))
  }

  /** Without a Max, `k` floods in a row multiply the budget by Decay^k, down to Floor. */
  lemma {:induction false} RepeatedPenalties(c: Config, budget: real, k: nat)
    requires Normal(c) && c.max <= 0.0 && budget >= c.floor
    ensures Penalties(c, budget, k) == RealMax(c.floor, Times(budget, Power(c.decay, k)))
  {
    if k > 0 {
      RepeatedPenalties(c, budget, k - 1);
      PenaltyStep(c, budget, Power(c.decay, k - 1));
    }
  }

  lemma {:induction false} PenaltyFirst(c: Config, budget: real, k: nat)
    ensures Penalties(c, PenalizedBudget(c, budget), k) == PenalizedBudget(c, Penalties(c, budget, k))
  {
    if k > 0 { PenaltyFirst(c, budget, k - 1); }
  }

  /** Consecutive floods of a run are repeated penalties. */
  lemma {:induction false} FloodsPenalize(c: Config, t: Trace, events: seq<Event>)
    requires forall e | e in events :: e.Flood?
    ensures Run(c, t, events).state.budget == Penalties(c, t.state.budget, |events|)
    decreases |events|
  {
    if events != [] {
      assert events[0] in events;
      FloodsPenalize(c, Fire(c, t, events[0]), events[1..]);
      PenaltyFirst(c, t.state.budget, |events| - 1);
    }
  }

  /** After any run with a clock that does not go back and without a Max, floods
      in a row multiply the budget by Decay each, down to Floor. */
  lemma ConsecutiveFloods(raw: Config, before: seq<Event>, floods: seq<Event>)
    requires var c := Normalize(raw); c.max <= 0.0 && ClockRuns(Fresh(c), c, before)
    requires forall e | e in floods :: e.Flood?
    ensures var c := Normalize(raw);
            var t := Run(c, Fresh(c), before);
            Run(c, t, floods).state.budget == RealMax(c.floor, Times(t.state.budget, Power(c.decay, |floods|)))
  {
    var c := Normalize(raw);
    var t := Run(c, Fresh(c), before);
    BudgetStaysInBounds(raw, before);
    FloodsPenalize(c, t, floods);
    RepeatedPenalties(c, t.state.budget, |floods|);
  }

  lemma PenaltyStep(c: Config, b: real, p: real)
    requires Normal(c) && c.max <= 0.0
    ensures PenalizedBudget(c, RealMax(c.floor, Times(b, p))) == RealMax(c.floor, Times(b, Times(c.decay, p)))
  {
    ProductShrinks(c.floor, c.decay);
    ScaleMax(c.floor, Times(b, p), c.decay);
    Reassociate(b, p, c.decay);
  }

  lemma Reassociate(a: real, b: real, c: real)
    ensures Times(Times(a, b), c) == Times(a, Times(c, b))
  {}

  lemma ScaleMax(a: real, b: real, d: real)
    requires d > 0.0
    ensures Times(RealMax(a, b), d) == RealMax(Times(a, d), Times(b, d))
  {
    if a >= b { assert (a - b) * d >= 0.0; } else { assert (b - a) * d > 0.0; }
  }
}
