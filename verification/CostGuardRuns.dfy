/** Whole runs of the cost guard shared by k callers. A caller checks, calls the LLM and
    records, and holds no lock across the three, so the lock sections of different callers
    interleave freely. A slot is one call in flight; a run with at most k calls in flight
    is a run over k slots. */
module CostGuardRuns {
  import opened Wrappers
  import opened CostGuards

  datatype Spend = Spend(day: nat, model: string, input: nat, output: nat, cost: real)

  datatype Phase =
    | Idle
    | BudgetCheck
    | RateCheck
    | Calling
    | Recording(entry: Spend)
    | Tallying(entry: Spend)

  /** `actions` and `spends` log every recorded time and cost; `tallied` and `lost` log the
      entries that reached the model counters and those of callers cancelled before that. */
  datatype System = System(
    guard: GuardState, now: nat, today: nat, slots: seq<Phase>,
    actions: seq<nat>, spends: seq<Spend>, tallied: seq<Spend>, lost: seq<Spend>)

  datatype Event =
    | Tick(now: nat, today: nat)
    | Begin(slot: nat, flagRead: bool)  // the relaxed load of the flag may return any value
    | CheckBudget(slot: nat)
    | CheckRate(slot: nat)
    | Cancel(slot: nat)
    | RecordCost(slot: nat, model: string, input: nat, output: nat, cost: real)
    | RecordAction(slot: nat)
    | RecordTokens(slot: nat)
    | ObserveActions

  predicate At(s: System, slot: nat, p: Phase -> bool) {
    slot < |s.slots| && p(s.slots[slot])
  }

  predicate Enabled(s: System, e: Event) {
    match e
    case Tick(now, today) => s.now <= now && s.today <= today
    case Begin(i, _) => At(s, i, (p: Phase) => p.Idle?)
    case CheckBudget(i) => At(s, i, (p: Phase) => p.BudgetCheck?)
    case CheckRate(i) => At(s, i, (p: Phase) => p.RateCheck?)
    case Cancel(i) => i < |s.slots|
    case RecordCost(i, _, _, _, _) => At(s, i, (p: Phase) => p.Calling?)
    case RecordAction(i) => At(s, i, (p: Phase) => p.Recording?)
    case RecordTokens(i) => At(s, i, (p: Phase) => p.Tallying?)
    case ObserveActions => true
  }

  function Next(cfg: Config, s: System, e: Event): System
    requires Enabled(s, e)
  {
    match e
    case Tick(now, today) => s.(now := now, today := today)
    case Begin(i, flagRead) => s.(slots := s.slots[i := if flagRead then Idle else BudgetCheck])
    case CheckBudget(i) =>
      var (g, v) := BudgetSection(cfg, s.guard);
      s.(guard := g, slots := s.slots[i := if v.Allowed? then RateCheck else Idle])
    case CheckRate(i) =>
      var (g, v) := RateSection(cfg, s.guard, s.now);
      s.(guard := g, slots := s.slots[i := if v.Allowed? then Calling else Idle])
    case Cancel(i) =>
      s.(slots := s.slots[i := Idle], lost := s.lost + Unfinished(s.slots[i]))
    case RecordCost(i, model, input, output, cost) =>
      var entry := Spend(s.today, model, input, output, cost);
      s.(guard := CostSection(cfg, s.guard, s.today, cost),
         slots := s.slots[i := Recording(entry)], spends := s.spends + [entry])
    case RecordAction(i) =>
      s.(guard := ActionSection(s.guard, s.now),
         slots := s.slots[i := Tallying(s.slots[i].entry)], actions := s.actions + [s.now])
    case RecordTokens(i) =>
      var t := s.slots[i].entry;
      s.(guard := TokensSection(s.guard, t.model, t.input, t.output, t.cost),
         slots := s.slots[i := Idle], tallied := s.tallied + [t])
    case ObserveActions => s.(guard := s.guard.(window := Drain(s.guard.window, s.now)))
  }

  function Unfinished(p: Phase): seq<Spend> {
    if p.Recording? || p.Tallying? then [p.entry] else []
  }

  function Start(k: nat, now: nat, today: nat): System {
    System(InitialGuard(today), now, today, seq(k, _ => Idle), [], [], [], [])
  }

  predicate ValidRun(cfg: Config, s: System, events: seq<Event>)
    decreases events
  {
    events != [] ==> Enabled(s, events[0]) && ValidRun(cfg, Next(cfg, s, events[0]), events[1..])
  }

  function Final(cfg: Config, s: System, events: seq<Event>): System
    requires ValidRun(cfg, s, events)
    decreases events
  {
    if events == [] then s else Final(cfg, Next(cfg, s, events[0]), events[1..])
  }

  /** Every recorded cost lies between zero and m. */
  predicate CostsWithin(events: seq<Event>, m: real) {
    forall i :: 0 <= i < |events| && events[i].RecordCost? ==> 0.0 <= events[i].cost <= m
  }

  predicate CostsNonNegative(events: seq<Event>) {
    forall i :: 0 <= i < |events| && events[i].RecordCost? ==> 0.0 <= events[i].cost
  }

  // ---- counting ----

  function CountSince(log: seq<nat>, a: nat): nat {
    if log == [] then 0
    else CountSince(log[..|log| - 1], a) + if log[|log| - 1] >= a then 1 else 0
  }

  /** Actions inside the closed window from a to b. */
  function CountIn(log: seq<nat>, a: nat, b: nat): nat {
    if log == [] then 0
    else CountIn(log[..|log| - 1], a, b) + if a <= log[|log| - 1] <= b then 1 else 0
  }

  function DaySum(spends: seq<Spend>, day: nat): real {
    if spends == [] then 0.0
    else
      var last := spends[|spends| - 1];
      DaySum(spends[..|spends| - 1], day) + if last.day == day then last.cost else 0.0
  }

  function Slots(slots: seq<Phase>, p: Phase -> bool): nat {
    if slots == [] then 0 else (if p(slots[0]) then 1 else 0) + Slots(slots[1..], p)
  }

  lemma {:induction false} SlotsUpdate(slots: seq<Phase>, i: nat, x: Phase, p: Phase -> bool)
    requires i < |slots|
    ensures Slots(slots[i := x], p) + (if p(slots[i]) then 1 else 0) == Slots(slots, p) + (if p(x) then 1 else 0)
  {
    if i > 0 {
      SlotsUpdate(slots[1..], i - 1, x, p);
      assert slots[i := x][1..] == slots[1..][i - 1 := x];
    } else {
      assert slots[i := x][1..] == slots[1..];
    }
  }

  lemma {:induction false} SlotsBounded(slots: seq<Phase>, p: Phase -> bool)
    ensures Slots(slots, p) <= |slots|
  {
    if slots != [] { SlotsBounded(slots[1..], p); }
  }

  lemma {:induction false} NoSlots(slots: seq<Phase>, p: Phase -> bool)
    requires forall i :: 0 <= i < |slots| ==> !p(slots[i])
    ensures Slots(slots, p) == 0
  {
    if slots != [] { NoSlots(slots[1..], p); }
  }

  /** Callers that passed the rate check and have not recorded their action yet. */
  function RatePassed(slots: seq<Phase>): nat { Slots(slots, IsRatePassed) }

  predicate IsRatePassed(p: Phase) { p.Calling? || p.Recording? }

  /** Callers that passed the budget check and have not recorded their cost yet. */
  function BudgetPassed(slots: seq<Phase>): nat { Slots(slots, IsBudgetPassed) }

  predicate IsBudgetPassed(p: Phase) { p.RateCheck? || p.Calling? }

  // ---- the hourly limit ----

  predicate Sorted(log: seq<nat>) {
    forall i, j :: 0 <= i < j < |log| ==> log[i] <= log[j]
  }

  /** The deque is the log without a prefix that has expired. */
  predicate WindowInv(s: System) {
    && Sorted(s.actions)
    && (forall i :: 0 <= i < |s.actions| ==> s.actions[i] <= s.now)
    && WindowOf(s.actions, s.guard.window, s.now)
  }

  predicate WindowOf(log: seq<nat>, window: seq<nat>, now: nat) {
    && |window| <= |log| && window == log[|log| - |window|..]
    && (forall i :: 0 <= i < |log| - |window| ==> log[i] + HOUR < now)
  }

  predicate RateInvAt(limit: nat, k: nat, s: System, a: nat) {
    && CountIn(s.actions, a, a + HOUR) <= limit + k - 1
    && (s.now <= a + HOUR ==> CountSince(s.actions, a) + RatePassed(s.slots) <= limit + k - 1)
  }

  ghost predicate RateInv(limit: nat, k: nat, s: System) {
    forall a: nat :: RateInvAt(limit, k, s, a)
  }

  /** How many times have expired at the front of the window. */
  function Expired(window: seq<nat>, cutoff: nat): (n: nat)
    ensures n <= |window|
  {
    if window != [] && window[0] < cutoff then 1 + Expired(window[1..], cutoff) else 0
  }

  lemma {:induction false} DropIsSuffix(window: seq<nat>, cutoff: nat)
    ensures DropExpired(window, cutoff) == window[Expired(window, cutoff)..]
  {
    if window != [] && window[0] < cutoff {
      DropIsSuffix(window[1..], cutoff);
      SuffixOfRest(window, Expired(window[1..], cutoff));
    }
  }

  lemma {:induction false} SuffixOfRest(window: seq<nat>, n: nat)
    requires n < |window|
    ensures window[1..][n..] == window[n + 1..]
  {
  }

  lemma {:induction false} DroppedAreExpired(window: seq<nat>, cutoff: nat, i: nat)
    requires i < Expired(window, cutoff)
    ensures window[i] < cutoff
  {
    if i > 0 { DroppedAreExpired(window[1..], cutoff, i - 1); }
  }

  /** Draining drops exactly the times that have expired. */
  lemma {:induction false} DrainIsExact(window: seq<nat>, cutoff: nat)
    requires Sorted(window)
    ensures var n := Expired(window, cutoff);
            DropExpired(window, cutoff) == window[n..]
            && forall i :: 0 <= i < |window| ==> (i < n <==> window[i] < cutoff)
  {
    DropIsSuffix(window, cutoff);
    forall i | 0 <= i < |window|
      ensures i < Expired(window, cutoff) <==> window[i] < cutoff
    {
      if i < Expired(window, cutoff) { DroppedAreExpired(window, cutoff, i); }
      else { FirstKept(window, cutoff); }
    }
  }

  lemma {:induction false} FirstKept(window: seq<nat>, cutoff: nat)
    ensures Expired(window, cutoff) < |window| ==> window[Expired(window, cutoff)] >= cutoff
  {
    if window != [] && window[0] < cutoff { FirstKept(window[1..], cutoff); }
  }

  lemma {:induction false} CountSinceSplit(log: seq<nat>, n: nat, a: nat)
    requires n <= |log|
    requires forall i :: 0 <= i < n ==> log[i] < a
    ensures CountSince(log, a) <= |log| - n
  {
    if n < |log| {
      CountSinceSplit(log[..|log| - 1], n, a);
    } else if log != [] {
      CountSinceSplit(log[..|log| - 1], n - 1, a);
    }
  }

  function Drained(s: System): System {
    s.(guard := s.guard.(window := Drain(s.guard.window, s.now)))
  }

  lemma {:induction false} DrainKeepsWindow(s: System)
    requires WindowInv(s)
    ensures WindowInv(Drained(s))
  {
    if s.now >= HOUR { DropKeepsWindow(s.actions, s.guard.window, s.now); }
  }

  lemma {:induction false} DropKeepsWindow(log: seq<nat>, window: seq<nat>, now: nat)
    requires WindowOf(log, window, now) && now >= HOUR
    ensures WindowOf(log, DropExpired(window, now - HOUR), now)
  {
    var m, n := |log| - |window|, Expired(window, now - HOUR);
    DropIsSuffix(window, now - HOUR);
    SuffixOfSuffix(log, m, n);
    forall i | 0 <= i < m + n
      ensures log[i] + HOUR < now
    {
      if i >= m {
        DroppedAreExpired(window, now - HOUR, i - m);
        assert log[i] == window[i - m];
      }
    }
  }

  lemma {:induction false} SuffixOfSuffix(log: seq<nat>, m: nat, n: nat)
    requires m + n <= |log|
    ensures log[m..][n..] == log[m + n..]
  {
  }

  /** What a rate check sees after draining covers every window that is still open. */
  lemma {:induction false} DrainCovers(s: System, a: nat)
    requires WindowInv(s) && s.now <= a + HOUR
    ensures CountSince(s.actions, a) <= |Drain(s.guard.window, s.now)|
  {
    DrainKeepsWindow(s);
    CountSinceSplit(s.actions, |s.actions| - |Drain(s.guard.window, s.now)|, a);
  }

  lemma {:induction false} CountInLeSince(log: seq<nat>, a: nat, b: nat)
    ensures CountIn(log, a, b) <= CountSince(log, a)
  {
    if log != [] { CountInLeSince(log[..|log| - 1], a, b); }
  }

  /** A step that records nothing and lets no further caller pass keeps the bound. */
  lemma {:induction false} QuietStep(limit: nat, k: nat, s: System, t: System, a: nat)
    requires RateInvAt(limit, k, s, a)
    requires t.actions == s.actions && s.now <= t.now && RatePassed(t.slots) <= RatePassed(s.slots)
    ensures RateInvAt(limit, k, t, a)
  {
  }

  lemma {:induction false} RecordStep(cfg: Config, k: nat, s: System, i: nat, a: nat)
    requires cfg.maxActionsPerHour.Some? && Enabled(s, RecordAction(i)) && k >= 1
    requires RateInvAt(cfg.maxActionsPerHour.value, k, s, a)
    ensures RateInvAt(cfg.maxActionsPerHour.value, k, Next(cfg, s, RecordAction(i)), a)
  {
    var t := Next(cfg, s, RecordAction(i));
    SlotsUpdate(s.slots, i, t.slots[i], IsRatePassed);
    CountAppended(s.actions, s.now, a);
    CountInLeSince(s.actions, a, a + HOUR);
  }

  lemma {:induction false} CountAppended(log: seq<nat>, t: nat, a: nat)
    ensures CountIn(log + [t], a, a + HOUR) == CountIn(log, a, a + HOUR) + if a <= t <= a + HOUR then 1 else 0
    ensures CountSince(log + [t], a) == CountSince(log, a) + if t >= a then 1 else 0
  {
    assert (log + [t])[..|log|] == log;
  }

  lemma {:induction false} PassStep(cfg: Config, k: nat, s: System, i: nat, a: nat)
    requires cfg.maxActionsPerHour.Some? && k >= 1 && |s.slots| == k && Enabled(s, CheckRate(i))
    requires WindowInv(s) && RateInvAt(cfg.maxActionsPerHour.value, k, s, a)
    ensures RateInvAt(cfg.maxActionsPerHour.value, k, Next(cfg, s, CheckRate(i)), a)
  {
    var t := Next(cfg, s, CheckRate(i));
    SlotsUpdate(s.slots, i, t.slots[i], IsRatePassed);
    SlotsBounded(t.slots, IsRatePassed);
    if s.now <= a + HOUR { DrainCovers(s, a); }
  }

  lemma {:induction false} RateStepAt(cfg: Config, k: nat, s: System, e: Event, a: nat)
    requires cfg.maxActionsPerHour.Some? && k >= 1 && |s.slots| == k && Enabled(s, e)
    requires WindowInv(s) && RateInvAt(cfg.maxActionsPerHour.value, k, s, a)
    ensures RateInvAt(cfg.maxActionsPerHour.value, k, Next(cfg, s, e), a)
  {
    match e {
      case RecordAction(i) => RecordStep(cfg, k, s, i, a);
      case CheckRate(i) => PassStep(cfg, k, s, i, a);
      case Tick(_, _) => QuietStep(cfg.maxActionsPerHour.value, k, s, Next(cfg, s, e), a);
      case ObserveActions => QuietStep(cfg.maxActionsPerHour.value, k, s, Next(cfg, s, e), a);
      case _ =>
        NoOnePasses(cfg, s, e);
        QuietStep(cfg.maxActionsPerHour.value, k, s, Next(cfg, s, e), a);
    }
  }

  lemma {:induction false} NoOnePasses(cfg: Config, s: System, e: Event)
    requires Enabled(s, e) && (e.Begin? || e.CheckBudget? || e.Cancel? || e.RecordCost? || e.RecordTokens?)
    ensures RatePassed(Next(cfg, s, e).slots) <= RatePassed(s.slots)
  {
    SlotsUpdate(s.slots, e.slot, Next(cfg, s, e).slots[e.slot], IsRatePassed);
  }

  lemma {:induction false} SuffixGrows(log: seq<nat>, window: seq<nat>, t: nat)
    requires |window| <= |log| && window == log[|log| - |window|..]
    ensures window + [t] == (log + [t])[|log| - |window|..]
  {
  }

  lemma {:induction false} WindowStep(cfg: Config, s: System, e: Event)
    requires WindowInv(s) && Enabled(s, e)
    ensures WindowInv(Next(cfg, s, e))
  {
    match e {
      case RecordAction(_) => RecordKeepsWindow(cfg, s, e);
      case CheckRate(_) => DrainKeepsWindow(s);
      case ObserveActions => DrainKeepsWindow(s);
      case Tick(_, _) =>
      case _ =>
        var s' := Next(cfg, s, e);
        assert s'.guard.window == s.guard.window && s'.actions == s.actions && s'.now == s.now;
    }
  }

  lemma {:induction false} RecordKeepsWindow(cfg: Config, s: System, e: Event)
    requires WindowInv(s) && Enabled(s, e) && e.RecordAction?
    ensures WindowInv(Next(cfg, s, e))
  {
    SuffixGrows(s.actions, s.guard.window, s.now);
  }

  lemma {:induction false} RateStep(cfg: Config, k: nat, s: System, e: Event)
    requires cfg.maxActionsPerHour.Some? && k >= 1 && |s.slots| == k && Enabled(s, e)
    requires WindowInv(s) && RateInv(cfg.maxActionsPerHour.value, k, s)
    ensures RateInv(cfg.maxActionsPerHour.value, k, Next(cfg, s, e))
  {
    forall a: nat ensures RateInvAt(cfg.maxActionsPerHour.value, k, Next(cfg, s, e), a) {
      RateStepAt(cfg, k, s, e, a);
    }
  }

  lemma {:induction false} RateRun(cfg: Config, k: nat, s: System, events: seq<Event>)
    requires cfg.maxActionsPerHour.Some? && k >= 1 && |s.slots| == k && ValidRun(cfg, s, events)
    requires WindowInv(s) && RateInv(cfg.maxActionsPerHour.value, k, s)
    ensures RateInv(cfg.maxActionsPerHour.value, k, Final(cfg, s, events))
    decreases events
  {
    if events != [] {
      WindowStep(cfg, s, events[0]);
      RateStep(cfg, k, s, events[0]);
      RateRun(cfg, k, Next(cfg, s, events[0]), events[1..]);
    }
  }

  /** In every run with at most k calls in flight, every closed one-hour window holds at
      most limit + k - 1 recorded actions; with one caller, exactly the limit at most. */
  lemma {:induction false} HourlyLimitHolds(cfg: Config, k: nat, now: nat, today: nat, events: seq<Event>, a: nat)
    requires cfg.maxActionsPerHour.Some? && k >= 1 && ValidRun(cfg, Start(k, now, today), events)
    ensures CountIn(Final(cfg, Start(k, now, today), events).actions, a, a + HOUR)
         <= cfg.maxActionsPerHour.value + k - 1
  {
    var s := Start(k, now, today);
    NoSlots(s.slots, IsRatePassed);
    assert forall b: nat :: RateInvAt(cfg.maxActionsPerHour.value, k, s, b);
    RateRun(cfg, k, s, events);
    assert RateInvAt(cfg.maxActionsPerHour.value, k, Final(cfg, s, events), a);
  }

  // ---- the limit is reached ----

  function Zeros(n: nat): seq<nat> { seq(n, _ => 0) }

  /** n actions recorded at time 0; the first `checked` slots have passed their check, of
      which the first `recorded` have recorded their action. */
  predicate Staged(s: System, k: nat, n: nat, checked: nat, recorded: nat) {
    && s.now == 0 && |s.slots| == k
    && s.guard.window == Zeros(n) && s.actions == Zeros(n)
    && forall i :: 0 <= i < k ==>
         if i < recorded then s.slots[i].Tallying?
         else if i < checked then s.slots[i].Calling? else s.slots[i].Idle?
  }

  lemma {:induction false} RunsCompose(cfg: Config, s: System, first: seq<Event>, second: seq<Event>)
    requires ValidRun(cfg, s, first) && ValidRun(cfg, Final(cfg, s, first), second)
    ensures ValidRun(cfg, s, first + second)
    ensures Final(cfg, s, first + second) == Final(cfg, Final(cfg, s, first), second)
    decreases first
  {
    if first == [] {
      assert first + second == second;
    } else {
      RunsCompose(cfg, Next(cfg, s, first[0]), first[1..], second);
      assert (first + second)[1..] == first[1..] + second;
    }
  }

  lemma {:induction false} RunTwo(cfg: Config, s: System, e: Event, f: Event)
    requires Enabled(s, e) && Enabled(Next(cfg, s, e), f)
    ensures ValidRun(cfg, s, [e, f]) && Final(cfg, s, [e, f]) == Next(cfg, Next(cfg, s, e), f)
  {
    assert [e, f][1..] == [f] && [f][1..] == [];
    assert Final(cfg, Next(cfg, s, e), [f]) == Final(cfg, Next(cfg, Next(cfg, s, e), f), []);
  }

  lemma {:induction false} RunThree(cfg: Config, s: System, e: Event, f: Event, g: Event)
    requires Enabled(s, e) && Enabled(Next(cfg, s, e), f) && Enabled(Next(cfg, Next(cfg, s, e), f), g)
    ensures ValidRun(cfg, s, [e, f, g])
    ensures Final(cfg, s, [e, f, g]) == Next(cfg, Next(cfg, Next(cfg, s, e), f), g)
  {
    RunTwo(cfg, Next(cfg, s, e), f, g);
    assert [e, f, g][1..] == [f, g];
  }

  lemma {:induction false} CheckSlot(cfg: Config, s: System, k: nat, n: nat, i: nat) returns (events: seq<Event>)
    requires cfg == Config(None, cfg.maxActionsPerHour) && cfg.maxActionsPerHour.Some?
    requires n < cfg.maxActionsPerHour.value && i < k && Staged(s, k, n, i, 0)
    ensures ValidRun(cfg, s, events) && Staged(Final(cfg, s, events), k, n, i + 1, 0)
  {
    events := [Begin(i, false), CheckBudget(i), CheckRate(i)];
    RunThree(cfg, s, Begin(i, false), CheckBudget(i), CheckRate(i));
  }

  lemma {:induction false} RecordSlot(cfg: Config, s: System, k: nat, n: nat, i: nat, checked: nat)
    returns (events: seq<Event>)
    requires i < checked <= k && Staged(s, k, n, checked, i)
    ensures ValidRun(cfg, s, events) && Staged(Final(cfg, s, events), k, n + 1, checked, i + 1)
  {
    var e, f := RecordCost(i, "m", 0, 0, 0.0), RecordAction(i);
    events := [e, f];
    RunTwo(cfg, s, e, f);
    assert Zeros(n) + [0] == Zeros(n + 1);
  }

  lemma {:induction false} RecordOneByOne(cfg: Config, k: nat, n: nat) returns (events: seq<Event>)
    requires cfg == Config(None, cfg.maxActionsPerHour) && cfg.maxActionsPerHour.Some?
    requires n < cfg.maxActionsPerHour.value && k >= 1
    ensures ValidRun(cfg, Start(k, 0, 0), events) && Staged(Final(cfg, Start(k, 0, 0), events), k, n, 0, 0)
  {
    if n == 0 {
      events := [];
    } else {
      var start := Start(k, 0, 0);
      events := RecordOneByOne(cfg, k, n - 1);
      var more := CheckSlot(cfg, Final(cfg, start, events), k, n - 1, 0);
      RunsCompose(cfg, start, events, more);
      events := events + more;
      more := RecordSlot(cfg, Final(cfg, start, events), k, n - 1, 0, 1);
      RunsCompose(cfg, start, events, more);
      events := events + more;
      more := [RecordTokens(0)];
      RunsCompose(cfg, start, events, more);
      events := events + more;
    }
  }

  lemma {:induction false} CheckAll(cfg: Config, s: System, k: nat, n: nat, i: nat) returns (events: seq<Event>)
    requires cfg == Config(None, cfg.maxActionsPerHour) && cfg.maxActionsPerHour.Some?
    requires n < cfg.maxActionsPerHour.value && i <= k && Staged(s, k, n, i, 0)
    ensures ValidRun(cfg, s, events) && Staged(Final(cfg, s, events), k, n, k, 0)
    decreases k - i
  {
    if i == k {
      events := [];
    } else {
      var first := CheckSlot(cfg, s, k, n, i);
      var rest := CheckAll(cfg, Final(cfg, s, first), k, n, i + 1);
      RunsCompose(cfg, s, first, rest);
      events := first + rest;
    }
  }

  lemma {:induction false} RecordAll(cfg: Config, s: System, k: nat, n: nat, i: nat) returns (events: seq<Event>)
    requires i <= k && Staged(s, k, n, k, i)
    ensures ValidRun(cfg, s, events) && Staged(Final(cfg, s, events), k, n + k - i, k, k)
    decreases k - i
  {
    if i == k {
      events := [];
    } else {
      var first := RecordSlot(cfg, s, k, n, i, k);
      var rest := RecordAll(cfg, Final(cfg, s, first), k, n + 1, i + 1);
      RunsCompose(cfg, s, first, rest);
      events := first + rest;
    }
  }

  lemma {:induction false} CountZeros(n: nat)
    ensures CountIn(Zeros(n), 0, HOUR) == n
  {
    if n > 0 {
      CountZeros(n - 1);
      assert Zeros(n)[..n - 1] == Zeros(n - 1);
    }
  }

  /** The bound cannot be improved: for every limit and every number of callers some run
      puts limit + k - 1 actions into one hour. */
  lemma {:induction false} HourlyLimitIsTight(limit: nat, k: nat)
    requires limit >= 1 && k >= 1
    ensures exists events ::
      && ValidRun(Config(None, Some(limit)), Start(k, 0, 0), events)
      && CountIn(Final(Config(None, Some(limit)), Start(k, 0, 0), events).actions, 0, HOUR) == limit + k - 1
  {
    var cfg, start := Config(None, Some(limit)), Start(k, 0, 0);
    var events := RecordOneByOne(cfg, k, limit - 1);
    var more := CheckAll(cfg, Final(cfg, start, events), k, limit - 1, 0);
    RunsCompose(cfg, start, events, more);
    events := events + more;
    more := RecordAll(cfg, Final(cfg, start, events), k, limit - 1, 0);
    RunsCompose(cfg, start, events, more);
    events := events + more;
    CountZeros(limit + k - 1);
  }
}
