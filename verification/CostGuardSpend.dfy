/** Money over whole runs of the shared cost guard: the daily overshoot, the flag against
    the total, conservation, and what midnight does not do. */
module CostGuardSpend {
  import opened Wrappers
  import opened CostGuards
  import opened CostGuardRuns

  // ---- the running total is the log of its day ----

  predicate TotalInv(s: System) {
    && (forall i :: 0 <= i < |s.spends| ==> s.spends[i].day <= s.guard.resetDate)
    && s.guard.resetDate <= s.today
    && s.guard.total == DaySum(s.spends, s.guard.resetDate)
  }

  lemma {:induction false} NoSpendYet(spends: seq<Spend>, day: nat)
    requires forall i :: 0 <= i < |spends| ==> spends[i].day != day
    ensures DaySum(spends, day) == 0.0
  {
    if spends != [] { NoSpendYet(spends[..|spends| - 1], day); }
  }

  lemma {:induction false} TotalStep(cfg: Config, s: System, e: Event)
    requires TotalInv(s) && Enabled(s, e)
    ensures TotalInv(Next(cfg, s, e))
  {
    if e.RecordCost? {
      var s' := Next(cfg, s, e);
      assert s'.spends[..|s'.spends| - 1] == s.spends;
      if s.today != s.guard.resetDate { NoSpendYet(s.spends, s.today); }
    }
  }

  lemma {:induction false} TotalRun(cfg: Config, s: System, events: seq<Event>)
    requires TotalInv(s) && ValidRun(cfg, s, events)
    ensures TotalInv(Final(cfg, s, events))
    decreases events
  {
    if events != [] {
      TotalStep(cfg, s, events[0]);
      TotalRun(cfg, Next(cfg, s, events[0]), events[1..]);
    }
  }

  /** The reported daily spend is always the sum of today's recorded costs, although the
      stored total may still be that of an earlier day. */
  lemma {:induction false} ReportedSpendIsExact(cfg: Config, k: nat, now: nat, today: nat, events: seq<Event>)
    requires ValidRun(cfg, Start(k, now, today), events)
    ensures var s := Final(cfg, Start(k, now, today), events);
            ReportedSpend(s.guard, s.today) == DaySum(s.spends, s.today)
  {
    TotalRun(cfg, Start(k, now, today), events);
    var s := Final(cfg, Start(k, now, today), events);
    if s.today != s.guard.resetDate { NoSpendYet(s.spends, s.today); }
  }

  // ---- the daily limit ----

  /** What n calls in flight may still add. */
  function Reserve(n: nat, m: real): real { n as real * m }

  function Cap(limit: nat, k: nat, m: real): real { limit as real / 100.0 + Reserve(k, m) }

  lemma {:induction false} ReserveOneMore(n: nat, m: real)
    ensures Reserve(n + 1, m) == Reserve(n, m) + m
  {
  }

  lemma {:induction false} ReserveMonotone(n: nat, k: nat, m: real)
    requires n <= k && 0.0 <= m
    ensures 0.0 <= Reserve(n, m) <= Reserve(k, m)
  {
    MulMono(m, n as real, k as real);
  }

  predicate SpendInv(limit: nat, k: nat, m: real, s: System) {
    && TotalInv(s)
    && 0.0 <= s.guard.total
    && (forall i :: 0 <= i < |s.spends| ==> DaySum(s.spends, s.spends[i].day) < Cap(limit, k, m))
    && (BudgetPassed(s.slots) > 0 ==>
          && limit > 0
          && s.guard.total + Reserve(BudgetPassed(s.slots), m) < Cap(limit, k, m))
  }

  lemma {:induction false} SomeSpend(spends: seq<Spend>, day: nat)
    requires DaySum(spends, day) != 0.0
    ensures exists i :: 0 <= i < |spends| && spends[i].day == day
  {
    if spends[|spends| - 1].day != day { SomeSpend(spends[..|spends| - 1], day); }
  }

  lemma {:induction false} TotalBelowCap(limit: nat, k: nat, m: real, s: System)
    requires 0.0 <= m && SpendInv(limit, k, m, s)
    ensures s.guard.total == 0.0 || s.guard.total < Cap(limit, k, m)
  {
    if s.guard.total != 0.0 { SomeSpend(s.spends, s.guard.resetDate); }
  }

  lemma {:induction false} BudgetCheckStep(cfg: Config, k: nat, m: real, s: System, i: nat)
    requires cfg.maxCostPerDayCents.Some? && 0.0 <= m && |s.slots| == k && Enabled(s, CheckBudget(i))
    requires Cap(cfg.maxCostPerDayCents.value, k, m) * 100.0 <= U64_SIZE as real
    requires SpendInv(cfg.maxCostPerDayCents.value, k, m, s)
    ensures SpendInv(cfg.maxCostPerDayCents.value, k, m, Next(cfg, s, CheckBudget(i)))
  {
    var limit := cfg.maxCostPerDayCents.value;
    var s' := Next(cfg, s, CheckBudget(i));
    SlotsUpdate(s.slots, i, s'.slots[i], IsBudgetPassed);
    SlotsBounded(s'.slots, IsBudgetPassed);
    ReserveMonotone(BudgetPassed(s'.slots), k, m);
    TotalBelowCap(limit, k, m, s);
  }

  lemma {:induction false} RecordCostStep(cfg: Config, k: nat, m: real, s: System, e: Event)
    requires cfg.maxCostPerDayCents.Some? && |s.slots| == k && e.RecordCost? && Enabled(s, e)
    requires 0.0 <= e.cost <= m
    requires SpendInv(cfg.maxCostPerDayCents.value, k, m, s)
    ensures SpendInv(cfg.maxCostPerDayCents.value, k, m, Next(cfg, s, e))
  {
    var limit := cfg.maxCostPerDayCents.value;
    var s' := Next(cfg, s, e);
    TotalStep(cfg, s, e);
    SlotsUpdate(s.slots, e.slot, s'.slots[e.slot], IsBudgetPassed);
    SlotsBounded(s.slots, IsBudgetPassed);
    var p := BudgetPassed(s'.slots);
    ReserveOneMore(p, m);
    ReserveMonotone(p, k, m);
    ReserveMonotone(p + 1, k, m);
    assert s'.guard.total + Reserve(p, m) < Cap(limit, k, m);
    assert s'.spends[..|s'.spends| - 1] == s.spends;
    forall i | 0 <= i < |s'.spends| ensures DaySum(s'.spends, s'.spends[i].day) < Cap(limit, k, m) {
      if s'.spends[i].day != s.today { assert s'.spends[i] == s.spends[i]; }
    }
  }

  lemma {:induction false} SpendStep(cfg: Config, k: nat, m: real, s: System, e: Event)
    requires cfg.maxCostPerDayCents.Some? && 0.0 <= m && |s.slots| == k && Enabled(s, e)
    requires Cap(cfg.maxCostPerDayCents.value, k, m) * 100.0 <= U64_SIZE as real
    requires e.RecordCost? ==> 0.0 <= e.cost <= m
    requires SpendInv(cfg.maxCostPerDayCents.value, k, m, s)
    ensures SpendInv(cfg.maxCostPerDayCents.value, k, m, Next(cfg, s, e))
  {
    if e.CheckBudget? {
      BudgetCheckStep(cfg, k, m, s, e.slot);
    } else if e.RecordCost? {
      RecordCostStep(cfg, k, m, s, e);
    } else if !(e.Tick? || e.ObserveActions?) {
      var s' := Next(cfg, s, e);
      SlotsUpdate(s.slots, e.slot, s'.slots[e.slot], IsBudgetPassed);
      ReserveMonotone(BudgetPassed(s'.slots), BudgetPassed(s.slots), m);
    }
  }

  lemma {:induction false} SpendRun(cfg: Config, k: nat, m: real, s: System, events: seq<Event>)
    requires cfg.maxCostPerDayCents.Some? && 0.0 <= m && |s.slots| == k && ValidRun(cfg, s, events)
    requires Cap(cfg.maxCostPerDayCents.value, k, m) * 100.0 <= U64_SIZE as real
    requires CostsWithin(events, m) && SpendInv(cfg.maxCostPerDayCents.value, k, m, s)
    ensures SpendInv(cfg.maxCostPerDayCents.value, k, m, Final(cfg, s, events))
    decreases events
  {
    if events != [] {
      SpendStep(cfg, k, m, s, events[0]);
      SpendRun(cfg, k, m, Next(cfg, s, events[0]), events[1..]);
    }
  }

  /** In every run with at most k calls in flight, each costing at most m, whatever is
      recorded on one day stays below the limit plus k * m, also when calls cross midnight.
      A day without records spends nothing. */
  lemma {:induction false} DailyLimitHolds(
    cfg: Config, k: nat, m: real, now: nat, today: nat, events: seq<Event>, day: nat)
    requires cfg.maxCostPerDayCents.Some? && 0.0 <= m && CostsWithin(events, m)
    requires Cap(cfg.maxCostPerDayCents.value, k, m) * 100.0 <= U64_SIZE as real
    requires ValidRun(cfg, Start(k, now, today), events)
    ensures var spent := DaySum(Final(cfg, Start(k, now, today), events).spends, day);
            spent == 0.0 || spent < cfg.maxCostPerDayCents.value as real / 100.0 + k as real * m
  {
    var s := Start(k, now, today);
    NoSlots(s.slots, IsBudgetPassed);
    SpendRun(cfg, k, m, s, events);
    var spends := Final(cfg, s, events).spends;
    if DaySum(spends, day) != 0.0 { SomeSpend(spends, day); }
  }

  /** Why the amounts must fit 2^64 cents: the first record of a day that costs more than
      that leaves the flag down, and the next budget check lets calls through. */
  lemma {:induction false} HugeSpendIsNotRefused(cfg: Config, g: GuardState, today: nat, cost: real)
    requires cfg.maxCostPerDayCents.Some? && cfg.maxCostPerDayCents.value > 0
    requires today != g.resetDate && (cost * 100.0).Floor >= U64_SIZE
    ensures var g' := CostSection(cfg, g, today, cost);
            !g'.budgetExceeded && BudgetSection(cfg, g').1 == Allowed
  {
    assert ToCents(cost) == 0;
  }

  /** A spend that has reached the limit is refused exactly while it fits 2^64 cents. */
  lemma {:induction false} BudgetRefusesExactlyWhen(cfg: Config, g: GuardState)
    requires cfg.maxCostPerDayCents.Some? && cfg.maxCostPerDayCents.value > 0
    requires 0.0 <= g.total && cfg.maxCostPerDayCents.value as real <= g.total * 100.0
    ensures BudgetSection(cfg, g).1.Refused? <==> (g.total * 100.0).Floor < U64_SIZE
  {
  }

  // ---- the flag ----

  predicate FlagInv(cfg: Config, g: GuardState) {
    && 0.0 <= g.total
    && (g.budgetExceeded ==>
          cfg.maxCostPerDayCents.Some? && cfg.maxCostPerDayCents.value as real <= g.total * 100.0)
  }

  lemma {:induction false} FlagRun(cfg: Config, s: System, events: seq<Event>)
    requires FlagInv(cfg, s.guard) && ValidRun(cfg, s, events) && CostsNonNegative(events)
    ensures FlagInv(cfg, Final(cfg, s, events).guard)
    decreases events
  {
    if events != [] {
      FlagRun(cfg, Next(cfg, s, events[0]), events[1..]);
    }
  }

  /** In every reachable state a set flag means that a limit is set and reached. A check
      that trusts the flag then gives the answer of a check without the flag, numbers
      included, exactly when the total still fits 2^64 cents (or the limit is zero): above
      that the whole-cent amount reads as 0 and only the flag still refuses. */
  lemma {:induction false} FlagFastPathIsExact(cfg: Config, k: nat, now: nat, today: nat, events: seq<Event>)
    requires ValidRun(cfg, Start(k, now, today), events) && CostsNonNegative(events)
    ensures var s := Final(cfg, Start(k, now, today), events);
            && (s.guard.budgetExceeded ==>
                  && cfg.maxCostPerDayCents.Some?
                  && cfg.maxCostPerDayCents.value as real <= s.guard.total * 100.0)
            && (Check(cfg, s.guard, s.now).1 == SlowCheck(cfg, s.guard, s.now).1 <==>
                  || !s.guard.budgetExceeded
                  || (s.guard.total * 100.0).Floor < U64_SIZE
                  || cfg.maxCostPerDayCents.value == 0)
  {
    FlagRun(cfg, Start(k, now, today), events);
  }

  /** After every record under a limit the flag says whether the day's whole cents have reached
      the limit exactly when it is down, or the amount fits 2^64 cents, or the limit is 0. */
  lemma {:induction false} FlagAfterRecord(cfg: Config, k: nat, now: nat, today: nat, events: seq<Event>)
    requires ValidRun(cfg, Start(k, now, today), events) && CostsNonNegative(events)
    requires events != [] && events[|events| - 1].RecordCost? && cfg.maxCostPerDayCents.Some?
    ensures var g := Final(cfg, Start(k, now, today), events).guard;
            (g.budgetExceeded <==> ToCents(g.total) >= cfg.maxCostPerDayCents.value)
            <==> !g.budgetExceeded || (g.total * 100.0).Floor < U64_SIZE || cfg.maxCostPerDayCents.value == 0
  {
    var s, n := Start(k, now, today), |events| - 1;
    assert events == events[..n] + [events[n]];
    RunSplits(cfg, s, events[..n], [events[n]]);
    FlagRun(cfg, s, events[..n]);
    assert [events[n]][1..] == [];
    FlagRun(cfg, s, events);
  }

  lemma {:induction false} RunSplits(cfg: Config, s: System, first: seq<Event>, second: seq<Event>)
    requires ValidRun(cfg, s, first + second)
    ensures ValidRun(cfg, s, first) && ValidRun(cfg, Final(cfg, s, first), second)
    ensures Final(cfg, s, first + second) == Final(cfg, Final(cfg, s, first), second)
    decreases first
  {
    if first == [] {
      assert first + second == second;
    } else {
      assert (first + second)[1..] == first[1..] + second;
      RunSplits(cfg, Next(cfg, s, first[0]), first[1..], second);
    }
  }

  // ---- a blocked guard stays blocked ----

  /** The limit is reached and no call has got past the budget check. */
  predicate Blocked(cfg: Config, s: System) {
    && cfg.maxCostPerDayCents.Some? && ToCents(s.guard.total) >= cfg.maxCostPerDayCents.value
    && forall i :: 0 <= i < |s.slots| ==> s.slots[i].Idle? || s.slots[i].BudgetCheck?
  }

  /** Only a record resets the day, and a blocked guard lets no call through to a record:
      whatever days pass and whatever callers do, nothing is ever recorded again. */
  lemma {:induction false} BlockedForever(cfg: Config, s: System, events: seq<Event>)
    requires Blocked(cfg, s) && ValidRun(cfg, s, events)
    ensures var s' := Final(cfg, s, events);
            Blocked(cfg, s') && s'.spends == s.spends && s'.actions == s.actions
    decreases events
  {
    if events != [] {
      BlockedForever(cfg, Next(cfg, s, events[0]), events[1..]);
    }
  }

  /** Some call can still get to a record: it is past its checks, or past the budget check
      with a rate check ahead that can let it through. */
  predicate CanStillRecord(cfg: Config, s: System) {
    exists i :: 0 <= i < |s.slots| && CanRecord(cfg, s.slots[i])
  }

  predicate CanRecord(cfg: Config, p: Phase) {
    p.Calling? || (p.RateCheck? && cfg.maxActionsPerHour != Some(0))
  }

  predicate LimitReached(cfg: Config, s: System) {
    cfg.maxCostPerDayCents.Some? && ToCents(s.guard.total) >= cfg.maxCostPerDayCents.value
  }

  lemma {:induction false} NothingMoreIsSpent(cfg: Config, s: System, events: seq<Event>)
    requires LimitReached(cfg, s) && !CanStillRecord(cfg, s) && ValidRun(cfg, s, events)
    ensures Final(cfg, s, events).spends == s.spends
    decreases events
  {
    if events != [] {
      var e, t := events[0], Next(cfg, s, events[0]);
      forall i | 0 <= i < |t.slots|
        ensures !CanRecord(cfg, t.slots[i])
      {
        assert !CanRecord(cfg, s.slots[i]);
      }
      NothingMoreIsSpent(cfg, t, events[1..]);
    }
  }

  /** The latest time in the window. */
  function Latest(window: seq<nat>): (t: nat)
    ensures forall i :: 0 <= i < |window| ==> window[i] <= t
  {
    if window == [] then 0
    else
      var t := Latest(window[1..]);
      if window[0] > t then window[0] else t
  }

  lemma {:induction false} AllExpire(window: seq<nat>, cutoff: nat)
    requires forall i :: 0 <= i < |window| ==> window[i] < cutoff
    ensures DropExpired(window, cutoff) == []
  {
    if window != [] { AllExpire(window[1..], cutoff); }
  }

  /** From its rate check such a call does get to a record, once the window is over. */
  lemma {:induction false} RatePasses(cfg: Config, s: System, i: nat) returns (events: seq<Event>)
    requires i < |s.slots| && CanRecord(cfg, s.slots[i])
    ensures ValidRun(cfg, s, events) && Final(cfg, s, events).spends == s.spends
    ensures i < |Final(cfg, s, events).slots| && Final(cfg, s, events).slots[i].Calling?
  {
    if s.slots[i].Calling? {
      events := [];
    } else {
      var latest := Latest(s.guard.window);
      var now := s.now + latest + HOUR + 1;
      AllExpire(s.guard.window, now - HOUR);
      events := [Tick(now, s.today), CheckRate(i)];
      RunTwo(cfg, s, Tick(now, s.today), CheckRate(i));
    }
  }

  /** Once the limit is reached, whatever days pass, another cost is recorded in some run
      exactly when some call is already past the budget check and can still pass the rate
      check. A guard without such a call never opens again. */
  lemma {:induction false} ReopensExactlyWhen(cfg: Config, s: System)
    requires LimitReached(cfg, s)
    ensures (exists events :: ValidRun(cfg, s, events) && Final(cfg, s, events).spends != s.spends)
       <==> CanStillRecord(cfg, s)
  {
    if CanStillRecord(cfg, s) {
      var i :| 0 <= i < |s.slots| && CanRecord(cfg, s.slots[i]);
      var events := RatePasses(cfg, s, i);
      var last := [RecordCost(i, "", 0, 0, 0.0)];
      assert last[1..] == [];
      RunsCompose(cfg, s, events, last);
      var end := Final(cfg, s, events + last);
      assert |end.spends| == |s.spends| + 1;
    } else {
      forall events | ValidRun(cfg, s, events)
        ensures Final(cfg, s, events).spends == s.spends
      {
        NothingMoreIsSpent(cfg, s, events);
      }
    }
  }

  // ---- conservation ----

  /** The sum of a measure over a log. */
  function Logged(log: seq<Spend>, w: Spend -> real): real {
    if log == [] then 0.0 else Logged(log[..|log| - 1], w) + w(log[|log| - 1])
  }

  function Held(slots: seq<Phase>, w: Spend -> real): real {
    if slots == [] then 0.0 else HeldBy(slots[0], w) + Held(slots[1..], w)
  }

  function HeldBy(p: Phase, w: Spend -> real): real {
    if p.Recording? || p.Tallying? then w(p.entry) else 0.0
  }

  lemma {:induction false} HeldUpdate(slots: seq<Phase>, i: nat, x: Phase, w: Spend -> real)
    requires i < |slots|
    ensures Held(slots[i := x], w) == Held(slots, w) - HeldBy(slots[i], w) + HeldBy(x, w)
  {
    if i > 0 {
      HeldUpdate(slots[1..], i - 1, x, w);
      assert slots[i := x][1..] == slots[1..][i - 1 := x];
    } else {
      assert slots[i := x][1..] == slots[1..];
    }
  }

  lemma {:induction false} NothingHeld(slots: seq<Phase>, w: Spend -> real)
    requires forall i :: 0 <= i < |slots| ==> slots[i].Idle?
    ensures Held(slots, w) == 0.0
  {
    if slots != [] { NothingHeld(slots[1..], w); }
  }

  lemma {:induction false} LoggedAppend(log: seq<Spend>, t: Spend, w: Spend -> real)
    ensures Logged(log + [t], w) == Logged(log, w) + w(t)
  {
    assert (log + [t])[..|log|] == log;
  }

  predicate Conserved(s: System, w: Spend -> real) {
    Logged(s.spends, w) == Logged(s.tallied, w) + Logged(s.lost, w) + Held(s.slots, w)
  }

  lemma {:induction false} ConservedStep(cfg: Config, s: System, e: Event, w: Spend -> real)
    requires Conserved(s, w) && Enabled(s, e)
    ensures Conserved(Next(cfg, s, e), w)
  {
    match e {
      case Tick(_, _) =>
      case ObserveActions =>
      case RecordCost(_, _, _, _, _) => RecordConserves(cfg, s, e, w);
      case RecordTokens(i) => TallyConserves(cfg, s, i, w);
      case Cancel(i) => CancelConserves(cfg, s, i, w);
      case _ => MoveConserves(cfg, s, e, w);
    }
  }

  lemma {:induction false} RecordConserves(cfg: Config, s: System, e: Event, w: Spend -> real)
    requires Conserved(s, w) && e.RecordCost? && Enabled(s, e)
    ensures Conserved(Next(cfg, s, e), w)
  {
    var entry, t := Spend(s.today, e.model, e.input, e.output, e.cost), Next(cfg, s, e);
    assert t.slots == s.slots[e.slot := Recording(entry)] && t.spends == s.spends + [entry];
    assert t.tallied == s.tallied && t.lost == s.lost;
    NewEntryConserves(s, t, e.slot, entry, w);
  }

  lemma {:induction false} NewEntryConserves(s: System, t: System, i: nat, entry: Spend, w: Spend -> real)
    requires Conserved(s, w) && i < |s.slots| && s.slots[i].Calling?
    requires t.slots == s.slots[i := Recording(entry)] && t.spends == s.spends + [entry]
    requires t.tallied == s.tallied && t.lost == s.lost
    ensures Conserved(t, w)
  {
    HeldUpdate(s.slots, i, Recording(entry), w);
    LoggedAppend(s.spends, entry, w);
  }

  lemma {:induction false} TallyConserves(cfg: Config, s: System, i: nat, w: Spend -> real)
    requires Conserved(s, w) && Enabled(s, RecordTokens(i))
    ensures Conserved(Next(cfg, s, RecordTokens(i)), w)
  {
    HeldUpdate(s.slots, i, Idle, w);
    LoggedAppend(s.tallied, s.slots[i].entry, w);
  }

  lemma {:induction false} MoveConserves(cfg: Config, s: System, e: Event, w: Spend -> real)
    requires Conserved(s, w) && Enabled(s, e)
    requires e.Begin? || e.CheckBudget? || e.CheckRate? || e.RecordAction?
    ensures Conserved(Next(cfg, s, e), w)
  {
    HeldUpdate(s.slots, e.slot, Next(cfg, s, e).slots[e.slot], w);
  }

  lemma {:induction false} CancelConserves(cfg: Config, s: System, i: nat, w: Spend -> real)
    requires Conserved(s, w) && Enabled(s, Cancel(i))
    ensures Conserved(Next(cfg, s, Cancel(i)), w)
  {
    var p := s.slots[i];
    HeldUpdate(s.slots, i, Idle, w);
    if p.Recording? || p.Tallying? {
      LoggedAppend(s.lost, p.entry, w);
    } else {
      assert s.lost + [] == s.lost;
    }
  }

  lemma {:induction false} ConservedRun(cfg: Config, s: System, events: seq<Event>, w: Spend -> real)
    requires Conserved(s, w) && ValidRun(cfg, s, events)
    ensures Conserved(Final(cfg, s, events), w)
    decreases events
  {
    if events != [] {
      ConservedStep(cfg, s, events[0], w);
      ConservedRun(cfg, Next(cfg, s, events[0]), events[1..], w);
    }
  }

  function CostOf(model: string): Spend -> real {
    (t: Spend) => if t.model == model then t.cost else 0.0
  }

  function InputOf(model: string): Spend -> real {
    (t: Spend) => if t.model == model then t.input as real else 0.0
  }

  function OutputOf(model: string): Spend -> real {
    (t: Spend) => if t.model == model then t.output as real else 0.0
  }

  /** The counters of a model are the sums over its tallied entries. */
  predicate Tallied(s: System, model: string) {
    var u := Usage(s.guard.modelTokens, model);
    && u.cost == Logged(s.tallied, CostOf(model))
    && u.inputTokens as real == Logged(s.tallied, InputOf(model))
    && u.outputTokens as real == Logged(s.tallied, OutputOf(model))
  }

  lemma {:induction false} TalliedRun(cfg: Config, s: System, events: seq<Event>, model: string)
    requires Tallied(s, model) && ValidRun(cfg, s, events)
    ensures Tallied(Final(cfg, s, events), model)
    decreases events
  {
    if events != [] {
      var e := events[0];
      if e.RecordTokens? {
        var t := s.slots[e.slot].entry;
        LoggedAppend(s.tallied, t, CostOf(model));
        LoggedAppend(s.tallied, t, InputOf(model));
        LoggedAppend(s.tallied, t, OutputOf(model));
      }
      TalliedRun(cfg, Next(cfg, s, e), events[1..], model);
    }
  }

  /** Nothing is counted twice or dropped, whatever the interleaving: the logged cost,
      input and output of a model are its counters, plus what callers in flight still
      hold, plus what callers cancelled inside a record took with them. */
  lemma {:induction false} UsageIsConserved(
    cfg: Config, k: nat, now: nat, today: nat, events: seq<Event>, model: string)
    requires ValidRun(cfg, Start(k, now, today), events)
    ensures var s := Final(cfg, Start(k, now, today), events);
            var u := Usage(s.guard.modelTokens, model);
            var c, i, o := CostOf(model), InputOf(model), OutputOf(model);
            && Logged(s.spends, c) == u.cost + Logged(s.lost, c) + Held(s.slots, c)
            && Logged(s.spends, i) == u.inputTokens as real + Logged(s.lost, i) + Held(s.slots, i)
            && Logged(s.spends, o) == u.outputTokens as real + Logged(s.lost, o) + Held(s.slots, o)
  {
    var s := Start(k, now, today);
    NothingHeld(s.slots, CostOf(model));
    NothingHeld(s.slots, InputOf(model));
    NothingHeld(s.slots, OutputOf(model));
    ConservedRun(cfg, s, events, CostOf(model));
    ConservedRun(cfg, s, events, InputOf(model));
    ConservedRun(cfg, s, events, OutputOf(model));
    TalliedRun(cfg, s, events, model);
  }
}
