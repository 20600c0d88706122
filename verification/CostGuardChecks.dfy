/** What a check decides (src/agent/cost_guard.rs, check_allowed and actions_this_hour), over the
    log of what was recorded: the last 3600 seconds of actions and the costs of the day. */
module CostGuardChecks {
  import opened Wrappers
  import opened CostGuards
  import opened CostGuardRuns
  import opened CostGuardSpend

  /** An action no older than 3600 seconds. */
  predicate InLastHour(t: nat, now: nat) {
    t + 3600 * 1_000_000_000 >= now
  }

  function LastHour(log: seq<nat>, now: nat): nat {
    if log == [] then 0
    else LastHour(log[..|log| - 1], now) + if InLastHour(log[|log| - 1], now) then 1 else 0
  }

  /** The deque holds exactly the actions of the last hour, in the order of the log. */
  predicate HoldsLastHour(window: seq<nat>, log: seq<nat>, now: nat) {
    && |window| <= |log| && window == log[|log| - |window|..]
    && forall i :: 0 <= i < |log| ==> (InLastHour(log[i], now) <==> |log| - |window| <= i)
  }

  lemma {:induction false} CountOfSuffix(log: seq<nat>, m: nat, now: nat)
    requires m <= |log| && forall i :: 0 <= i < |log| ==> (InLastHour(log[i], now) <==> m <= i)
    ensures LastHour(log, now) == |log| - m
    decreases |log|
  {
    if log != [] { CountOfSuffix(log[..|log| - 1], if m == |log| then m - 1 else m, now); }
  }

  lemma {:induction false} WindowRun(cfg: Config, s: System, events: seq<Event>)
    requires WindowInv(s) && ValidRun(cfg, s, events)
    ensures WindowInv(Final(cfg, s, events))
    decreases events
  {
    if events != [] {
      WindowStep(cfg, s, events[0]);
      WindowRun(cfg, Next(cfg, s, events[0]), events[1..]);
    }
  }

  /** Draining a deque that misses only what has expired leaves exactly the last hour. */
  lemma {:induction false} DrainedHoldsLastHour(s: System)
    requires WindowInv(s)
    ensures var w := Drain(s.guard.window, s.now);
            HoldsLastHour(w, s.actions, s.now) && |w| == LastHour(s.actions, s.now)
  {
    var log, w := s.actions, Drain(s.guard.window, s.now);
    DrainKeepsWindow(s);
    DrainIsCut(s.guard.window, s.now);
    var m := |log| - |w|;
    forall i | 0 <= i < |log|
      ensures InLastHour(log[i], s.now) <==> m <= i
    {
      if m <= i { assert w[0] == log[m] && log[m] <= log[i]; }
    }
    CountOfSuffix(log, m, s.now);
  }

  /** The deque is the last hour of the log, and its length the count. */
  predicate Exact(s: System, window: seq<nat>) {
    HoldsLastHour(window, s.actions, s.now) && |window| == LastHour(s.actions, s.now)
  }

  lemma {:induction false} RunDrains(cfg: Config, k: nat, now: nat, today: nat, events: seq<Event>)
    requires ValidRun(cfg, Start(k, now, today), events)
    ensures var s := Final(cfg, Start(k, now, today), events); Exact(s, Drain(s.guard.window, s.now))
  {
    WindowRun(cfg, Start(k, now, today), events);
    DrainedHoldsLastHour(Final(cfg, Start(k, now, today), events));
  }

  predicate Drains(cfg: Config, e: Event) {
    e.ObserveActions? || (e.CheckRate? && cfg.maxActionsPerHour.Some?)
  }

  lemma {:induction false} DrainingStep(cfg: Config, s: System, e: Event)
    requires Enabled(s, e) && Drains(cfg, e)
    ensures Next(cfg, s, e).guard.window == Drain(s.guard.window, s.now)
  {
  }

  /** In every run, after a rate check under a limit and after an observation, the deque is exactly
      the recorded actions of the last 3600 seconds. */
  lemma {:induction false} WindowIsLastHour(
    cfg: Config, k: nat, now: nat, today: nat, events: seq<Event>, e: Event)
    requires ValidRun(cfg, Start(k, now, today), events)
    requires Enabled(Final(cfg, Start(k, now, today), events), e) && Drains(cfg, e)
    ensures var s := Final(cfg, Start(k, now, today), events); Exact(s, Next(cfg, s, e).guard.window)
  {
    RunDrains(cfg, k, now, today, events);
    DrainingStep(cfg, Final(cfg, Start(k, now, today), events), e);
  }

  /** A caller passes the rate check exactly when fewer actions than the limit were recorded in
      the last 3600 seconds, whatever other callers are doing. */
  lemma {:induction false} RatePassesExactlyWhen(
    cfg: Config, k: nat, now: nat, today: nat, events: seq<Event>, i: nat)
    requires ValidRun(cfg, Start(k, now, today), events)
    requires Enabled(Final(cfg, Start(k, now, today), events), CheckRate(i))
    ensures var s := Final(cfg, Start(k, now, today), events);
            var p := Next(cfg, s, CheckRate(i)).slots[i];
            && (p.Calling? || p.Idle?)
            && (p.Calling? <==>
                  cfg.maxActionsPerHour.Some? ==> LastHour(s.actions, s.now) < cfg.maxActionsPerHour.value)
  {
    RunDrains(cfg, k, now, today, events);
  }

  /** A caller passes the budget check exactly when the whole cents of the guard's day are below
      the limit. */
  lemma {:induction false} BudgetPassesExactlyWhen(
    cfg: Config, k: nat, now: nat, today: nat, events: seq<Event>, i: nat)
    requires ValidRun(cfg, Start(k, now, today), events)
    requires Enabled(Final(cfg, Start(k, now, today), events), CheckBudget(i))
    ensures var s := Final(cfg, Start(k, now, today), events);
            var p := Next(cfg, s, CheckBudget(i)).slots[i];
            && (p.RateCheck? || p.Idle?)
            && (p.RateCheck? <==>
                  cfg.maxCostPerDayCents.Some? ==>
                    ToCents(DaySum(s.spends, s.guard.resetDate)) < cfg.maxCostPerDayCents.value)
  {
    TotalRun(cfg, Start(k, now, today), events);
  }

  /** The answer of a check taken without interruption. Refused for the budget when the flag is up
      or the day's cents have reached the limit; else for the rate when the last hour's count has;
      else allowed. */
  predicate Answers(cfg: Config, flag: bool, cents: nat, count: nat, verdict: Verdict) {
    var budget, rate := cfg.maxCostPerDayCents, cfg.maxActionsPerHour;
    var spent := Spent(cfg, flag, cents);
    && (spent ==> verdict == Refused(DailyBudget(cents, if budget.Some? then budget.value else 0)))
    && (!spent && rate.Some? && rate.value <= count ==> verdict == Refused(HourlyRate(count, rate.value)))
    && (!spent && (rate.Some? ==> count < rate.value) ==> verdict == Allowed)
  }

  predicate Spent(cfg: Config, flag: bool, cents: nat) {
    flag || (cfg.maxCostPerDayCents.Some? && cfg.maxCostPerDayCents.value <= cents)
  }

  lemma {:induction false} CheckAnswers(cfg: Config, g: GuardState, now: nat)
    ensures var (after, verdict) := Check(cfg, g, now);
            && Answers(cfg, g.budgetExceeded, ToCents(g.total), |Drain(g.window, now)|, verdict)
            && after.budgetExceeded == Spent(cfg, g.budgetExceeded, ToCents(g.total))
            && after.total == g.total && after.resetDate == g.resetDate && after.modelTokens == g.modelTokens
  {
  }

  /** In every run the answer is that for the whole cents of the costs of the guard's day and the
      count of the last 3600 seconds; the flag is up afterwards exactly when the budget refused,
      and costs and counters stay. */
  lemma {:induction false} CheckIsExact(cfg: Config, k: nat, now: nat, today: nat, events: seq<Event>)
    requires ValidRun(cfg, Start(k, now, today), events)
    ensures var s := Final(cfg, Start(k, now, today), events);
            var (after, verdict) := Check(cfg, s.guard, s.now);
            var cents, count := ToCents(DaySum(s.spends, s.guard.resetDate)), LastHour(s.actions, s.now);
            && Answers(cfg, s.guard.budgetExceeded, cents, count, verdict)
            && after.budgetExceeded == Spent(cfg, s.guard.budgetExceeded, cents)
            && after.total == s.guard.total && after.resetDate == s.guard.resetDate
            && after.modelTokens == s.guard.modelTokens
  {
    TotalRun(cfg, Start(k, now, today), events);
    RunDrains(cfg, k, now, today, events);
    ghost var s := Final(cfg, Start(k, now, today), events);
    CheckAnswers(cfg, s.guard, s.now);
  }
}
