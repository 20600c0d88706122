/** The cost guard (src/agent/cost_guard.rs): a daily budget with a short-circuit flag,
    a sliding one-hour window of action times, and usage counters per model.

    Every lock section of the source is one function on `GuardState`; the class
    `CostGuard` runs the sections in the source's order and is proved against them. */
module CostGuards {
  import opened Wrappers

  /** Time is counted in nanoseconds of the monotone clock. */
  const HOUR: nat := 3_600_000_000_000
  const U64_SIZE: nat := 0x1_0000_0000_0000_0000
  const U32_MAX: nat := 0xFFFF_FFFF

  type U32 = x: nat | x <= U32_MAX

  datatype Config = Config(maxCostPerDayCents: Option<nat>, maxActionsPerHour: Option<nat>)

  datatype Refusal =
    | DailyBudget(spentCents: nat, limitCents: nat)
    | HourlyRate(actions: nat, limit: nat)

  datatype Verdict = Allowed | Refused(why: Refusal)

  datatype ModelTokens = ModelTokens(inputTokens: nat, outputTokens: nat, cost: real)

  datatype GuardState = GuardState(
    total: real,
    resetDate: nat,
    window: seq<nat>,
    budgetExceeded: bool,
    modelTokens: map<string, ModelTokens>)

  /** Whole cents, truncated. Negative amounts do not parse as an unsigned number and
      amounts of 2^64 cents and more do not fit one: both come out as 0. */
  function ToCents(usd: real): (cents: nat)
    ensures 0.0 <= usd ==> cents as real <= usd * 100.0
    ensures 0.0 <= usd && usd * 100.0 < 18_446_744_073_709_551_616.0 ==> usd * 100.0 < cents as real + 1.0
    ensures usd < 0.0 || 18_446_744_073_709_551_616.0 <= usd * 100.0 ==> cents == 0
  {
    var scaled := usd * 100.0;
    if scaled < 0.0 then 0
    else if scaled.Floor < U64_SIZE then scaled.Floor else 0
  }

  function DropExpired(window: seq<nat>, cutoff: nat): seq<nat> {
    if window != [] && window[0] < cutoff then DropExpired(window[1..], cutoff) else window
  }

  lemma {:induction false} DropIsCut(window: seq<nat>, cutoff: nat)
    ensures IsCut(window, DropExpired(window, cutoff), cutoff)
  {
    if window != [] && window[0] < cutoff {
      var rest, kept := window[1..], DropExpired(window, cutoff);
      DropIsCut(rest, cutoff);
      assert rest[|rest| - |kept|..] == window[|window| - |kept|..];
      forall i | 0 <= i < |window| - |kept|
        ensures window[i] < cutoff
      {
        if i > 0 { assert window[i] == rest[i - 1]; }
      }
    }
  }

  /** What is kept is a suffix; everything in front of it, and nothing at its start, lies before
      the cutoff. */
  predicate IsCut(window: seq<nat>, kept: seq<nat>, cutoff: int) {
    && |kept| <= |window| && kept == window[|window| - |kept|..]
    && (forall i :: 0 <= i < |window| - |kept| ==> window[i] < cutoff)
    && (kept != [] ==> cutoff <= kept[0])
  }

  /** Nothing expires during the first hour of the clock. */
  function Drain(window: seq<nat>, now: nat): seq<nat> {
    if now >= HOUR then DropExpired(window, now - HOUR) else window
  }

  /** A drain takes exactly what is older than 3600 seconds off the front. */
  lemma {:induction false} DrainIsCut(window: seq<nat>, now: nat)
    ensures IsCut(window, Drain(window, now), now - 3600 * 1_000_000_000)
  {
    if now >= HOUR { DropIsCut(window, now - HOUR); }
  }

  // ---- the lock sections ----

  function FlagRefusal(cfg: Config, g: GuardState): Verdict {
    Refused(DailyBudget(ToCents(g.total), if cfg.maxCostPerDayCents.Some? then cfg.maxCostPerDayCents.value else 0))
  }

  function BudgetSection(cfg: Config, g: GuardState): (GuardState, Verdict) {
    if cfg.maxCostPerDayCents.Some? && ToCents(g.total) >= cfg.maxCostPerDayCents.value then
      (g.(budgetExceeded := true), Refused(DailyBudget(ToCents(g.total), cfg.maxCostPerDayCents.value)))
    else
      (g, Allowed)
  }

  function RateSection(cfg: Config, g: GuardState, now: nat): (GuardState, Verdict) {
    if cfg.maxActionsPerHour.None? then (g, Allowed) else
      var window := Drain(g.window, now);
      (g.(window := window),
       if |window| >= cfg.maxActionsPerHour.value
       then Refused(HourlyRate(|window|, cfg.maxActionsPerHour.value)) else Allowed)
  }

  function CostSection(cfg: Config, g: GuardState, today: nat, cost: real): GuardState {
    var newDay := today != g.resetDate;
    var total := if newDay then cost else g.total + cost;
    var flag := if newDay then false else g.budgetExceeded;
    var crossed := cfg.maxCostPerDayCents.Some? && ToCents(total) >= cfg.maxCostPerDayCents.value;
    g.(total := total, resetDate := today, budgetExceeded := flag || crossed)
  }

  function ActionSection(g: GuardState, now: nat): GuardState {
    g.(window := g.window + [now])
  }

  function Usage(tokens: map<string, ModelTokens>, model: string): ModelTokens {
    if model in tokens then tokens[model] else ModelTokens(0, 0, 0.0)
  }

  function TokensSection(g: GuardState, model: string, input: nat, output: nat, cost: real): GuardState {
    var u := Usage(g.modelTokens, model);
    g.(modelTokens := g.modelTokens[model :=
       ModelTokens(u.inputTokens + input, u.outputTokens + output, u.cost + cost)])
  }

  function ReportedSpend(g: GuardState, today: nat): real {
    if today != g.resetDate then 0.0 else g.total
  }

  /** A whole check taken without interruption. */
  function Check(cfg: Config, g: GuardState, now: nat): (GuardState, Verdict) {
    if g.budgetExceeded then (g, FlagRefusal(cfg, g)) else SlowCheck(cfg, g, now)
  }

  /** The check as it would be without the flag. */
  function SlowCheck(cfg: Config, g: GuardState, now: nat): (GuardState, Verdict) {
    var (g1, v1) := BudgetSection(cfg, g);
    if v1.Refused? then (g1, v1) else RateSection(cfg, g1, now)
  }

  // ---- the price of one call ----

  datatype Pricing = Pricing(inputRate: real, outputRate: real, readDiscount: real, writeMultiplier: real)

  /** Rates that charge nothing below zero; the factors matter only where input has a price. */
  predicate SanePricing(p: Pricing) {
    && 0.0 <= p.inputRate && 0.0 <= p.outputRate
    && (p.inputRate == 0.0 || (0.0 <= p.readDiscount && 0.0 <= p.writeMultiplier))
  }

  function SaturatingAdd(a: U32, b: U32): U32 { if a + b <= U32_MAX then a + b else U32_MAX }

  function SaturatingSub(a: U32, b: U32): U32 { if a >= b then a - b else 0 }

  function TokenCost(rate: real, tokens: U32): real { rate * tokens as real }

  function ReadCost(p: Pricing, tokens: U32): real {
    TokenCost(p.inputRate, tokens) / EffectiveDiscount(p)
  }

  function EffectiveDiscount(p: Pricing): (d: real)
    ensures d != 0.0
  {
    if p.readDiscount == 0.0 then 1.0 else p.readDiscount
  }

  function WriteCost(p: Pricing, tokens: U32): real { TokenCost(p.inputRate, tokens) * p.writeMultiplier }

  /** Cached tokens are priced apart; a provider that reports more cached tokens than
      input tokens is charged for no uncached ones. */
  function CallCost(p: Pricing, input: U32, output: U32, cacheRead: U32, cacheWrite: U32): real {
    TokenCost(p.inputRate, SaturatingSub(input, SaturatingAdd(cacheRead, cacheWrite)))
    + ReadCost(p, cacheRead) + WriteCost(p, cacheWrite) + TokenCost(p.outputRate, output)
  }

  lemma {:induction false} TokenCostMonotone(rate: real, tokens: U32, more: U32)
    requires 0.0 <= rate && tokens <= more
    ensures 0.0 <= TokenCost(rate, tokens) <= TokenCost(rate, more)
  {
    MulMono(rate, tokens as real, more as real);
  }

  lemma {:induction false} TokenCostBounded(rate: real, tokens: U32)
    requires 0.0 <= rate
    ensures 0.0 <= TokenCost(rate, tokens) <= TokenCost(rate, U32_MAX)
  {
    TokenCostMonotone(rate, tokens, U32_MAX);
  }

  lemma {:induction false} ReadCostBounded(p: Pricing, tokens: U32)
    requires SanePricing(p)
    ensures 0.0 <= ReadCost(p, tokens) <= ReadCost(p, U32_MAX)
  {
    TokenCostBounded(p.inputRate, tokens);
    if p.inputRate == 0.0 { FreeInput(p, tokens); }
    else { DivMono(TokenCost(p.inputRate, tokens), TokenCost(p.inputRate, U32_MAX), EffectiveDiscount(p)); }
  }

  lemma {:induction false} WriteCostBounded(p: Pricing, tokens: U32)
    requires SanePricing(p)
    ensures 0.0 <= WriteCost(p, tokens) <= WriteCost(p, U32_MAX)
  {
    TokenCostBounded(p.inputRate, tokens);
    if p.inputRate == 0.0 {
      FreeInput(p, tokens);
    } else {
      ghost var some, all := TokenCost(p.inputRate, tokens), TokenCost(p.inputRate, U32_MAX);
      ScaleBounded(some, all, p.writeMultiplier);
      assert WriteCost(p, tokens) == some * p.writeMultiplier && WriteCost(p, U32_MAX) == all * p.writeMultiplier;
    }
  }

  lemma {:induction false} FreeInput(p: Pricing, tokens: U32)
    requires p.inputRate == 0.0
    ensures ReadCost(p, tokens) == 0.0 == WriteCost(p, tokens)
    ensures ReadCost(p, U32_MAX) == 0.0 == WriteCost(p, U32_MAX)
  {
    assert TokenCost(p.inputRate, tokens) == 0.0 == TokenCost(p.inputRate, U32_MAX);
    assert 0.0 / EffectiveDiscount(p) == 0.0;
  }

  /** Under sane prices no call costs more than the largest token counts a call can report: this
      is the per-call bound m of the whole-run results. */
  lemma {:induction false} CallCostBounded(p: Pricing, input: U32, output: U32, cacheRead: U32, cacheWrite: U32)
    requires SanePricing(p)
    ensures 0.0 <= CallCost(p, input, output, cacheRead, cacheWrite) <= WorstCost(p)
  {
    TokenCostBounded(p.inputRate, SaturatingSub(input, SaturatingAdd(cacheRead, cacheWrite)));
    ReadCostBounded(p, cacheRead);
    WriteCostBounded(p, cacheWrite);
    TokenCostBounded(p.outputRate, output);
  }

  function WorstCost(p: Pricing): real {
    TokenCost(p.inputRate, U32_MAX) + ReadCost(p, U32_MAX) + WriteCost(p, U32_MAX)
    + TokenCost(p.outputRate, U32_MAX)
  }

  ghost predicate NeverNegative(p: Pricing) {
    forall input: U32, output: U32, cacheRead: U32, cacheWrite: U32 ::
      0.0 <= CallCost(p, input, output, cacheRead, cacheWrite)
  }

  /** No call is charged below zero exactly under sane prices. */
  lemma {:induction false} NeverNegativeExactlyWhen(p: Pricing)
    ensures NeverNegative(p) <==> SanePricing(p)
  {
    if SanePricing(p) {
      forall input: U32, output: U32, cacheRead: U32, cacheWrite: U32
        ensures 0.0 <= CallCost(p, input, output, cacheRead, cacheWrite)
      {
        CallCostBounded(p, input, output, cacheRead, cacheWrite);
      }
    }
    if NeverNegative(p) {
      SingleTokens(p);
      assert 0.0 <= CallCost(p, 1, 0, 0, 0) && 0.0 <= CallCost(p, 0, 1, 0, 0);
      if 0.0 < p.inputRate {
        assert 0.0 <= CallCost(p, 0, 0, 1, 0) && 0.0 <= CallCost(p, 0, 0, 0, 1);
        SignOfQuotient(p.inputRate, EffectiveDiscount(p));
        SignOfProduct(p.inputRate, p.writeMultiplier);
      }
    }
  }

  /** What one token of each kind costs. */
  lemma {:induction false} SingleTokens(p: Pricing)
    ensures CallCost(p, 1, 0, 0, 0) == p.inputRate && CallCost(p, 0, 1, 0, 0) == p.outputRate
    ensures CallCost(p, 0, 0, 1, 0) == p.inputRate / EffectiveDiscount(p)
    ensures CallCost(p, 0, 0, 0, 1) == p.inputRate * p.writeMultiplier
  {
    assert TokenCost(p.inputRate, 0) == 0.0 && TokenCost(p.outputRate, 0) == 0.0;
    assert TokenCost(p.inputRate, 1) == p.inputRate && TokenCost(p.outputRate, 1) == p.outputRate;
    assert 0.0 / EffectiveDiscount(p) == 0.0;
  }

  /** Every token is charged once and by its kind: with at most as many cached tokens as input
      tokens, the price is that of the uncached, read, written and output tokens each alone. */
  lemma {:induction false} TokensAreChargedOnce(p: Pricing, input: U32, output: U32, read: U32, write: U32)
    requires read + write <= input
    ensures CallCost(p, input, output, read, write)
         == CallCost(p, input - read - write, 0, 0, 0) + CallCost(p, 0, output, 0, 0)
            + CallCost(p, 0, 0, read, 0) + CallCost(p, 0, 0, 0, write)
  {
    NoTokens(p);
  }

  /** A provider that reports more cached tokens than input tokens is charged for the cached ones
      and the output only: the input does not matter. */
  lemma {:induction false} ExcessInputIsFree(p: Pricing, input: U32, output: U32, read: U32, write: U32)
    requires input <= read + write
    ensures CallCost(p, input, output, read, write)
         == CallCost(p, 0, output, 0, 0) + CallCost(p, 0, 0, read, 0) + CallCost(p, 0, 0, 0, write)
  {
    NoTokens(p);
  }

  /** The price of n tokens of one kind: the rate, divided by the discount or multiplied by the
      write factor for cached ones; a discount of zero counts as none. */
  lemma {:induction false} KindsHaveTheirPrice(p: Pricing, n: U32)
    ensures CallCost(p, n, 0, 0, 0) == n as real * p.inputRate && CallCost(p, 0, n, 0, 0) == n as real * p.outputRate
    ensures p.readDiscount == 0.0 ==> CallCost(p, 0, 0, n, 0) == n as real * p.inputRate
    ensures p.readDiscount != 0.0 ==> CallCost(p, 0, 0, n, 0) * p.readDiscount == n as real * p.inputRate
    ensures CallCost(p, 0, 0, 0, n) == n as real * p.inputRate * p.writeMultiplier
  {
    NoTokens(p);
  }

  lemma {:induction false} NoTokens(p: Pricing)
    ensures TokenCost(p.inputRate, 0) == TokenCost(p.outputRate, 0) == ReadCost(p, 0) == WriteCost(p, 0) == 0.0
  {
    assert 0.0 / EffectiveDiscount(p) == 0.0;
  }

  lemma {:induction false} SignOfQuotient(x: real, d: real)
    requires 0.0 < x && d != 0.0 && 0.0 <= x / d
    ensures 0.0 < d
  {
    var q := x / d;
    assert q * d == x;
    if d < 0.0 { assert false; }
  }

  lemma {:induction false} SignOfProduct(x: real, a: real)
    requires 0.0 < x && 0.0 <= x * a
    ensures 0.0 <= a
  {
    if a < 0.0 { assert false; }
  }

  lemma {:induction false} ScaleBounded(x: real, y: real, a: real)
    requires 0.0 <= a && 0.0 <= x <= y
    ensures 0.0 <= x * a <= y * a
  {
    MulMono(a, x, y);
  }

  lemma {:induction false} MulMono(a: real, x: real, y: real)
    requires 0.0 <= a && 0.0 <= x <= y
    ensures 0.0 <= a * x <= a * y
  {
    assert 0.0 <= a * (y - x);
  }

  lemma {:induction false} DivMono(x: real, y: real, d: real)
    requires 0.0 <= x <= y && 0.0 < d
    ensures 0.0 <= x / d <= y / d
  {
    var q, r := x / d, y / d;
    assert q * d == x && r * d == y;
    if q < 0.0 { assert false; }
    assert (r - q) * d == y - x;
    if r < q { assert false; }
  }

  // ---- the guard ----

  class CostGuard {
    const config: Config
    var total: real
    var resetDate: nat
    var window: seq<nat>
    var budgetExceeded: bool
    var modelTokens: map<string, ModelTokens>

    function State(): GuardState
      reads this
    {
      GuardState(total, resetDate, window, budgetExceeded, modelTokens)
    }

    constructor (config: Config, today: nat)
      ensures this.config == config
      ensures State() == InitialGuard(today)
    {
      this.config := config;
      total := 0.0;
      resetDate := today;
      window := [];
      budgetExceeded := false;
      modelTokens := map[];
    }

    method DrainExpired(now: nat)
      modifies this`window
      ensures window == Drain(old(window), now)
      ensures IsCut(old(window), window, now - 3600 * 1_000_000_000)
    {
      DrainIsCut(window, now);
      if now >= HOUR {
        var cutoff := now - HOUR;
        while window != [] && window[0] < cutoff
          invariant DropExpired(window, cutoff) == DropExpired(old(window), cutoff)
          decreases |window|
        {
          window := window[1..];
        }
      }
    }

    /** `check_allowed`, run without interruption. */
    method CheckAllowed(now: nat) returns (verdict: Verdict)
      modifies this
      ensures (State(), verdict) == Check(config, old(State()), now)
    {
      if budgetExceeded {
        var spent := ToCents(total);
        var limit := match config.maxCostPerDayCents case Some(l) => l case None => 0;
        return Refused(DailyBudget(spent, limit));
      }
      if config.maxCostPerDayCents.Some? {
        var limit := config.maxCostPerDayCents.value;
        var spent := ToCents(total);
        if spent >= limit {
          budgetExceeded := true;
          return Refused(DailyBudget(spent, limit));
        }
      }
      if config.maxActionsPerHour.Some? {
        var limit := config.maxActionsPerHour.value;
        DrainExpired(now);
        var count := |window|;
        if count >= limit {
          return Refused(HourlyRate(count, limit));
        }
      }
      return Allowed;
    }

    /** `record_llm_call`, run without interruption. */
    method RecordLlmCall(model: string, pricing: Pricing, input: U32, output: U32, cacheRead: U32,
                         cacheWrite: U32, now: nat, today: nat)
      returns (cost: real)
      modifies this
      ensures cost == CallCost(pricing, input, output, cacheRead, cacheWrite)
      ensures State() ==
              var g1 := CostSection(config, old(State()), today, cost);
              TokensSection(ActionSection(g1, now), model, input, output, cost)
    {
      cost := CallCost(pricing, input, output, cacheRead, cacheWrite);

      if today != resetDate {
        total := 0.0;
        resetDate := today;
        budgetExceeded := false;
      }
      total := total + cost;
      if config.maxCostPerDayCents.Some? {
        var spent := ToCents(total);
        if spent >= config.maxCostPerDayCents.value {
          budgetExceeded := true;
        }
      }

      window := window + [now];

      var entry := Usage(modelTokens, model);
      modelTokens := modelTokens[model :=
        ModelTokens(entry.inputTokens + input, entry.outputTokens + output, entry.cost + cost)];
    }

    /** `daily_spend`: a stale total reads as zero although it is only reset by a record. */
    method DailySpend(today: nat) returns (spend: real)
      ensures spend == ReportedSpend(State(), today)
    {
      if today != resetDate {
        return 0.0;
      }
      spend := total;
    }

    method ActionsThisHour(now: nat) returns (count: nat)
      modifies this`window
      ensures window == Drain(old(window), now) && count == |window|
    {
      DrainExpired(now);
      count := |window|;
    }
  }

  function InitialGuard(today: nat): GuardState {
    GuardState(0.0, today, [], false, map[])
  }
}
