/** The daily bound of the shared cost guard cannot be improved. */
module CostGuardTight {
  import opened Wrappers
  import opened CostGuards
  import opened CostGuardRuns
  import opened CostGuardSpend

  /** `total` has been spent on day 0; the first `checked` slots have passed their checks, of
      which the first `recorded` have recorded their cost. */
  predicate Paid(s: System, k: nat, total: real, checked: nat, recorded: nat) {
    && s.today == 0 && s.guard.resetDate == 0 && |s.slots| == k
    && s.guard.total == total && DaySum(s.spends, 0) == total
    && forall i :: 0 <= i < k ==>
         if i < recorded then s.slots[i].Recording?
         else if i < checked then s.slots[i].Calling? else s.slots[i].Idle?
  }

  function Budget(limit: nat): Config {
    Config(Some(limit), None)
  }

  /** A run whose costs lie between zero and m, from s to a state with that much paid. */
  ghost predicate Pays(
    s: System, events: seq<Event>, limit: nat, k: nat, m: real, total: real, checked: nat, recorded: nat)
  {
    && ValidRun(Budget(limit), s, events) && CostsWithin(events, m)
    && Paid(Final(Budget(limit), s, events), k, total, checked, recorded)
  }

  lemma {:induction false} PaysThen(
    s: System, first: seq<Event>, second: seq<Event>, limit: nat, k: nat, m: real, total: real,
    checked: nat, recorded: nat)
    requires ValidRun(Budget(limit), s, first) && CostsWithin(first, m)
    requires Pays(Final(Budget(limit), s, first), second, limit, k, m, total, checked, recorded)
    ensures Pays(s, first + second, limit, k, m, total, checked, recorded)
  {
    RunsCompose(Budget(limit), s, first, second);
  }

  lemma {:induction false} Check(s: System, limit: nat, k: nat, m: real, total: real, i: nat)
    returns (events: seq<Event>)
    requires i < k && Paid(s, k, total, i, 0) && 0.0 <= total && total * 100.0 < limit as real
    ensures Pays(s, events, limit, k, m, total, i + 1, 0)
  {
    events := [Begin(i, false), CheckBudget(i), CheckRate(i)];
    assert ToCents(total) < limit;
    RunThree(Budget(limit), s, Begin(i, false), CheckBudget(i), CheckRate(i));
  }

  lemma {:induction false} Record(
    s: System, limit: nat, k: nat, m: real, total: real, i: nat, checked: nat, cost: real)
    returns (events: seq<Event>)
    requires i < checked <= k && Paid(s, k, total, checked, i) && 0.0 <= cost <= m
    ensures Pays(s, events, limit, k, m, total + cost, checked, i + 1)
  {
    var e := RecordCost(i, "", 0, 0, cost);
    events := [e];
    assert events[1..] == [];
    DaySumAppend(s.spends, Spend(0, "", 0, 0, cost));
    var t := Next(Budget(limit), s, e);
    assert t.spends == s.spends + [Spend(0, "", 0, 0, cost)] && t.slots == s.slots[i := t.slots[i]];
    assert t.guard.total == total + cost;
  }

  lemma {:induction false} DaySumAppend(spends: seq<Spend>, entry: Spend)
    ensures DaySum(spends + [entry], entry.day) == DaySum(spends, entry.day) + entry.cost
  {
    assert (spends + [entry])[..|spends|] == spends;
  }

  lemma {:induction false} Finish(s: System, limit: nat, k: nat, m: real, total: real) returns (events: seq<Event>)
    requires k >= 1 && Paid(s, k, total, 1, 1)
    ensures Pays(s, events, limit, k, m, total, 0, 0)
  {
    events := [RecordAction(0), RecordTokens(0)];
    RunTwo(Budget(limit), s, RecordAction(0), RecordTokens(0));
  }

  /** One more call in slot 0. */
  lemma {:induction false} PayOne(s: System, limit: nat, k: nat, m: real, total: real, cost: real)
    returns (events: seq<Event>)
    requires k >= 1 && Paid(s, k, total, 0, 0) && 0.0 <= total && total * 100.0 < limit as real && 0.0 <= cost <= m
    ensures Pays(s, events, limit, k, m, total + cost, 0, 0)
  {
    var cfg := Budget(limit);
    var a := Check(s, limit, k, m, total, 0);
    var b := Record(Final(cfg, s, a), limit, k, m, total, 0, 1, cost);
    PaysThen(s, a, b, limit, k, m, total + cost, 1, 1);
    var d := Finish(Final(cfg, s, a + b), limit, k, m, total + cost);
    PaysThen(s, a + b, d, limit, k, m, total + cost, 0, 0);
    events := a + b + d;
  }

  /** Call after call any sum below the limit can be spent. */
  lemma {:induction false} PayUpTo(limit: nat, k: nat, m: real, sum: real, calls: nat) returns (events: seq<Event>)
    requires k >= 1 && 0.0 <= sum && sum * 100.0 < limit as real && 0.0 <= m && sum <= Reserve(calls, m)
    ensures Pays(Start(k, 0, 0), events, limit, k, m, sum, 0, 0)
    decreases calls
  {
    if calls == 0 {
      events := [];
    } else {
      ReserveOneMore(calls - 1, m);
      var before := if sum <= m then 0.0 else sum - m;
      ReserveMonotone(0, calls - 1, m);
      events := PayUpTo(limit, k, m, before, calls - 1);
      var more := PayOne(Final(Budget(limit), Start(k, 0, 0), events), limit, k, m, before, sum - before);
      PaysThen(Start(k, 0, 0), events, more, limit, k, m, sum, 0, 0);
      events := events + more;
    }
  }

  lemma {:induction false} CheckRest(s: System, limit: nat, k: nat, m: real, total: real, i: nat)
    returns (events: seq<Event>)
    requires i <= k && Paid(s, k, total, i, 0) && 0.0 <= total && total * 100.0 < limit as real
    ensures Pays(s, events, limit, k, m, total, k, 0)
    decreases k - i
  {
    if i == k {
      events := [];
    } else {
      var first := Check(s, limit, k, m, total, i);
      var rest := CheckRest(Final(Budget(limit), s, first), limit, k, m, total, i + 1);
      PaysThen(s, first, rest, limit, k, m, total, k, 0);
      events := first + rest;
    }
  }

  lemma {:induction false} RecordRest(s: System, limit: nat, k: nat, m: real, total: real, i: nat)
    returns (events: seq<Event>)
    requires i <= k && Paid(s, k, total, k, i) && 0.0 <= m
    ensures Pays(s, events, limit, k, m, total + Reserve(k - i, m), k, k)
    decreases k - i
  {
    if i == k {
      events := [];
    } else {
      var first := Record(s, limit, k, m, total, i, k, m);
      var rest := RecordRest(Final(Budget(limit), s, first), limit, k, m, total + m, i + 1);
      ReserveOneMore(k - i - 1, m);
      PaysThen(s, first, rest, limit, k, m, total + Reserve(k - i, m), k, k);
      events := first + rest;
    }
  }

  /** Enough calls of price m pay any sum. */
  lemma {:induction false} EnoughCalls(sum: real, m: real) returns (calls: nat)
    requires 0.0 <= sum && 0.0 < m
    ensures sum <= Reserve(calls, m)
  {
    var q := sum / m;
    assert q * m == sum;
    calls := if q < 0.0 then 0 else q.Floor + 1;
    MulMono(m, if q < 0.0 then 0.0 else q, calls as real);
  }

  lemma {:induction false} FullRun(limit: nat, k: nat, m: real, sum: real) returns (events: seq<Event>)
    requires k >= 1 && 0.0 < m && 0.0 <= sum && sum * 100.0 < limit as real
    ensures Pays(Start(k, 0, 0), events, limit, k, m, sum + Reserve(k, m), k, k)
  {
    var start, cfg := Start(k, 0, 0), Budget(limit);
    var calls := EnoughCalls(sum, m);
    var a := PayUpTo(limit, k, m, sum, calls);
    var b := CheckRest(Final(cfg, start, a), limit, k, m, sum, 0);
    PaysThen(start, a, b, limit, k, m, sum, k, 0);
    var d := RecordRest(Final(cfg, start, a + b), limit, k, m, sum, 0);
    PaysThen(start, a + b, d, limit, k, m, sum + Reserve(k, m), k, k);
    events := a + b + d;
  }

  /** For every limit, number of callers, price and sum below the limit some run spends that
      sum plus k times m on one day: so no bound below limit/100 + k m holds. */
  lemma {:induction false} DailyLimitIsTight(limit: nat, k: nat, m: real, sum: real)
    requires k >= 1 && 0.0 < m && 0.0 <= sum && sum * 100.0 < limit as real
    ensures exists events ::
              && ValidRun(Budget(limit), Start(k, 0, 0), events) && CostsWithin(events, m)
              && DaySum(Final(Budget(limit), Start(k, 0, 0), events).spends, 0) == sum + k as real * m
  {
    var events := FullRun(limit, k, m, sum);
    assert Pays(Start(k, 0, 0), events, limit, k, m, sum + Reserve(k, m), k, k);
  }
}
