/** The cumulative budget of the run: what an attempt is charged, and whether one more full attempt
    fits. The source keeps one counter per data service, one combined model counter, one credit
    counter and one attempt counter; here they are the meters of one map. */
module Budgets {
  import opened Wrappers
  import opened Protocols

  const METERS: set<Meter> :=
    {Requests(Geoapify), Requests(OpenMeteo), Requests(NagerDate), Requests(Frankfurter), Requests(Kiwi),
     LlmCombined, GeoapifyCredits, Attempts}

  /** What one full attempt may use. */
  function Cap(p: Protocol, m: Meter): nat {
    match m
    case Requests(s) => Count(p.caps, s)
    case LlmCombined => p.llmCap
    case GeoapifyCredits => p.creditCap
    case Attempts => 1
  }

  /** What the whole run may use. */
  function Total(p: Protocol, m: Meter): nat {
    match m
    case Requests(s) => Count(p.totals, s)
    case LlmCombined => p.llmTotal
    case GeoapifyCredits => p.creditTotal
    case Attempts => p.maxAttempts
  }

  /** One attempt's charge: its final record's figures, or the full caps if it has none. */
  function Charge(p: Protocol, r: Option<Record>, m: Meter): int {
    if r.None? then Cap(p, m)
    else
      match m
      case Requests(s) => Count(r.value.requests, s)
      case LlmCombined => r.value.llm
      case GeoapifyCredits => r.value.credits
      case Attempts => 1
  }

  ghost predicate IsUsage(u: Usage) {
    u.Keys == METERS
  }

  function EmptyUsage(): (u: Usage)
    ensures IsUsage(u)
  {
    map m | m in METERS :: 0
  }

  function AddAttempt(u: Usage, r: Option<Record>, p: Protocol): (after: Usage)
    requires IsUsage(u)
    ensures IsUsage(after)
  {
    map m | m in METERS :: u[m] + Charge(p, r, m)
  }

  function Spent(rs: seq<Option<Record>>, p: Protocol, m: Meter): int {
    if rs == [] then 0 else Spent(rs[..|rs| - 1], p, m) + Charge(p, rs[|rs| - 1], m)
  }

  /** The usage of a list of attempts, meter by meter. */
  ghost function UsageSum(rs: seq<Option<Record>>, p: Protocol): (u: Usage)
    ensures IsUsage(u)
  {
    map m | m in METERS :: Spent(rs, p, m)
  }

  lemma SpentAppend(rs: seq<Option<Record>>, r: Option<Record>, p: Protocol, m: Meter)
    ensures Spent(rs + [r], p, m) == Spent(rs, p, m) + Charge(p, r, m)
  {
    assert (rs + [r])[..|rs|] == rs;
  }

  lemma UsageAppend(rs: seq<Option<Record>>, r: Option<Record>, p: Protocol)
    ensures UsageSum(rs + [r], p) == AddAttempt(UsageSum(rs, p), r, p)
  {
    forall m | m in METERS {
      SpentAppend(rs, r, p, m);
    }
  }

  method UsageOf(rs: seq<Option<Record>>, p: Protocol) returns (u: Usage)
    ensures u == UsageSum(rs, p)
  {
    u := EmptyUsage();
    for i := 0 to |rs|
      invariant u == UsageSum(rs[..i], p)
    {
      UsageAppend(rs[..i], rs[i], p);
      assert rs[..i + 1] == rs[..i] + [rs[i]];
      u := AddAttempt(u, rs[i], p);
    }
    assert rs[..|rs|] == rs;
  }

  /** The figures the guard's caps bound; the credits are the provider's own report. */
  ghost predicate WithinCaps(r: Record, p: Protocol) {
    && (forall s: Service :: Count(r.requests, s) <= Count(p.caps, s))
    && r.llm == LlmCount(r.requests) <= p.llmCap
  }

  ghost predicate ReportsWithinCap(r: Record, p: Protocol) {
    r.credits <= p.creditCap
  }

  /** A recorded attempt never costs more than the same attempt without a record. */
  lemma ChargeAtMostCap(p: Protocol, r: Option<Record>, m: Meter)
    requires r.Some? ==> WithinCaps(r.value, p)
    requires m == GeoapifyCredits && r.Some? ==> ReportsWithinCap(r.value, p)
    ensures Charge(p, r, m) <= Cap(p, m)
  {
    if r.Some? && m.Requests? {
      assert Count(r.value.requests, m.service) <= Count(p.caps, m.service);
    }
  }

  lemma {:induction false} SpentAtMostCaps(rs: seq<Option<Record>>, p: Protocol, m: Meter)
    requires forall r | r in rs && r.Some? :: WithinCaps(r.value, p)
    requires m == GeoapifyCredits ==> forall r | r in rs && r.Some? :: ReportsWithinCap(r.value, p)
    ensures Spent(rs, p, m) <= |rs| * Cap(p, m)
  {
    if rs != [] {
      var n, cap := |rs| - 1, Cap(p, m);
      assert rs[n] in rs;
      ChargeAtMostCap(p, rs[n], m);
      forall r | r in rs[..n] ensures r in rs {}
      SpentAtMostCaps(rs[..n], p, m);
      OneMore(n, cap);
    }
  }

  lemma OneMore(n: nat, cap: nat)
    ensures (n + 1) * cap == n * cap + cap
  {}

  /** `budget_shortfall`: what one more full attempt would overrun. */
  function Shortfall(u: Usage, scenarioAttempts: nat, p: Protocol): set<Short>
    requires IsUsage(u)
  {
    (set m | m in METERS && (m.Requests? ==> Cap(p, m) > 0) && u[m] + Cap(p, m) > Total(p, m) :: Over(m))
    + (if scenarioAttempts + 1 > p.maxPerScenario then {AttemptsPerScenario} else {})
  }

  /** The meters the check looks at: a service without a cap is passed over. */
  predicate Checked(p: Protocol, m: Meter) {
    m in METERS && (m.Requests? ==> Cap(p, m) > 0)
  }

  /** Nothing is short exactly when one more full attempt stays within every total the check looks at: no
      attempt is refused that would fit, and none is let through that would not. */
  lemma ShortfallIsExact(u: Usage, n: nat, p: Protocol)
    requires IsUsage(u)
    ensures Shortfall(u, n, p) == {} <==>
              n < p.maxPerScenario && forall m | Checked(p, m) :: AddAttempt(u, None, p)[m] <= Total(p, m)
  {
    var after := AddAttempt(u, None, p);
    var short := Shortfall(u, n, p);
    if short == {} {
      assert AttemptsPerScenario !in short;
      forall m | Checked(p, m) ensures after[m] <= Total(p, m) {
        assert Over(m) !in short;
      }
    } else if n < p.maxPerScenario {
      var over :| over in short;
      assert over.Over? && Checked(p, over.meter) && after[over.meter] > Total(p, over.meter);
    }
  }

  /** The frozen figures of `evaluation/quality_v3/protocol.json`, for its ten scenario ids. */
  function FrozenProtocol(scenarios: seq<ScenarioId>, sortKeys: map<ScenarioId, int>): Protocol {
    Protocol(
      scenarios,
      map[Geoapify := 100, Groq := 8, Gemini := 8, OpenMeteo := 2, NagerDate := 3, Frankfurter := 2, Kiwi := 0],
      8, 100,
      map[Geoapify := 1200, OpenMeteo := 24, NagerDate := 36, Frankfurter := 24, Kiwi := 0],
      96, 1200,
      3, 12, 2, sortKeys)
  }
}
