/** The credit total: the one cumulative total the program cannot keep by itself, because it adds whatever
    figure a provider reports. */
module Credits {
  import opened Wrappers
  import opened Protocols
  import opened Budgets
  import opened Grammar
  import opened LegalLogs
  import opened RunTheorems
  import opened Runner

  /** Ten distinct scenarios under the frozen figures. */
  ghost predicate Frozen(p: Protocol) {
    |p.scenarios| == 10 && Distinct(p.scenarios) && p == FrozenProtocol(p.scenarios, p.sortKeys)
  }

  /** A run under way, with no attempt open and nothing lost in its session so far. */
  ghost predicate Between(p: Protocol, log: seq<Event>, k: nat) {
    && Legal(p, log) && log != [] && StageOf(log) == Running && Sessions(log) == k
    && SessionClear(Slots(log), k)
  }

  function CreditRecord(log: seq<Event>, k: nat, s: ScenarioId, outcome: Outcome, credits: int): Record {
    Record(s, CountOf(Slots(log), s) + 1, k, outcome, map[], 0, credits)
  }

  /** The log after one attempt that sent nothing and reported `credits`. */
  function WithTurn(log: seq<Event>, k: nat, s: ScenarioId, outcome: Outcome, credits: int): seq<Event> {
    var r := CreditRecord(log, k, s, outcome, credits);
    log + [StartEvent(k, s, r.attempt)] + [FinalEvent(r)]
  }

  lemma TurnStarts(p: Protocol, log: seq<Event>, k: nat, s: ScenarioId)
    requires Frozen(p) && Between(p, log, k) && ReportsOk(p, Slots(log))
    requires s in p.scenarios && !HasResult(Slots(log), s)
    ensures var e := StartEvent(k, s, CountOf(Slots(log), s) + 1);
            && Legal(p, log + [e]) && StageOf(log + [e]) == Running && Sessions(log + [e]) == k
            && Slots(log + [e]) == Slots(log) + [NewSlot(e)]
  {
    var e := StartEvent(k, s, CountOf(Slots(log), s) + 1);
    FrozenBudgetNeverRefuses(p, log, s);
    LegalIsOk(p, log);
    StartKeepsLogOk(p, log, e);
    LegalGrows(p, log, e);
    Replay(log, e);
  }

  lemma TurnFinishes(p: Protocol, log: seq<Event>, k: nat, before: seq<Slot>, r: Record)
    requires Legal(p, log) && StageOf(log) == Running && Sessions(log) == k == r.session
    requires Slots(log) == before + [NewSlot(StartEvent(k, r.scenario, r.attempt))]
    requires r.requests == map[] && r.llm == 0
    ensures var e := FinalEvent(r);
            && Legal(p, log + [e]) && StageOf(log + [e]) == Running && Sessions(log + [e]) == k
            && Slots(log + [e]) == Amended(Slots(log), e)
  {
    var e, slots := FinalEvent(r), Slots(log);
    assert slots[|slots| - 1] == NewSlot(StartEvent(k, r.scenario, r.attempt));
    assert Finishable(p, slots, k, r.scenario, r.attempt, r);
    LegalIsOk(p, log);
    AmendKeepsLogOk(p, log, e);
    LegalGrows(p, log, e);
    Replay(log, e);
  }

  lemma TurnIsLegal(p: Protocol, log: seq<Event>, k: nat, s: ScenarioId, outcome: Outcome, credits: int)
    requires Frozen(p) && Between(p, log, k) && ReportsOk(p, Slots(log))
    requires s in p.scenarios && !HasResult(Slots(log), s)
    ensures var after, r := WithTurn(log, k, s, outcome, credits), CreditRecord(log, k, s, outcome, credits);
            && Legal(p, after) && after != [] && StageOf(after) == Running && Sessions(after) == k
            && Slots(after) == Slots(log) + [FinishedSlot(k, s, r.attempt, r)]
            && Records(Slots(after)) == Records(Slots(log)) + [Some(r)]
  {
    var r := CreditRecord(log, k, s, outcome, credits);
    var started := log + [StartEvent(k, s, r.attempt)];
    TurnStarts(p, log, k, s);
    TurnFinishes(p, started, k, Slots(log), r);
    assert Amended(Slots(started), FinalEvent(r)) == Slots(log) + [FinishedSlot(k, s, r.attempt, r)];
    assert RecordOf(FinishedSlot(k, s, r.attempt, r)) == Some(r);
  }

  /** The log after one more session has opened. */
  ghost function WithSession(p: Protocol, log: seq<Event>, k: nat): seq<Event> {
    log + [SessionStarted(k + 1, p, log != [], WithoutResult(p.scenarios, Slots(log)),
                          UsageSum(Records(Slots(log)), p))]
  }

  lemma SessionIsLegal(p: Protocol, log: seq<Event>, k: nat)
    requires Frozen(p) && Legal(p, log) && Sessions(log) == k <= 2 && |Slots(log)| <= 11 && ReportsOk(p, Slots(log))
    requires (log == [] && k == 0) || (log != [] && StageOf(log) == Running)
    requires Slots(log) != [] ==> !Open(Slots(log)[|Slots(log)| - 1])
    ensures Between(p, WithSession(p, log, k), k + 1)
    ensures Slots(WithSession(p, log, k)) == Slots(log)
  {
    var e := SessionStarted(k + 1, p, log != [], WithoutResult(p.scenarios, Slots(log)),
                            UsageSum(Records(Slots(log)), p));
    LegalIsOk(p, log);
    TwelfthFits(p, Slots(log), k, 0);
    assert AllowedSession(p, log, e);
    LegalGrows(p, log, e);
    Replay(log, e);
    NextSessionIsClear(p, Slots(log), k);
  }

  lemma NextSessionIsClear(p: Protocol, slots: seq<Slot>, k: nat)
    requires SlotsOk(p, slots, k)
    ensures SessionClear(slots, k + 1)
  {
    forall i | 0 <= i < |slots| ensures SessionOf(slots[i]) <= k {
      assert SlotOk(p, slots, k, i);
    }
  }

  /** A single report can pass the total: for any ten scenarios, a run of one session and one attempt. */
  lemma UncheckedReportPassesTheTotal(p: Protocol)
    requires Frozen(p)
    ensures exists log ::
              Legal(p, log) && |log| == 3
              && Spent(Records(Slots(log)), p, GeoapifyCredits) > Total(p, GeoapifyCredits)
  {
    var log := WithSession(p, [], 0);
    SessionIsLegal(p, [], 0);
    var s := p.scenarios[0];
    TurnIsLegal(p, log, 1, s, Result, 1201);
    SpentAppend([], Some(CreditRecord(log, 1, s, Result, 1201)), p, GeoapifyCredits);
    assert Records(Slots(log)) == [];
    assert Legal(p, WithTurn(log, 1, s, Result, 1201));
  }

  // -- twelve attempts -----------------------------------------------------------------------------------------------

  /** A lost attempt of the first scenario, and the next session. */
  function Lost(p: Protocol, log: seq<Event>, k: nat): seq<Event>
    requires p.scenarios != []
  {
    WithTurn(log, k, p.scenarios[0], Interrupted, 100)
  }

  /** So far every report was exactly at the cap. */
  ghost predicate AtTheCap(p: Protocol, log: seq<Event>, n: nat) {
    && |Slots(log)| == n && ReportsOk(p, Slots(log))
    && Spent(Records(Slots(log)), p, GeoapifyCredits) == 100 * n
  }

  lemma GrowsAtTheCap(p: Protocol, log: seq<Event>, after: seq<Event>, k: nat, s: ScenarioId, r: Record, n: nat)
    requires AtTheCap(p, log, n) && r.credits == 100 <= p.creditCap
    requires Slots(after) == Slots(log) + [FinishedSlot(k, s, r.attempt, r)]
    requires Records(Slots(after)) == Records(Slots(log)) + [Some(r)]
    ensures AtTheCap(p, after, n + 1)
  {
    SpentAppend(Records(Slots(log)), Some(r), p, GeoapifyCredits);
    ReportsGrow(p, Slots(log), k, s, r.attempt, r);
  }

  lemma TurnAtTheCap(p: Protocol, log: seq<Event>, k: nat, s: ScenarioId, outcome: Outcome, n: nat)
    requires Frozen(p) && Between(p, log, k) && AtTheCap(p, log, n)
    requires s in p.scenarios && !HasResult(Slots(log), s)
    ensures AtTheCap(p, WithTurn(log, k, s, outcome, 100), n + 1)
  {
    var r := CreditRecord(log, k, s, outcome, 100);
    TurnIsLegal(p, log, k, s, outcome, 100);
    GrowsAtTheCap(p, log, WithTurn(log, k, s, outcome, 100), k, s, r, n);
  }

  lemma LossAndSession(p: Protocol, log: seq<Event>, k: nat, n: nat)
    requires Frozen(p) && Between(p, log, k) && 1 <= k <= 2 && AtTheCap(p, log, n) && n <= 10
    requires forall s :: !HasResult(Slots(log), s)
    ensures var after := WithSession(p, Lost(p, log, k), k);
            && Between(p, after, k + 1) && AtTheCap(p, after, n + 1)
            && forall s :: !HasResult(Slots(after), s)
  {
    var s := p.scenarios[0];
    var r := CreditRecord(log, k, s, Interrupted, 100);
    var lost := Lost(p, log, k);
    TurnIsLegal(p, log, k, s, Interrupted, 100);
    TurnAtTheCap(p, log, k, s, Interrupted, n);
    FinishedCounts(Slots(log), k, s, r.attempt, r);
    assert !Open(FinishedSlot(k, s, r.attempt, r)) by {
      assert Final in FinishedSlot(k, s, r.attempt, r).events.Keys;
    }
    SessionIsLegal(p, lost, k);
  }

  /** One more result at the cap. */
  lemma OneAnswer(p: Protocol, log: seq<Event>, k: nat, s: ScenarioId, n: nat)
    requires Frozen(p) && Between(p, log, k) && AtTheCap(p, log, n)
    requires s in p.scenarios && !HasResult(Slots(log), s)
    ensures var after := WithTurn(log, k, s, Result, 100);
            && Between(p, after, k) && AtTheCap(p, after, n + 1)
            && forall t :: HasResult(Slots(after), t) <==> HasResult(Slots(log), t) || t == s
  {
    var r := CreditRecord(log, k, s, Result, 100);
    TurnIsLegal(p, log, k, s, Result, 100);
    TurnAtTheCap(p, log, k, s, Result, n);
    FinishedCounts(Slots(log), k, s, r.attempt, r);
  }

  /** A run with the results of the first `n` scenarios, and no others. */
  ghost predicate Answers(p: Protocol, log: seq<Event>, k: nat, m: nat, n: nat)
    requires n <= |p.scenarios|
  {
    && Between(p, log, k) && AtTheCap(p, log, m + n)
    && forall s :: HasResult(Slots(log), s) <==> s in p.scenarios[..n]
  }

  lemma NextAnswer(p: Protocol, log: seq<Event>, k: nat, m: nat, n: nat)
    requires Frozen(p) && n <= 8 && Answers(p, log, k, m, n)
    ensures Answers(p, WithTurn(log, k, p.scenarios[n], Result, 100), k, m, n + 1)
  {
    var s := p.scenarios[n];
    assert s !in p.scenarios[..n];
    OneAnswer(p, log, k, s, m + n);
    assert p.scenarios[..n + 1] == p.scenarios[..n] + [s];
  }

  /** The results of the first nine scenarios. */
  lemma NineAnswers(p: Protocol, start: seq<Event>, k: nat, m: nat) returns (log: seq<Event>)
    requires Frozen(p) && Answers(p, start, k, m, 0)
    ensures Answers(p, log, k, m, 9)
  {
    log := start;
    for i := 0 to 9
      invariant Answers(p, log, k, m, i)
    {
      NextAnswer(p, log, k, m, i);
      log := WithTurn(log, k, p.scenarios[i], Result, 100);
    }
  }

  /** Session `k + 1`, after one lost attempt in each session before it. */
  lemma {:induction false} AfterLosses(p: Protocol, k: nat) returns (log: seq<Event>)
    requires Frozen(p) && k <= 2
    ensures Between(p, log, k + 1) && AtTheCap(p, log, k) && forall s :: !HasResult(Slots(log), s)
  {
    if k == 0 {
      SessionIsLegal(p, [], 0);
      log := WithSession(p, [], 0);
    } else {
      log := AfterLosses(p, k - 1);
      LossAndSession(p, log, k, k - 1);
      log := WithSession(p, Lost(p, log, k), k);
    }
  }

  /** Two lost attempts, nine results at the cap. */
  lemma ElevenAttempts(p: Protocol) returns (log: seq<Event>)
    requires Frozen(p)
    ensures Between(p, log, 3) && AtTheCap(p, log, 11) && !HasResult(Slots(log), p.scenarios[9])
  {
    var third := AfterLosses(p, 2);
    assert p.scenarios[..0] == [];
    log := NineAnswers(p, third, 3, 2);
    assert p.scenarios[9] !in p.scenarios[..9];
  }

  /** And a tenth result that reports `credits`. */
  lemma TwelveAttempts(p: Protocol, credits: int) returns (log: seq<Event>)
    requires Frozen(p) && credits >= 100
    ensures Legal(p, log) && |Slots(log)| == 12 && ReportsAtMost(Slots(log), credits)
    ensures Spent(Records(Slots(log)), p, GeoapifyCredits) == 1100 + credits
  {
    var eleven := ElevenAttempts(p);
    var s := p.scenarios[9];
    var r := CreditRecord(eleven, 3, s, Result, credits);
    TurnIsLegal(p, eleven, 3, s, Result, credits);
    log := WithTurn(eleven, 3, s, Result, credits);
    SpentAppend(Records(Slots(eleven)), Some(r), p, GeoapifyCredits);
    assert forall i | 0 <= i < 12 :: RecordOf(Slots(log)[i]) == Records(Slots(log))[i];
  }

  ghost predicate ReportsAtMost(slots: seq<Slot>, bound: int) {
    forall i | 0 <= i < |slots| && RecordOf(slots[i]).Some? :: RecordOf(slots[i]).value.credits <= bound
  }

  /** The credit total is kept in every run whose reports are at most `bound` exactly when that bound is no
      more than the per-generation cap. */
  lemma CreditTotalHoldsExactly(p: Protocol, bound: int)
    requires Frozen(p)
    ensures bound <= p.creditCap <==>
              forall log | Legal(p, log) && ReportsAtMost(Slots(log), bound) ::
                Spent(Records(Slots(log)), p, GeoapifyCredits) <= Total(p, GeoapifyCredits)
  {
    if bound <= p.creditCap {
      forall log | Legal(p, log) && ReportsAtMost(Slots(log), bound)
        ensures Spent(Records(Slots(log)), p, GeoapifyCredits) <= Total(p, GeoapifyCredits)
      {
        TotalsAreNeverPassed(p, log, GeoapifyCredits);
      }
    } else {
      var log := TwelveAttempts(p, 101);
      assert Legal(p, log) && ReportsAtMost(Slots(log), bound);
    }
  }
}
