/** The claims the protocol makes about a whole run, over every legal log. */
module RunTheorems {
  import opened Wrappers
  import opened Protocols
  import opened Budgets
  import opened Grammar
  import opened LegalLogs

  // -- the cumulative limits -----------------------------------------------------------------------------

  /** No request or attempt total is ever passed, at any point of any run, with every unfinished
      attempt counted at its full caps; the credit total is not passed as long as every reported
      figure lies within the per-generation cap. */
  lemma TotalsAreNeverPassed(p: Protocol, log: seq<Event>, m: Meter)
    requires Legal(p, log) && m in METERS
    requires m == GeoapifyCredits ==> ReportsOk(p, Slots(log))
    ensures Spent(Records(Slots(log)), p, m) <= Total(p, m)
  {
    LegalIsOk(p, log);
    assert MeterOk(p, Slots(log), m);
  }

  lemma ShortForEveryScenario(u: Usage, p: Protocol, m: Meter)
    requires IsUsage(u)
    requires Over(m) in Shortfall(u, 0, p)
    ensures forall n: nat :: Over(m) in Shortfall(u, n, p)
  {}

  /** Once a cumulative label is short while no attempt is under way, no attempt ever starts again. */
  lemma {:induction false} ShortStaysShort(p: Protocol, log: seq<Event>, a: nat, m: Meter)
    requires Legal(p, log) && a <= |log|
    requires Over(m) in Shortfall(UsageSum(Records(Slots(log[..a])), p), 0, p)
    requires Slots(log[..a]) != [] ==> !Open(Slots(log[..a])[|Slots(log[..a])| - 1])
    ensures forall i | a <= i < |log| :: !log[i].AttemptEvent?
    ensures Slots(log) == Slots(log[..a])
    decreases |log|
  {
    if a < |log| {
      var n := |log| - 1;
      var e := log[n];
      assert log[..n][..a] == log[..a];
      LegalPrefix(p, log, n);
      ShortStaysShort(p, log[..n], a, m);
      assert log == log[..n] + [e];
      assert forall i | a <= i < n :: log[..n][i] == log[i];
      ShortForEveryScenario(UsageSum(Records(Slots(log[..n])), p), p, m);
    } else {
      assert log[..a] == log;
    }
  }

  // -- one result per scenario ---------------------------------------------------------------------------

  predicate RecordsResult(e: Event, s: ScenarioId) {
    e.AttemptEvent? && e.kind == Final && e.scenario == s
    && e.sha.of.FinalRecord? && e.sha.of.record.outcome != Interrupted
  }

  lemma ResultIsEntered(p: Protocol, log: seq<Event>, e: Event, s: ScenarioId)
    requires LogOk(p, log) && Allowed(p, log, e) && RecordsResult(e, s)
    ensures HasResult(Slots(log + [e]), s)
  {
    AmendKeepsLogOk(p, log, e);
    assert Settled(Slots(log + [e])[|Slots(log)| - 1]);
  }

  lemma {:induction false} ResultIsRemembered(p: Protocol, log: seq<Event>, a: nat, s: ScenarioId)
    requires Legal(p, log) && a < |log| && RecordsResult(log[a], s)
    ensures HasResult(Slots(log), s)
    decreases |log|
  {
    var n := |log| - 1;
    LegalPrefix(p, log, n);
    LegalIsOk(p, log[..n]);
    assert log == log[..n] + [log[n]];
    if a == n {
      ResultIsEntered(p, log[..n], log[n], s);
    } else {
      assert log[..n][a] == log[a];
      ResultIsRemembered(p, log[..n], a, s);
      ResultStays(p, log[..n], log[n], s);
    }
  }

  /** An attempt of a scenario that has a result can neither start nor finish as another result. */
  lemma NoSecondResult(p: Protocol, log: seq<Event>, e: Event, s: ScenarioId)
    requires LogOk(p, log) && Allowed(p, log, e) && HasResult(Slots(log), s)
    ensures !RecordsResult(e, s)
    ensures !(e.AttemptEvent? && e.kind == Started && e.scenario == s)
  {
    var slots := Slots(log);
    var i :| 0 <= i < |slots| && slots[i].scenario == s && Settled(slots[i]);
    OpenIsNotSettled(slots[|slots| - 1]);
    assert i < |slots| - 1 ==> PairOk(slots, i, |slots| - 1);
  }

  /** After an attempt of a scenario is recorded with a result, no attempt of it starts and no second
      result of it is recorded, in this or any later session. */
  lemma OneResultPerScenario(p: Protocol, log: seq<Event>, a: nat, b: nat, s: ScenarioId)
    requires Legal(p, log) && a < b < |log| && RecordsResult(log[a], s)
    ensures !RecordsResult(log[b], s)
    ensures !(log[b].AttemptEvent? && log[b].kind == Started && log[b].scenario == s)
  {
    LegalPrefix(p, log, b);
    assert log[..b][a] == log[a];
    ResultIsRemembered(p, log[..b], a, s);
    LegalIsOk(p, log[..b]);
    NoSecondResult(p, log[..b], log[b], s);
  }

  // -- the run is bounded ----------------------------------------------------------------------------------

  /** The attempts of a scenario are numbered 1, 2, 3, ... in the order they started. */
  lemma AttemptsAreNumbered(p: Protocol, log: seq<Event>, i: nat)
    requires Legal(p, log) && i < |Slots(log)|
    ensures var x := Slots(log)[i];
            x.number == CountOf(Slots(log)[..i], x.scenario) + 1 <= p.maxPerScenario
    ensures Find(Slots(log), Slots(log)[i].scenario, Slots(log)[i].number) == i
  {
    LegalIsOk(p, log);
    assert SlotOk(p, Slots(log), Sessions(log), i);
    KeysAreDistinct(p, Slots(log), Sessions(log), i);
  }

  /** At most one run and `maxResumes` resumes, and every attempt belongs to one of them. */
  lemma SessionsAreBounded(p: Protocol, log: seq<Event>)
    requires Legal(p, log)
    ensures Sessions(log) <= p.maxResumes + 1
    ensures forall i | 0 <= i < |Slots(log)| :: 1 <= SessionOf(Slots(log)[i]) <= Sessions(log)
  {
    LegalIsOk(p, log);
    forall i | 0 <= i < |Slots(log)| ensures 1 <= SessionOf(Slots(log)[i]) <= Sessions(log) {
      assert SlotOk(p, Slots(log), Sessions(log), i);
    }
  }

  /** In each session at most the last attempt is not a result, and sessions do not overlap: a stop, or the
      death of the process, ends a session's sending. */
  lemma OnlyTheLastIsLost(p: Protocol, log: seq<Event>, i: nat, j: nat)
    requires Legal(p, log) && i < j < |Slots(log)|
    ensures SessionOf(Slots(log)[i]) <= SessionOf(Slots(log)[j])
    ensures SessionOf(Slots(log)[i]) == SessionOf(Slots(log)[j]) ==> Settled(Slots(log)[i])
  {
    LegalIsOk(p, log);
    assert PairOk(Slots(log), i, j);
  }

  function ResultIds(slots: seq<Slot>): set<ScenarioId> {
    if slots == [] then {}
    else
      var x := slots[|slots| - 1];
      ResultIds(slots[..|slots| - 1]) + (if Settled(x) then {x.scenario} else {})
  }

  function LostSessions(slots: seq<Slot>): set<nat> {
    if slots == [] then {}
    else
      var x := slots[|slots| - 1];
      LostSessions(slots[..|slots| - 1]) + (if Settled(x) then {} else {SessionOf(x)})
  }

  lemma {:induction false} WhatTheyHold(slots: seq<Slot>)
    ensures forall s | s in ResultIds(slots) :: HasResult(slots, s)
    ensures forall k | k in LostSessions(slots) ::
              exists i | 0 <= i < |slots| :: SessionOf(slots[i]) == k && !Settled(slots[i])
  {
    if slots != [] {
      var n := |slots| - 1;
      var before := slots[..n];
      WhatTheyHold(before);
      forall s | s in ResultIds(slots) ensures HasResult(slots, s) {
        if s in ResultIds(before) {
          var i :| 0 <= i < n && before[i].scenario == s && Settled(before[i]);
          assert slots[i] == before[i];
        } else {
          assert slots[n].scenario == s && Settled(slots[n]);
        }
      }
      forall k | k in LostSessions(slots)
        ensures exists i | 0 <= i < |slots| :: SessionOf(slots[i]) == k && !Settled(slots[i])
      {
        if k in LostSessions(before) {
          var i :| 0 <= i < n && SessionOf(before[i]) == k && !Settled(before[i]);
          assert slots[i] == before[i];
        } else {
          assert SessionOf(slots[n]) == k && !Settled(slots[n]);
        }
      }
    }
  }

  ghost predicate PairsOk(slots: seq<Slot>) {
    forall i, j | 0 <= i < j < |slots| :: PairOk(slots, i, j)
  }

  lemma PairsOkPrefix(slots: seq<Slot>)
    requires PairsOk(slots) && slots != []
    ensures PairsOk(slots[..|slots| - 1])
  {
    var before := slots[..|slots| - 1];
    forall i, j | 0 <= i < j < |before| ensures PairOk(before, i, j) {
      assert PairOk(slots, i, j);
    }
  }

  lemma LastIsNew(slots: seq<Slot>)
    requires PairsOk(slots) && slots != []
    ensures var before, x := slots[..|slots| - 1], slots[|slots| - 1];
            if Settled(x) then x.scenario !in ResultIds(before) else SessionOf(x) !in LostSessions(before)
  {
    var n := |slots| - 1;
    var before, x := slots[..n], slots[n];
    WhatTheyHold(before);
    forall i | 0 <= i < n
      ensures Settled(before[i]) && Settled(x) ==> before[i].scenario != x.scenario
      ensures !Settled(before[i]) ==> SessionOf(before[i]) != SessionOf(x)
    {
      assert PairOk(slots, i, n);
    }
  }

  /** Every attempt is a scenario's one result or a session's one loss. */
  lemma {:induction false} ResultsAndLosses(slots: seq<Slot>)
    requires PairsOk(slots)
    ensures |slots| == |ResultIds(slots)| + |LostSessions(slots)|
  {
    if slots != [] {
      PairsOkPrefix(slots);
      ResultsAndLosses(slots[..|slots| - 1]);
      LastIsNew(slots);
    }
  }

  function IdSet(all: seq<ScenarioId>): set<ScenarioId> {
    set s | s in all
  }

  lemma {:induction false} IdSetSize(all: seq<ScenarioId>)
    ensures |IdSet(all)| <= |all|
  {
    if all != [] {
      IdSetSize(all[1..]);
      assert IdSet(all) == IdSet(all[1..]) + {all[0]};
    }
  }

  lemma SubsetSize<T>(a: set<T>, b: set<T>)
    requires a <= b
    ensures |a| <= |b|
  {
    assert b == a + (b - a);
  }

  /** When one more attempt may start, fewer than `|scenarios| + maxResumes` have started: the results
      leave a scenario over, and each lost attempt has used up an earlier session. The cumulative
      limits play no part in this. */
  lemma RoomBeforeStart(p: Protocol, slots: seq<Slot>, k: nat, s: ScenarioId)
    requires SlotsOk(p, slots, k) && 1 <= k <= p.maxResumes + 1
    requires s in p.scenarios && !HasResult(slots, s) && SessionClear(slots, k)
    ensures |slots| < |p.scenarios| + p.maxResumes
    ensures CountOf(slots, s) <= p.maxResumes
  {
    ResultsAndLosses(slots);
    ResultsLeaveOneOver(p, slots, k, s);
    LossesAreEarlier(p, slots, k);
    AttemptsOfUnresolved(slots, s);
  }

  lemma ResultsLeaveOneOver(p: Protocol, slots: seq<Slot>, k: nat, s: ScenarioId)
    requires SlotsOk(p, slots, k) && s in p.scenarios && !HasResult(slots, s)
    ensures |ResultIds(slots)| < |p.scenarios|
  {
    WhatTheyHold(slots);
    IdSetSize(p.scenarios);
    forall r | r in ResultIds(slots) ensures r in IdSet(p.scenarios) - {s} {
      var i :| 0 <= i < |slots| && slots[i].scenario == r && Settled(slots[i]);
      assert SlotOk(p, slots, k, i);
    }
    SubsetSize(ResultIds(slots), IdSet(p.scenarios) - {s});
  }

  lemma LossIsEarlier(p: Protocol, slots: seq<Slot>, k: nat, i: nat)
    requires SlotsOk(p, slots, k) && SessionClear(slots, k)
    requires i < |slots| && !Settled(slots[i])
    ensures 1 <= SessionOf(slots[i]) < k
  {
    assert SlotOk(p, slots, k, i);
  }

  lemma LossesAreEarlier(p: Protocol, slots: seq<Slot>, k: nat)
    requires SlotsOk(p, slots, k) && k >= 1 && SessionClear(slots, k)
    ensures |LostSessions(slots)| < k
  {
    forall j | j in LostSessions(slots) ensures 1 <= j <= k - 1 {
      WhatTheyHold(slots);
      var i :| 0 <= i < |slots| && SessionOf(slots[i]) == j && !Settled(slots[i]);
      LossIsEarlier(p, slots, k, i);
    }
    BoundedSize(LostSessions(slots), k - 1);
  }

  lemma BoundedSize(a: set<nat>, n: nat)
    requires forall j | j in a :: 1 <= j <= n
    ensures |a| <= n
  {
    UpToHolds(n);
    SubsetSize(a, UpTo(n));
  }

  /** The attempts of a scenario without a result are all losses. */
  lemma {:induction false} AttemptsOfUnresolved(slots: seq<Slot>, s: ScenarioId)
    requires PairsOk(slots) && !HasResult(slots, s)
    ensures CountOf(slots, s) <= |LostSessions(slots)|
  {
    if slots != [] {
      var n := |slots| - 1;
      var before, x := slots[..n], slots[n];
      PairsOkPrefix(slots);
      forall i | 0 <= i < n && before[i].scenario == s ensures !Settled(before[i]) {
        assert before[i] == slots[i];
      }
      AttemptsOfUnresolved(before, s);
      ResultsAndLosses(slots);
      ResultsAndLosses(before);
      assert x.scenario == s ==> !Settled(x);
    }
  }

  /** The protocol's "why twelve": no run has more than `|scenarios| + maxResumes` attempts. */
  lemma {:induction false} WhyTwelve(p: Protocol, log: seq<Event>)
    requires Legal(p, log)
    ensures |Slots(log)| <= |p.scenarios| + p.maxResumes
    decreases |log|
  {
    if log != [] {
      var n := |log| - 1;
      var e := log[n];
      LegalPrefix(p, log, n);
      WhyTwelve(p, log[..n]);
      LegalIsOk(p, log[..n]);
      assert log == log[..n] + [e];
      if !e.AttemptEvent? {
        OtherKeepsLogOk(p, log[..n], e);
      } else if e.kind == Started {
        StartKeepsLogOk(p, log[..n], e);
        RoomBeforeStart(p, Slots(log[..n]), Sessions(log[..n]), e.scenario);
      } else {
        AmendKeepsLogOk(p, log[..n], e);
      }
    }
  }

  lemma TimesCap(n: nat, k: nat, cap: nat)
    requires n <= k
    ensures n * cap <= k * cap
  {}

  lemma SpentBelowTwelve(p: Protocol, slots: seq<Slot>, k: nat, m: Meter)
    requires SlotsOk(p, slots, k) && |slots| <= 11
    requires m == GeoapifyCredits ==> ReportsOk(p, slots)
    ensures Spent(Records(slots), p, m) <= 11 * Cap(p, m)
  {
    var rs := Records(slots);
    forall r | r in rs && r.Some?
      ensures WithinCaps(r.value, p) && (m == GeoapifyCredits ==> ReportsWithinCap(r.value, p))
    {
      var i :| 0 <= i < |rs| && rs[i] == r;
      assert SlotOk(p, slots, k, i) && RecordOf(slots[i]) == r;
    }
    SpentAtMostCaps(rs, p, m);
    TimesCap(|rs|, 11, Cap(p, m));
  }

  /** With the frozen figures a twelfth attempt fits, as long as no report was above its cap. */
  lemma TwelfthFits(p: Protocol, slots: seq<Slot>, k: nat, n: nat)
    requires SlotsOk(p, slots, k) && |slots| <= 11 && n < 3
    requires p == FrozenProtocol(p.scenarios, p.sortKeys) && ReportsOk(p, slots)
    ensures Shortfall(UsageSum(Records(slots), p), n, p) == {}
  {
    forall m | m in METERS ensures Over(m) !in Shortfall(UsageSum(Records(slots), p), n, p) {
      SpentBelowTwelve(p, slots, k, m);
      FrozenTotals(p, m);
    }
  }

  /** With the frozen figures the cumulative limits never refuse an attempt that is otherwise due, as long
      as no report was above its cap: twelve attempts' worth is what the interruption rule alone allows. */
  lemma FrozenBudgetNeverRefuses(p: Protocol, log: seq<Event>, s: ScenarioId)
    requires Legal(p, log) && StageOf(log) == Running
    requires |p.scenarios| == 10 && p == FrozenProtocol(p.scenarios, p.sortKeys)
    requires ReportsOk(p, Slots(log))
    requires s in p.scenarios && !HasResult(Slots(log), s) && SessionClear(Slots(log), Sessions(log))
    ensures Shortfall(UsageSum(Records(Slots(log)), p), CountOf(Slots(log), s), p) == {}
  {
    var slots, k := Slots(log), Sessions(log);
    LegalIsOk(p, log);
    RoomBeforeStart(p, slots, k, s);
    TwelfthFits(p, slots, k, CountOf(slots, s));
  }

  lemma FrozenTotals(p: Protocol, m: Meter)
    requires p == FrozenProtocol(p.scenarios, p.sortKeys) && m in METERS
    ensures Total(p, m) == 12 * Cap(p, m)
  {}

  // -- the phases --------------------------------------------------------------------------------------------

  lemma {:induction false} RanksBelowStage(p: Protocol, log: seq<Event>, a: nat)
    requires Legal(p, log) && a < |log|
    ensures Rank(log[a]) <= StageRank(StageOf(log))
    ensures StageOf(log) == Void ==> !log[a].RunManifest?
    ensures StageRank(StageOf(log)) >= 1 && StageOf(log) != Void ==> log[a] != RunVoid
    decreases |log|
  {
    var n := |log| - 1;
    LegalStep(p, log);
    if a < n {
      RanksBelowStage(p, log[..n], a);
      assert log[..n][a] == log[a];
    }
  }

  /** The terminal entry and the locked phases come at most once each and in order, nothing of the
      run comes after the terminal entry, and nothing at all after a void. */
  lemma PhasesInOrder(p: Protocol, log: seq<Event>, a: nat, b: nat)
    requires Legal(p, log) && a < b < |log|
    ensures Rank(log[a]) <= Rank(log[b])
    ensures Rank(log[a]) == Rank(log[b]) ==> Rank(log[a]) == 0
    ensures log[a] != RunVoid
  {
    LegalPrefix(p, log, b);
    assert log[..b][a] == log[a];
    RanksBelowStage(p, log[..b], a);
  }

  /** Each locked phase is there only because the one before it is: a declaration only after the
      run's manifest, packets only after the declaration, and so on. */
  lemma {:induction false} PhasesNeedTheirPredecessor(p: Protocol, log: seq<Event>, r: nat)
    requires Legal(p, log) && 1 <= r <= StageRank(StageOf(log))
    ensures exists a :: 0 <= a < |log| && Rank(log[a]) == r
                        && (r == 1 && StageOf(log) != Void ==> log[a].RunManifest?)
    decreases |log|
  {
    var n := |log| - 1;
    var before := log[..n];
    LegalStep(p, log);
    if Rank(log[n]) != r {
      PhasesNeedTheirPredecessor(p, before, r);
      var a :| 0 <= a < |before| && Rank(before[a]) == r
               && (r == 1 && StageOf(before) != Void ==> before[a].RunManifest?);
      assert log[a] == before[a];
    }
  }
}
