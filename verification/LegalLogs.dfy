/** What every legal log obeys, by induction over its entries. */
module LegalLogs {
  import opened Wrappers
  import opened Protocols
  import opened Budgets
  import opened Grammar

  // -- the effect of one attempt entry on the replayed attempts ------------------------------------------

  function NewSlot(e: Event): Slot
    requires e.AttemptEvent?
  {
    Slot(e.scenario, e.attempt, map[e.kind := e])
  }

  function Amended(slots: seq<Slot>, e: Event): seq<Slot>
    requires e.AttemptEvent? && slots != []
  {
    slots[|slots| - 1 := slots[|slots| - 1].(events := slots[|slots| - 1].events[e.kind := e])]
  }

  lemma EnterStart(p: Protocol, slots: seq<Slot>, k: nat, e: Event)
    requires e.AttemptEvent? && SlotsOk(p, slots, k)
    requires Startable(p, slots, k, e.scenario, e.attempt)
    ensures Enter(slots, e) == slots + [NewSlot(e)]
  {
    NextNumberIsFree(p, slots, k, e.scenario);
  }

  lemma EnterLast(p: Protocol, slots: seq<Slot>, k: nat, e: Event)
    requires e.AttemptEvent? && SlotsOk(p, slots, k) && Notable(slots, e.scenario, e.attempt)
    ensures Enter(slots, e) == Amended(slots, e)
  {
    KeysAreDistinct(p, slots, k, |slots| - 1);
  }

  lemma StartKeepsSlots(p: Protocol, slots: seq<Slot>, k: nat, e: Event)
    requires e.AttemptEvent? && e.kind == Started && e.session == k >= 1
    requires e.file == AttemptFile(e.scenario, e.attempt, Started)
    requires SlotsOk(p, slots, k) && Startable(p, slots, k, e.scenario, e.attempt)
    ensures SlotsOk(p, slots + [NewSlot(e)], k)
  {
    var longer, n := slots + [NewSlot(e)], |slots|;
    forall i | 0 <= i <= n ensures SlotOk(p, longer, k, i) {
      assert longer[..i] == if i < n then slots[..i] else slots;
      if i < n {
        assert SlotOk(p, slots, k, i);
        assert i == n - 1 ==> !Open(slots[i]);
      } else {
        assert AttemptsPerScenario !in Shortfall(UsageSum(Records(slots), p), e.attempt - 1, p);
      }
    }
    forall i, j | 0 <= i < j <= n ensures PairOk(longer, i, j) {
      assert SlotOk(p, slots, k, i);
      assert j < n ==> PairOk(slots, i, j);
    }
  }

  /** A final record or an abandoned note changes only the last attempt. */
  lemma AmendKeepsSlots(p: Protocol, slots: seq<Slot>, k: nat, e: Event)
    requires e.AttemptEvent? && e.kind != Started
    requires e.file == AttemptFile(e.scenario, e.attempt, e.kind)
    requires SlotsOk(p, slots, k) && Notable(slots, e.scenario, e.attempt)
    requires e.kind == Final ==>
               e.sha.of.FinalRecord? && Finishable(p, slots, e.session, e.scenario, e.attempt, e.sha.of.record)
    ensures SlotsOk(p, Amended(slots, e), k)
  {
    var after, n := Amended(slots, e), |slots| - 1;
    forall i | 0 <= i <= n ensures SlotOk(p, after, k, i) {
      assert SlotOk(p, slots, k, i);
      assert after[..i] == slots[..i];
    }
    forall i, j | 0 <= i < j <= n ensures PairOk(after, i, j) {
      assert PairOk(slots, i, j);
    }
    assert e.kind in after[n].events;
  }

  // -- the invariant of every legal log --------------------------------------------------------------------

  ghost predicate MeterOk(p: Protocol, slots: seq<Slot>, m: Meter) {
    Spent(Records(slots), p, m) <= Total(p, m)
  }

  /** No credit figure the providers reported is above the per-generation cap. */
  ghost predicate ReportsOk(p: Protocol, slots: seq<Slot>) {
    forall i | 0 <= i < |slots| && RecordOf(slots[i]).Some? :: ReportsWithinCap(RecordOf(slots[i]).value, p)
  }

  lemma RecordsOfStart(slots: seq<Slot>, e: Event)
    requires e.AttemptEvent? && e.kind == Started
    ensures Records(slots + [NewSlot(e)]) == Records(slots) + [None]
  {}

  lemma RecordsOfAmended(slots: seq<Slot>, e: Event)
    requires e.AttemptEvent? && e.kind != Started && slots != [] && Open(slots[|slots| - 1])
    ensures Records(slots) == Records(slots[..|slots| - 1]) + [None]
    ensures Records(Amended(slots, e)) == Records(slots[..|slots| - 1]) + [RecordOf(Amended(slots, e)[|slots| - 1])]
  {
    assert Final !in slots[|slots| - 1].events.Keys;
  }

  lemma StartKeepsMeter(p: Protocol, slots: seq<Slot>, k: nat, e: Event, m: Meter)
    requires e.AttemptEvent? && e.kind == Started && m in METERS
    requires Startable(p, slots, k, e.scenario, e.attempt) && MeterOk(p, slots, m)
    ensures MeterOk(p, slots + [NewSlot(e)], m)
  {
    RecordsOfStart(slots, e);
    SpentAppend(Records(slots), None, p, m);
    assert Over(m) !in Shortfall(UsageSum(Records(slots), p), e.attempt - 1, p);
  }

  lemma AmendKeepsMeter(p: Protocol, slots: seq<Slot>, e: Event, m: Meter)
    requires e.AttemptEvent? && e.kind != Started && slots != [] && Open(slots[|slots| - 1])
    requires MeterOk(p, slots, m)
    requires var r := RecordOf(Amended(slots, e)[|slots| - 1]);
             r.Some? ==> WithinCaps(r.value, p) && (m == GeoapifyCredits ==> ReportsWithinCap(r.value, p))
    ensures MeterOk(p, Amended(slots, e), m)
  {
    var r := RecordOf(Amended(slots, e)[|slots| - 1]);
    RecordsOfAmended(slots, e);
    SpentAppend(Records(slots[..|slots| - 1]), None, p, m);
    SpentAppend(Records(slots[..|slots| - 1]), r, p, m);
    ChargeAtMostCap(p, r, m);
  }

  ghost predicate LogOk(p: Protocol, log: seq<Event>) {
    && SlotsOk(p, Slots(log), Sessions(log))
    && Sessions(log) <= p.maxResumes + 1
    && MetersOk(p, Slots(log))
    && (StageOf(log) == Empty <==> log == [])
    && (StageOf(log) == Running ==> Sessions(log) >= 1)
  }

  /** How the replayed values move with one more entry. */
  lemma Replay(log: seq<Event>, e: Event)
    ensures Slots(log + [e]) == if e.AttemptEvent? then Enter(Slots(log), e) else Slots(log)
    ensures Sessions(log + [e]) == Sessions(log) + (if e.SessionStarted? then 1 else 0)
    ensures StageOf(log + [e]) == NextStage(StageOf(log), e).GetOr(StageOf(log))
  {
    assert (log + [e])[..|log|] == log;
  }

  lemma StartKeepsLogOk(p: Protocol, log: seq<Event>, e: Event)
    requires LogOk(p, log) && e.AttemptEvent? && e.kind == Started && Allowed(p, log, e)
    ensures LogOk(p, log + [e])
    ensures Slots(log + [e]) == Slots(log) + [NewSlot(e)]
  {
    var slots, k := Slots(log), Sessions(log);
    Replay(log, e);
    EnterStart(p, slots, k, e);
    StartKeepsSlots(p, slots, k, e);
    StartKeepsMeters(p, slots, k, e);
  }

  lemma AmendKeepsLogOk(p: Protocol, log: seq<Event>, e: Event)
    requires LogOk(p, log) && e.AttemptEvent? && e.kind != Started && Allowed(p, log, e)
    ensures LogOk(p, log + [e])
    ensures Slots(log) != [] && Slots(log + [e]) == Amended(Slots(log), e)
  {
    var slots, k := Slots(log), Sessions(log);
    Replay(log, e);
    EnterLast(p, slots, k, e);
    AmendKeepsSlots(p, slots, k, e);
    AmendKeepsMeters(p, slots, k, e);
  }

  ghost predicate MetersOk(p: Protocol, slots: seq<Slot>) {
    && (forall m | m in METERS && m != GeoapifyCredits :: MeterOk(p, slots, m))
    && (ReportsOk(p, slots) ==> MeterOk(p, slots, GeoapifyCredits))
  }

  lemma AmendKeepsMeters(p: Protocol, slots: seq<Slot>, k: nat, e: Event)
    requires e.AttemptEvent? && e.kind != Started && slots != [] && Open(slots[|slots| - 1])
    requires SlotsOk(p, Amended(slots, e), k) && MetersOk(p, slots)
    ensures MetersOk(p, Amended(slots, e))
  {
    var after := Amended(slots, e);
    assert SlotOk(p, after, k, |slots| - 1);
    forall m | m in METERS && m != GeoapifyCredits ensures MeterOk(p, after, m) {
      AmendKeepsMeter(p, slots, e, m);
    }
    if ReportsOk(p, after) {
      ReportsBeforeAmend(p, slots, e);
      AmendKeepsMeter(p, slots, e, GeoapifyCredits);
    }
  }

  lemma StartKeepsMeters(p: Protocol, slots: seq<Slot>, k: nat, e: Event)
    requires e.AttemptEvent? && e.kind == Started
    requires Startable(p, slots, k, e.scenario, e.attempt) && MetersOk(p, slots)
    ensures MetersOk(p, slots + [NewSlot(e)])
  {
    var after := slots + [NewSlot(e)];
    forall m | m in METERS && MeterOk(p, slots, m) ensures MeterOk(p, after, m) {
      StartKeepsMeter(p, slots, k, e, m);
    }
    ReportsOfPrefix(p, slots, after);
  }

  lemma ReportsOfPrefix(p: Protocol, slots: seq<Slot>, longer: seq<Slot>)
    requires slots <= longer
    ensures ReportsOk(p, longer) ==> ReportsOk(p, slots)
  {
    if ReportsOk(p, longer) {
      forall i | 0 <= i < |slots| && RecordOf(slots[i]).Some? ensures ReportsWithinCap(RecordOf(slots[i]).value, p) {
        assert longer[i] == slots[i];
      }
    }
  }

  lemma ReportsBeforeAmend(p: Protocol, slots: seq<Slot>, e: Event)
    requires e.AttemptEvent? && slots != [] && Open(slots[|slots| - 1])
    requires ReportsOk(p, Amended(slots, e))
    ensures ReportsOk(p, slots)
  {
    assert Final !in slots[|slots| - 1].events.Keys;
    forall i | 0 <= i < |slots| && RecordOf(slots[i]).Some? ensures ReportsWithinCap(RecordOf(slots[i]).value, p) {
      assert Amended(slots, e)[i] == slots[i];
    }
  }

  lemma OtherKeepsLogOk(p: Protocol, log: seq<Event>, e: Event)
    requires LogOk(p, log) && !e.AttemptEvent? && Allowed(p, log, e)
    ensures LogOk(p, log + [e])
    ensures Slots(log + [e]) == Slots(log)
  {
    Replay(log, e);
    if e.SessionStarted? {
      assert AllowedSession(p, log, e);
      LaterSession(p, Slots(log), Sessions(log), Sessions(log) + 1);
    } else {
      assert Sessions(log + [e]) == Sessions(log);
    }
  }

  lemma LaterSession(p: Protocol, slots: seq<Slot>, k: nat, later: nat)
    requires SlotsOk(p, slots, k) && k <= later
    requires slots != [] ==> !Open(slots[|slots| - 1])
    ensures SlotsOk(p, slots, later)
  {
    forall i | 0 <= i < |slots| ensures SlotOk(p, slots, later, i) {
      assert SlotOk(p, slots, k, i);
    }
  }

  lemma OneMoreKeepsLogOk(p: Protocol, log: seq<Event>, e: Event)
    requires LogOk(p, log) && Allowed(p, log, e)
    ensures LogOk(p, log + [e])
  {
    if !e.AttemptEvent? {
      OtherKeepsLogOk(p, log, e);
    } else if e.kind == Started {
      StartKeepsLogOk(p, log, e);
    } else {
      AmendKeepsLogOk(p, log, e);
    }
  }

  /** The invariant holds of every legal log. */
  lemma {:induction false} LegalIsOk(p: Protocol, log: seq<Event>)
    requires Legal(p, log)
    ensures LogOk(p, log)
  {
    if log != [] {
      var n := |log| - 1;
      LegalPrefix(p, log, n);
      LegalIsOk(p, log[..n]);
      assert log == log[..n] + [log[n]];
      OneMoreKeepsLogOk(p, log[..n], log[n]);
    } else {
      forall m | m in METERS ensures MeterOk(p, [], m) {}
    }
  }

  /** A result, once entered, is never lost. */
  lemma ResultStays(p: Protocol, log: seq<Event>, e: Event, s: ScenarioId)
    requires LogOk(p, log) && Allowed(p, log, e) && HasResult(Slots(log), s)
    ensures HasResult(Slots(log + [e]), s)
  {
    var slots, after := Slots(log), Slots(log + [e]);
    var i :| 0 <= i < |slots| && slots[i].scenario == s && Settled(slots[i]);
    if !e.AttemptEvent? {
      OtherKeepsLogOk(p, log, e);
    } else if e.kind == Started {
      StartKeepsLogOk(p, log, e);
      assert after[i] == slots[i];
    } else {
      AmendKeepsLogOk(p, log, e);
      OpenIsNotSettled(slots[|slots| - 1]);
      assert after[i] == slots[i];
    }
  }

  lemma OpenIsNotSettled(x: Slot)
    ensures Open(x) ==> !Settled(x) && RecordOf(x).None?
  {
    assert Open(x) ==> Final !in x.events.Keys;
  }
}
