/** What the audit log of a run may look like. `Allowed` says, from the log alone, which entry may
    come next; a legal log is one built entry by entry that way. `Runner` and `Review` show that the
    program, which decides from counters it keeps in memory, only ever leaves legal logs behind,
    wherever it dies. This module shows what every legal log obeys. */
module Grammar {
  import opened Wrappers
  import opened Protocols
  import opened Budgets

  // -- attempts, as replayed from the log ------------------------------------------------------------

  /** One attempt and its log entries by kind (`read_ledger`'s slot). */
  datatype Slot = Slot(scenario: ScenarioId, number: nat, events: map<Kind, Event>)

  function Find(slots: seq<Slot>, s: ScenarioId, n: nat): (i: nat)
    ensures i <= |slots|
    ensures i < |slots| ==> slots[i].scenario == s && slots[i].number == n
    ensures forall j | 0 <= j < i :: slots[j].scenario != s || slots[j].number != n
  {
    if slots == [] || (slots[0].scenario == s && slots[0].number == n) then 0 else 1 + Find(slots[1..], s, n)
  }

  /** `setdefault`, then the entry under its kind. */
  function Enter(slots: seq<Slot>, e: Event): seq<Slot>
    requires e.AttemptEvent?
  {
    var i := Find(slots, e.scenario, e.attempt);
    if i == |slots| then slots + [Slot(e.scenario, e.attempt, map[e.kind := e])]
    else slots[i := slots[i].(events := slots[i].events[e.kind := e])]
  }

  function Slots(log: seq<Event>): seq<Slot> {
    if log == [] then []
    else
      var before, e := Slots(log[..|log| - 1]), log[|log| - 1];
      if e.AttemptEvent? then Enter(before, e) else before
  }

  /** The final record, as the log's digest of it commits to it. */
  function RecordOf(x: Slot): Option<Record> {
    if Final in x.events && x.events[Final].AttemptEvent? && x.events[Final].sha.of.FinalRecord?
    then Some(x.events[Final].sha.of.record)
    else None
  }

  function Records(slots: seq<Slot>): (rs: seq<Option<Record>>)
    ensures |rs| == |slots|
  {
    seq(|slots|, i requires 0 <= i < |slots| => RecordOf(slots[i]))
  }

  /** A finished attempt that is the scenario's result. */
  predicate Settled(x: Slot) {
    RecordOf(x).Some? && RecordOf(x).value.outcome != Interrupted
  }

  predicate HasResult(slots: seq<Slot>, s: ScenarioId) {
    exists i | 0 <= i < |slots| :: slots[i].scenario == s && Settled(slots[i])
  }

  function CountOf(slots: seq<Slot>, s: ScenarioId): nat {
    if slots == [] then 0
    else CountOf(slots[..|slots| - 1], s) + (if slots[|slots| - 1].scenario == s then 1 else 0)
  }

  function SessionOf(x: Slot): nat {
    if Started in x.events && x.events[Started].AttemptEvent? then x.events[Started].session else 0
  }

  /** Every attempt of session `k` so far is a result. */
  predicate SessionClear(slots: seq<Slot>, k: nat) {
    forall i | 0 <= i < |slots| && SessionOf(slots[i]) == k :: Settled(slots[i])
  }

  predicate Open(x: Slot) {
    x.events.Keys == {Started}
  }

  function Sessions(log: seq<Event>): nat {
    if log == [] then 0 else Sessions(log[..|log| - 1]) + (if log[|log| - 1].SessionStarted? then 1 else 0)
  }

  /** The scenarios of `all`, in order, that have no result yet. */
  function WithoutResult(all: seq<ScenarioId>, slots: seq<Slot>): seq<ScenarioId> {
    if all == [] then []
    else (if HasResult(slots, all[0]) then [] else [all[0]]) + WithoutResult(all[1..], slots)
  }

  // -- phases ----------------------------------------------------------------------------------------

  datatype Stage = Empty | Running | Void | Complete | Declared | Reviewed | Submitted | Accepted

  function MoveIf(st: Stage, from: Stage, to: Stage): Option<Stage> {
    if st == from then Some(to) else None
  }

  function NextStage(st: Stage, e: Event): Option<Stage> {
    match e
    case SessionStarted(_, _, _, _, _) => if st == Empty then Some(Running) else MoveIf(st, Running, Running)
    case AttemptEvent(_, _, _, _, _, _) => MoveIf(st, Running, Running)
    case BudgetExhausted(_, _, _) => MoveIf(st, Running, Running)
    case SessionEnded(_) => MoveIf(st, Running, Running)
    case RunVoid => if st == Empty then Some(Void) else MoveIf(st, Running, Void)
    case RunManifest(_, _, _) => MoveIf(st, Running, Complete)
    case DeclarationLocked(_) => MoveIf(st, Complete, Declared)
    case ReviewManifest(_, _) => MoveIf(st, Declared, Reviewed)
    case SubmissionLocked(_, _) => MoveIf(st, Reviewed, Submitted)
    case AcceptanceRecorded(_) => MoveIf(st, Submitted, Accepted)
  }

  function StageOf(log: seq<Event>): Stage {
    if log == [] then Empty
    else
      var before := StageOf(log[..|log| - 1]);
      NextStage(before, log[|log| - 1]).GetOr(before)
  }

  /** Entries of the run, its terminal entry, and the locked phases after it. */
  function Rank(e: Event): nat {
    match e
    case RunManifest(_, _, _) => 1
    case RunVoid => 1
    case DeclarationLocked(_) => 2
    case ReviewManifest(_, _) => 3
    case SubmissionLocked(_, _) => 4
    case AcceptanceRecorded(_) => 5
    case _ => 0
  }

  function StageRank(st: Stage): nat {
    match st
    case Empty => 0
    case Running => 0
    case Void => 1
    case Complete => 1
    case Declared => 2
    case Reviewed => 3
    case Submitted => 4
    case Accepted => 5
  }

  // -- what may come next ------------------------------------------------------------------------------

  ghost predicate Startable(p: Protocol, slots: seq<Slot>, k: nat, s: ScenarioId, n: nat) {
    && s in p.scenarios
    && n == CountOf(slots, s) + 1
    && !HasResult(slots, s)
    && SessionClear(slots, k)
    && Shortfall(UsageSum(Records(slots), p), n - 1, p) == {}
  }

  ghost predicate Finishable(p: Protocol, slots: seq<Slot>, k: nat, s: ScenarioId, n: nat, r: Record) {
    && slots != [] && Open(slots[|slots| - 1])
    && slots[|slots| - 1].scenario == s && slots[|slots| - 1].number == n && SessionOf(slots[|slots| - 1]) == k
    && r.scenario == s && r.attempt == n && r.session == k && WithinCaps(r, p)
  }

  ghost predicate Notable(slots: seq<Slot>, s: ScenarioId, n: nat) {
    && slots != [] && Open(slots[|slots| - 1])
    && slots[|slots| - 1].scenario == s && slots[|slots| - 1].number == n
  }

  ghost predicate AllowedAttempt(p: Protocol, log: seq<Event>, e: Event)
    requires e.AttemptEvent?
  {
    && e.file == AttemptFile(e.scenario, e.attempt, e.kind)
    && match e.kind
       case Started =>
         && e.session == Sessions(log)
         && e.sha == Sha(StartMarker(e.scenario, e.attempt, e.session))
         && Startable(p, Slots(log), e.session, e.scenario, e.attempt)
       case Final =>
         && e.session == Sessions(log)
         && e.sha.of.FinalRecord?
         && Finishable(p, Slots(log), e.session, e.scenario, e.attempt, e.sha.of.record)
       case Abandoned =>
         && e.session == Sessions(log) + 1
         && e.sha == Sha(AbandonedNote(e.scenario, e.attempt, e.session))
         && Notable(Slots(log), e.scenario, e.attempt)
  }

  ghost predicate AllowedSession(p: Protocol, log: seq<Event>, e: Event)
    requires e.SessionStarted?
  {
    var slots := Slots(log);
    && p.WellFormed()
    && e.protocol == p
    && e.session == Sessions(log) + 1 <= p.maxResumes + 1
    && e.resume == (log != [])
    && e.pending == WithoutResult(p.scenarios, slots)
    && e.usage == UsageSum(Records(slots), p)
    && (e.pending != [] ==> Shortfall(e.usage, 0, p) == {})
    && (slots != [] ==> !Open(slots[|slots| - 1]))
  }

  ghost predicate Allowed(p: Protocol, log: seq<Event>, e: Event) {
    && NextStage(StageOf(log), e).Some?
    && (e.SessionStarted? ==> AllowedSession(p, log, e))
    && (e.AttemptEvent? ==> AllowedAttempt(p, log, e))
    && (e.BudgetExhausted? ==>
          e.session == Sessions(log) && e.scenario in p.scenarios && e.short != {} &&
          e.short == Shortfall(UsageSum(Records(Slots(log)), p), CountOf(Slots(log), e.scenario), p))
    && (e.SessionEnded? ==> e.session == Sessions(log))
    && (e.RunManifest? ==>
          && e.session == Sessions(log)
          && e.usage == UsageSum(Records(Slots(log)), p)
          && forall s | s in p.scenarios :: HasResult(Slots(log), s))
  }

  ghost predicate AllowedAt(p: Protocol, log: seq<Event>, i: nat)
    requires i < |log|
  {
    Allowed(p, log[..i], log[i])
  }

  /** Every entry was allowed after the entries before it. */
  ghost predicate Legal(p: Protocol, log: seq<Event>) {
    forall i | 0 <= i < |log| :: AllowedAt(p, log, i)
  }

  lemma LegalPrefix(p: Protocol, log: seq<Event>, k: nat)
    requires Legal(p, log) && k <= |log|
    ensures Legal(p, log[..k])
    ensures k < |log| ==> Allowed(p, log[..k], log[k])
  {
    forall i | 0 <= i < k ensures AllowedAt(p, log[..k], i) {
      assert AllowedAt(p, log, i) && log[..k][..i] == log[..i];
    }
    assert k < |log| ==> AllowedAt(p, log, k);
  }

  /** A legal log is a legal log and one more entry that its phase admits. */
  lemma LegalStep(p: Protocol, log: seq<Event>)
    requires Legal(p, log) && log != []
    ensures var n := |log| - 1;
            && Legal(p, log[..n])
            && NextStage(StageOf(log[..n]), log[n]) == Some(StageOf(log))
  {
    LegalPrefix(p, log, |log| - 1);
  }

  lemma LegalGrows(p: Protocol, log: seq<Event>, e: Event)
    requires Legal(p, log) && Allowed(p, log, e)
    ensures Legal(p, log + [e])
  {
    var longer := log + [e];
    forall i | 0 <= i < |longer| ensures AllowedAt(p, longer, i) {
      assert longer[..i] == if i < |log| then log[..i] else log;
      assert i < |log| ==> AllowedAt(p, log, i);
    }
  }

  // -- what every legal log obeys: the attempts ----------------------------------------------------------

  /** The entries under one slot are that attempt's own, with the contents they must have. */
  ghost predicate WellEntered(x: Slot, kind: Kind)
    requires kind in x.events
  {
    var e := x.events[kind];
    && e.AttemptEvent? && e.kind == kind && e.scenario == x.scenario && e.attempt == x.number
    && e.file == AttemptFile(x.scenario, x.number, kind)
    && (kind == Final ==>
          e.sha.of.FinalRecord? && e.sha.of.record.scenario == x.scenario && e.sha.of.record.attempt == x.number)
  }

  ghost predicate SlotOk(p: Protocol, slots: seq<Slot>, sessions: nat, i: nat)
    requires i < |slots|
  {
    var x := slots[i];
    && x.scenario in p.scenarios
    && x.number == CountOf(slots[..i], x.scenario) + 1 <= p.maxPerScenario
    && Started in x.events
    && !(Final in x.events && Abandoned in x.events)
    && (forall kind | kind in x.events :: WellEntered(x, kind))
    && 1 <= SessionOf(x) <= sessions
    && (i + 1 < |slots| ==> !Open(x))
    && (RecordOf(x).Some? ==> WithinCaps(RecordOf(x).value, p) && RecordOf(x).value.session == SessionOf(x))
  }

  ghost predicate PairOk(slots: seq<Slot>, i: nat, j: nat)
    requires i < j < |slots|
  {
    && SessionOf(slots[i]) <= SessionOf(slots[j])
    && (SessionOf(slots[i]) == SessionOf(slots[j]) ==> Settled(slots[i]))
    && (slots[i].scenario == slots[j].scenario ==> !Settled(slots[i]))
  }

  ghost predicate SlotsOk(p: Protocol, slots: seq<Slot>, sessions: nat) {
    && (forall i | 0 <= i < |slots| :: SlotOk(p, slots, sessions, i))
    && (forall i, j | 0 <= i < j < |slots| :: PairOk(slots, i, j))
    && (slots != [] && Open(slots[|slots| - 1]) ==> SessionOf(slots[|slots| - 1]) == sessions)
  }

  lemma {:induction false} CountOfPrefix(slots: seq<Slot>, s: ScenarioId, i: nat, j: nat)
    requires i < j <= |slots|
    ensures CountOf(slots[..i], s) + (if slots[i].scenario == s then 1 else 0) <= CountOf(slots[..j], s)
    decreases j
  {
    assert slots[..j][..j - 1] == slots[..j - 1];
    if i + 1 < j {
      CountOfPrefix(slots, s, i, j - 1);
    }
  }

  /** No two attempts share scenario and number, so each entry finds its own slot. */
  lemma KeysAreDistinct(p: Protocol, slots: seq<Slot>, sessions: nat, i: nat)
    requires SlotsOk(p, slots, sessions) && i < |slots|
    ensures Find(slots, slots[i].scenario, slots[i].number) == i
  {
    var f := Find(slots, slots[i].scenario, slots[i].number);
    if f < i {
      assert SlotOk(p, slots, sessions, i) && SlotOk(p, slots, sessions, f);
      CountOfPrefix(slots, slots[i].scenario, f, i);
    }
  }

  /** The next number of a scenario is free. */
  lemma NextNumberIsFree(p: Protocol, slots: seq<Slot>, sessions: nat, s: ScenarioId)
    requires SlotsOk(p, slots, sessions)
    ensures Find(slots, s, CountOf(slots, s) + 1) == |slots|
  {
    var f := Find(slots, s, CountOf(slots, s) + 1);
    if f < |slots| {
      assert SlotOk(p, slots, sessions, f);
      assert slots[..|slots|] == slots;
      CountOfPrefix(slots, s, f, |slots|);
    }
  }
}
