/** `run_benchmark` as the acceptance run uses it: the pending scenarios one after another, each result stored
    as soon as it is there. */
module Batches {
  import opened Wrappers
  import opened Protocols
  import opened Budgets
  import opened RequestGuards
  import opened Grammar
  import opened LegalLogs
  import opened Ledger
  import opened RunTheorems
  import opened Worlds
  import opened Workspaces
  import opened Runner

  // -- what is stored ------------------------------------------------------------------------------------------------

  /** `build_record`, as far as the later steps read it. */
  function StoredFrom(s: ScenarioId, reply: Runner.Reply, origin: Origin, confirmed: bool): Stored
    requires reply != Died
  {
    match reply
    case Raised(f) => Stored(s, false, Some(f), false, origin, confirmed)
    case Reported(report) =>
      var failed := report.failure.Some? || !report.accepted;
      Stored(s, !failed,
             if report.failure.Some? then report.failure
             else if failed then Some(OtherFailure("IncompleteReport")) else None,
             !failed && report.passed, origin, confirmed)
  }

  /** Every stored record was confirmed, and all of them come from one configuration and one source. */
  predicate RunValid(files: Folder, all: seq<ScenarioId>) {
    forall s, t | s in all && t in all && LoadRecord(files, s).Some? && LoadRecord(files, t).Some? ::
      LoadRecord(files, s).value.confirmed && LoadRecord(files, s).value.origin == LoadRecord(files, t).value.origin
  }

  function NotRunIds(files: Folder, all: seq<ScenarioId>): seq<ScenarioId> {
    if all == [] then []
    else (if LoadRecord(files, all[0]).Some? then [] else [all[0]]) + NotRunIds(files, all[1..])
  }

  /** `write_summary`, as far as the later steps read it. */
  function SummaryContent(files: Folder, all: seq<ScenarioId>): Content {
    Summary(RunValid(files, all), NotRunIds(files, all))
  }

  /** The summary on disk is that of the records on disk. */
  predicate SummaryCurrent(files: Folder, all: seq<ScenarioId>) {
    SummaryFile in files && files[SummaryFile] == SummaryContent(files, all)
  }

  lemma {:induction false} SameRecordsSameSummary(f: Folder, g: Folder, all: seq<ScenarioId>)
    requires forall s | s in all :: LoadRecord(g, s) == LoadRecord(f, s)
    ensures SummaryContent(g, all) == SummaryContent(f, all)
  {
    if all != [] {
      SameRecordsSameSummary(f, g, all[1..]);
    }
  }

  // -- storing it ----------------------------------------------------------------------------------------------------

  /** Everything outside the result folder, the log and the wire is as it was, and the log has grown. */
  ghost predicate OnlyTheRunMoved(w: World, w': World) {
    && w.log <= w'.log && w.out.Some? && w'.out.Some?
    && (w'.independence, w'.review, w'.submission, w'.acceptance)
       == (w.independence, w.review, w.submission, w.acceptance)
  }

  ghost predicate SameRecord(w: World, w': World, t: ScenarioId)
    requires w.out.Some? && w'.out.Some?
  {
    LoadRecord(w'.out.value, t) == LoadRecord(w.out.value, t)
  }

  function Put(w: World, path: Path, c: Content): World
    requires w.out.Some?
  {
    w.(out := Some(w.out.value[path := c]))
  }

  lemma PutKeeps(p: Protocol, k: nat, w: World, path: Path, c: Content)
    requires InSession(p, k, w) && !InAttempts(path)
    requires path.ScenarioRecord? ==>
               c.StoredRecord? && (IsNotResult(c.stored.failure) || HasResult(Slots(w.log), path.scenario))
    ensures InSession(p, k, Put(w, path, c))
    ensures forall t | path != ScenarioRecord(t) :: SameRecord(w, Put(w, path, c), t)
  {
    OtherFileWritten(w, path, c);
  }

  /** Writing the summary of the records changes none of them, so it is current. */
  lemma SummaryPut(p: Protocol, k: nat, w: World)
    requires InSession(p, k, w)
    ensures var w' := Put(w, SummaryFile, SummaryContent(w.out.value, p.scenarios));
            && InSession(p, k, w') && SummaryCurrent(w'.out.value, p.scenarios)
            && forall t :: SameRecord(w, w', t)
  {
    var w' := Put(w, SummaryFile, SummaryContent(w.out.value, p.scenarios));
    PutKeeps(p, k, w, SummaryFile, SummaryContent(w.out.value, p.scenarios));
    forall t ensures SameRecord(w, w', t) {}
    SameRecordsSameSummary(w.out.value, w'.out.value, p.scenarios);
  }

  /** `write_summary`. */
  method WriteSummary(runner: ScenarioRunner) returns (alive: bool)
    requires runner.Idle()
    modifies runner.ws`out
    ensures runner.ws.Valid() && runner.Idle()
    ensures runner.ws.Now() == old(runner.ws.Now()).(out := runner.ws.out) && runner.ws.out.Some?
    ensures forall t :: SameRecord(old(runner.ws.Now()), runner.ws.Now(), t)
    ensures alive ==> SummaryCurrent(runner.ws.out.value, runner.p.scenarios)
    ensures !runner.ws.mortal ==> alive
  {
    SummaryPut(runner.p, runner.session, runner.ws.Now());
    alive := runner.ws.Store(SummaryFile, SummaryContent(runner.ws.out.value, runner.p.scenarios));
  }

  /** The text report, then the record, whose presence marks the scenario as done, then the summary. */
  method StoreResult(runner: ScenarioRunner, s: ScenarioId, stored: Stored) returns (alive: bool)
    requires runner.Idle() && stored.id == s
    requires IsNotResult(stored.failure) || HasResult(runner.Attempts(), s)
    modifies runner.ws`out
    ensures runner.ws.Valid() && runner.Idle() && runner.ws.out.Some?
    ensures runner.ws.Now() == old(runner.ws.Now()).(out := runner.ws.out)
    ensures forall t | t != s :: SameRecord(old(runner.ws.Now()), runner.ws.Now(), t)
    ensures alive ==> LoadRecord(runner.ws.out.value, s) == Some(stored)
    ensures alive ==> SummaryCurrent(runner.ws.out.value, runner.p.scenarios)
    ensures !runner.ws.mortal ==> alive
  {
    var report := Other(["scenarios"], s);
    PutKeeps(runner.p, runner.session, runner.ws.Now(), report, Text(""));
    alive := runner.ws.Store(report, Text(""));
    if alive {
      ghost var w := runner.ws.Now();
      PutKeeps(runner.p, runner.session, w, ScenarioRecord(s), StoredRecord(stored));
      alive := runner.ws.Store(ScenarioRecord(s), StoredRecord(stored));
      if alive {
        ghost var w1 := runner.ws.Now();
        alive := WriteSummary(runner);
        SameThrough(w, w1, runner.ws.Now(), s);
        assert SameRecord(w1, runner.ws.Now(), s);
      }
      SameThrough(old(runner.ws.Now()), w, runner.ws.Now(), s);
    }
  }

  lemma SameThrough(w0: World, w1: World, w2: World, s: ScenarioId)
    requires w0.out.Some? && w1.out.Some? && w2.out.Some?
    requires forall t | t != s :: SameRecord(w0, w1, t)
    requires forall t | t != s :: SameRecord(w1, w2, t)
    ensures forall t | t != s :: SameRecord(w0, w2, t)
  {
    forall t | t != s ensures SameRecord(w0, w2, t) {
      assert SameRecord(w0, w1, t) && SameRecord(w1, w2, t);
    }
  }

  lemma UntouchedRecords(s: ScenarioId, w: World, w': World)
    requires Untouched(s, w, w')
    ensures OnlyTheRunMoved(w, w') && forall t :: SameRecord(w, w', t)
  {
    forall t ensures SameRecord(w, w', t) {
      assert !InAttempts(ScenarioRecord(t));
    }
  }

  // -- one scenario's turn -------------------------------------------------------------------------------------------

  /** A turn and its stored record: what came of it is stored, and no other scenario's record changes. */
  ghost predicate TurnDone(p: Protocol, k: nat, w: World, w': World, g: GuardState, g': GuardState, short: set<Short>,
                           short': set<Short>, s: ScenarioId, b: Behaviour, origin: Origin, reply: Runner.Reply,
                           r: Option<Record>)
  {
    && OnlyTheRunMoved(w, w') && (forall t | t != s :: SameRecord(w, w', t))
    && reply != Died && LoadRecord(w'.out.value, s) == Some(StoredFrom(s, reply, origin, b.confirmed))
    && TurnTaken(p, k, w, w', g, g', short, short', s, b, reply, r)
  }

  lemma TurnStored(p: Protocol, k: nat, w: World, w1: World, w2: World, g: GuardState, g': GuardState,
                   short: set<Short>, short': set<Short>, s: ScenarioId, b: Behaviour, origin: Origin,
                   reply: Runner.Reply, r: Option<Record>)
    requires TurnTaken(p, k, w, w1, g, g', short, short', s, b, reply, r) && reply != Died && Untouched(s, w, w1)
    requires w2 == w1.(out := w2.out) && w1.out.Some? && w2.out.Some? && forall t | t != s :: SameRecord(w1, w2, t)
    ensures OnlyTheRunMoved(w, w2) && forall t | t != s :: SameRecord(w, w2, t)
    ensures LoadRecord(w2.out.value, s) == Some(StoredFrom(s, reply, origin, b.confirmed)) ==>
              TurnDone(p, k, w, w2, g, g', short, short', s, b, origin, reply, r)
  {
    UntouchedRecords(s, w, w1);
    SameThrough(w, w1, w2, s);
    if r.Some? {
      forall trace: Trace ensures Left(p, k, w, w2, g, g', s, b, r.value, reply, trace) {
        assert Left(p, k, w, w1, g, g', s, b, r.value, reply, trace);
      }
    }
  }

  /** What a turn reports may be stored: a record that is not marked as no result is that of an attempt that was one. */
  lemma TurnMayBeStored(p: Protocol, k: nat, w: World, w': World, g: GuardState, g': GuardState, short: set<Short>,
                        short': set<Short>, s: ScenarioId, b: Behaviour, origin: Origin, reply: Runner.Reply,
                        r: Option<Record>)
    requires TurnTaken(p, k, w, w', g, g', short, short', s, b, reply, r) && reply != Died
    ensures IsNotResult(StoredFrom(s, reply, origin, b.confirmed).failure) || HasResult(Slots(w'.log), s)
  {
    TurnResults(p, k, w, w', g, g', short, short', s, b, reply, r);
  }

  /** One scenario's turn and its stored record. */
  method RunScenario(runner: ScenarioRunner, s: ScenarioId, b: Behaviour, origin: Origin)
    returns (alive: bool, ghost reply: Runner.Reply, ghost r: Option<Record>)
    requires runner.Idle() && s in runner.p.scenarios && !HasResult(runner.Attempts(), s)
    modifies runner, runner.ws`out, runner.ws`wire, runner.ws.audit, runner.guard
    ensures runner.ws.Valid() && Inv(runner.ws.Now())
    ensures OnlyTheRunMoved(old(runner.ws.Now()), runner.ws.Now())
    ensures forall t | t != s :: SameRecord(old(runner.ws.Now()), runner.ws.Now(), t)
    ensures old(runner.guard.stoppedBy).Some? || ShortOf(runner.p, old(runner.ws.Now()), s) != {} ==>
              runner.ws.wire == old(runner.ws.wire)
    ensures TurnSent(runner.p, old(runner.ws.wire), runner.ws.wire, old(runner.guard.State()), runner.guard.State(), s,
                     b)
    ensures alive ==> runner.Idle() && SummaryCurrent(runner.ws.out.value, runner.p.scenarios)
    ensures alive ==>
              TurnDone(runner.p, runner.session, old(runner.ws.Now()), runner.ws.Now(), old(runner.guard.State()),
                       runner.guard.State(), old(runner.exhausted), runner.exhausted, s, b, origin, reply, r)
    ensures !runner.ws.mortal ==> alive
  {
    ghost var w, g, short := runner.ws.Now(), runner.guard.State(), runner.exhausted;
    var answer;
    answer, r := runner.RunOne(s, b);
    reply := answer;
    ghost var w1 := runner.ws.Now();
    if answer == Died {
      UntouchedRecords(s, w, w1);
      return false, reply, r;
    }
    TurnMayBeStored(runner.p, runner.session, w, w1, g, runner.guard.State(), short, runner.exhausted, s, b, origin,
                    answer, r);
    alive := StoreResult(runner, s, StoredFrom(s, answer, origin, b.confirmed));
    TurnStored(runner.p, runner.session, w, w1, runner.ws.Now(), g, runner.guard.State(), short, runner.exhausted, s, b,
               origin, reply, r);
  }

  // -- the account of a batch ----------------------------------------------------------------------------------------

  predicate RefusedByBudget(files: Folder, s: ScenarioId) {
    LoadRecord(files, s).Some? && LoadRecord(files, s).value.failure == Some(BudgetExhaustion)
  }

  /** Only a stop of the guard or a refusal by the budget, which is then on record, leaves a scenario of
      the batch without a result. */
  ghost predicate Accounted(slots: seq<Slot>, files: Folder, ids: seq<ScenarioId>, stopped: Option<Stop>,
                            short: set<Short>)
  {
    && (stopped.None? && short == {} ==> forall s | s in ids :: HasResult(slots, s))
    && (short != {} ==> exists s :: s in ids && RefusedByBudget(files, s))
  }

  /** A result is stored exactly for an attempt that was one. */
  ghost predicate Matched(slots: seq<Slot>, files: Folder, s: ScenarioId) {
    HasResult(slots, s) <==> HasStoredResult(files, s)
  }

  /** A generation that does not itself claim one of the three reserved failures. */
  predicate Ordinary(b: Behaviour) {
    match b.ending
    case Threw(f) => f.OtherFailure?
    case Returned(report) => report.failure.Some? ==> report.failure.value.OtherFailure?
  }

  /** The run is under the frozen figures, and no credit report was above its cap. */
  ghost predicate FrozenRun(p: Protocol, slots: seq<Slot>) {
    |p.scenarios| == 10 && p == FrozenProtocol(p.scenarios, p.sortKeys) && ReportsOk(p, slots)
  }

  /** And none to come is. */
  ghost predicate Affordable(p: Protocol, slots: seq<Slot>, behaviours: map<ScenarioId, Behaviour>) {
    && FrozenRun(p, slots)
    && forall s | s in behaviours :: CreditsCounted(p, behaviours[s].ending) <= p.creditCap
  }

  /** A result is stored for an attempt that was one exactly if its ending was ordinary, and for no other. */
  ghost predicate MatchedAfter(slots: seq<Slot>, files: Folder, s: ScenarioId, b: Behaviour) {
    Matched(slots, files, s) <==> (HasResult(slots, s) ==> Ordinary(b))
  }

  /** The four sides of a batch's account. */
  datatype Side = Apart | Kept | Matching | Afforded

  /** What holds after the turns of `done`, the batch having begun in `w0`: nothing else has changed; each of them
      has a record, and the scenarios without a result are accounted for; results are stored exactly for attempts
      that were ones and ended ordinarily; and under the frozen figures nothing was refused. */
  ghost predicate SideHolds(p: Protocol, w0: World, w: World, done: seq<ScenarioId>,
                            behaviours: map<ScenarioId, Behaviour>, stopped: Option<Stop>, short: set<Short>,
                            side: Side)
  {
    && OnlyTheRunMoved(w0, w)
    && match side
       case Apart =>
         forall t | t !in done :: SameRecord(w0, w, t) && (HasResult(Slots(w.log), t) <==> HasResult(Slots(w0.log), t))
       case Kept =>
         && (forall s | s in done :: LoadRecord(w.out.value, s).Some?)
         && Accounted(Slots(w.log), w.out.value, done, stopped, short)
       case Matching =>
         forall s | s in done && s in behaviours :: MatchedAfter(Slots(w.log), w.out.value, s, behaviours[s])
       case Afforded => Affordable(p, Slots(w0.log), behaviours) ==> ReportsOk(p, Slots(w.log)) && short == {}
  }

  ghost predicate SoFar(p: Protocol, w0: World, w: World, done: seq<ScenarioId>, behaviours: map<ScenarioId, Behaviour>,
                        stopped: Option<Stop>, short: set<Short>)
  {
    forall side: Side :: SideHolds(p, w0, w, done, behaviours, stopped, short, side)
  }

  lemma SoFarFacts(p: Protocol, w0: World, w: World, done: seq<ScenarioId>, behaviours: map<ScenarioId, Behaviour>,
                   stopped: Option<Stop>, short: set<Short>)
    requires SoFar(p, w0, w, done, behaviours, stopped, short)
    ensures OnlyTheRunMoved(w0, w)
    ensures forall t | t !in done ::
              SameRecord(w0, w, t) && (HasResult(Slots(w.log), t) <==> HasResult(Slots(w0.log), t))
    ensures forall s | s in done :: LoadRecord(w.out.value, s).Some?
    ensures Accounted(Slots(w.log), w.out.value, done, stopped, short)
    ensures forall s | s in done && s in behaviours :: MatchedAfter(Slots(w.log), w.out.value, s, behaviours[s])
    ensures Affordable(p, Slots(w0.log), behaviours) ==> ReportsOk(p, Slots(w.log)) && short == {}
  {
    assert SideHolds(p, w0, w, done, behaviours, stopped, short, Apart);
    assert SideHolds(p, w0, w, done, behaviours, stopped, short, Kept);
    assert SideHolds(p, w0, w, done, behaviours, stopped, short, Matching);
    assert SideHolds(p, w0, w, done, behaviours, stopped, short, Afforded);
  }

  lemma SoFarBegins(p: Protocol, w: World, behaviours: map<ScenarioId, Behaviour>, stopped: Option<Stop>)
    requires w.out.Some?
    ensures SoFar(p, w, w, [], behaviours, stopped, {})
  {
    forall side: Side ensures SideHolds(p, w, w, [], behaviours, stopped, {}, side) {}
  }

  lemma TurnMatches(p: Protocol, k: nat, w: World, w': World, g: GuardState, g': GuardState, short: set<Short>,
                    short': set<Short>, s: ScenarioId, b: Behaviour, origin: Origin, reply: Runner.Reply,
                    r: Option<Record>)
    requires TurnDone(p, k, w, w', g, g', short, short', s, b, origin, reply, r)
    requires !HasResult(Slots(w.log), s)
    ensures MatchedAfter(Slots(w'.log), w'.out.value, s, b)
  {
    TurnResults(p, k, w, w', g, g', short, short', s, b, reply, r);
    if r.Some? {
      RanFacts(p, k, w, w', g, g', s, b, r.value, reply);
    }
  }

  lemma TurnAccounted(p: Protocol, k: nat, w: World, w': World, g: GuardState, g': GuardState, short: set<Short>,
                      short': set<Short>, s: ScenarioId, b: Behaviour, origin: Origin, reply: Runner.Reply,
                      r: Option<Record>, done: seq<ScenarioId>)
    requires TurnDone(p, k, w, w', g, g', short, short', s, b, origin, reply, r)
    requires s !in done && Accounted(Slots(w.log), w.out.value, done, g.stoppedBy, short)
    ensures Accounted(Slots(w'.log), w'.out.value, done + [s], g'.stoppedBy, short')
  {
    TurnResults(p, k, w, w', g, g', short, short', s, b, reply, r);
    if r.Some? {
      RanFacts(p, k, w, w', g, g', s, b, r.value, reply);
    }
    if short' != {} {
      if short != {} {
        var t :| t in done && RefusedByBudget(w.out.value, t);
        assert SameRecord(w, w', t);
        assert t in done + [s] && RefusedByBudget(w'.out.value, t);
      } else {
        assert s in done + [s] && RefusedByBudget(w'.out.value, s);
      }
    }
  }

  /** With the frozen figures and honest reports no turn is refused. */
  lemma TurnAffordable(p: Protocol, k: nat, w: World, w': World, g: GuardState, g': GuardState, short: set<Short>,
                       short': set<Short>, s: ScenarioId, b: Behaviour, origin: Origin, reply: Runner.Reply,
                       r: Option<Record>)
    requires TurnDone(p, k, w, w', g, g', short, short', s, b, origin, reply, r)
    requires InSession(p, k, w) && (g.stoppedBy.None? ==> SessionClear(Slots(w.log), k))
    requires s in p.scenarios && !HasResult(Slots(w.log), s)
    requires |p.scenarios| == 10 && p == FrozenProtocol(p.scenarios, p.sortKeys) && ReportsOk(p, Slots(w.log))
    requires CreditsCounted(p, b.ending) <= p.creditCap
    ensures ReportsOk(p, Slots(w'.log)) && (short == {} ==> short' == {})
  {
    Facts(w);
    if g.stoppedBy.None? {
      FrozenBudgetNeverRefuses(p, w.log, s);
      assert ShortOf(p, w, s) == {};
      RanFacts(p, k, w, w', g, g', s, b, r.value, reply);
      ReportsGrow(p, Slots(w.log), k, s, r.value.attempt, r.value);
    }
  }

  /** One more turn. */
  lemma SoFarGrows(p: Protocol, k: nat, w0: World, w: World, w': World, g: GuardState, g': GuardState,
                   short: set<Short>, short': set<Short>, s: ScenarioId,
                   behaviours: map<ScenarioId, Behaviour>, origin: Origin, reply: Runner.Reply, r: Option<Record>,
                   done: seq<ScenarioId>)
    requires SoFar(p, w0, w, done, behaviours, g.stoppedBy, short) && s in behaviours && s !in done
    requires TurnDone(p, k, w, w', g, g', short, short', s, behaviours[s], origin, reply, r)
    requires InSession(p, k, w) && (g.stoppedBy.None? ==> SessionClear(Slots(w.log), k))
    requires s in p.scenarios && !HasResult(Slots(w.log), s)
    ensures SoFar(p, w0, w', done + [s], behaviours, g'.stoppedBy, short')
  {
    var b := behaviours[s];
    SoFarFacts(p, w0, w, done, behaviours, g.stoppedBy, short);
    TurnResults(p, k, w, w', g, g', short, short', s, b, reply, r);
    forall side: Side ensures SideHolds(p, w0, w', done + [s], behaviours, g'.stoppedBy, short', side) {
      match side {
        case Apart =>
          forall t | t !in done + [s]
            ensures SameRecord(w0, w', t) && (HasResult(Slots(w'.log), t) <==> HasResult(Slots(w0.log), t))
          {
            assert t !in done && t != s;
            assert SameRecord(w0, w, t) && SameRecord(w, w', t);
          }
        case Kept =>
          TurnAccounted(p, k, w, w', g, g', short, short', s, b, origin, reply, r, done);
          forall t | t in done + [s] ensures LoadRecord(w'.out.value, t).Some? {
            assert t != s ==> t in done && SameRecord(w, w', t);
          }
        case Matching =>
          forall t | t in done + [s] && t in behaviours
            ensures MatchedAfter(Slots(w'.log), w'.out.value, t, behaviours[t])
          {
            if t == s {
              TurnMatches(p, k, w, w', g, g', short, short', s, b, origin, reply, r);
            } else {
              assert t in done && SameRecord(w, w', t);
            }
          }
        case Afforded =>
          if Affordable(p, Slots(w0.log), behaviours) {
            TurnAffordable(p, k, w, w', g, g', short, short', s, b, origin, reply, r);
          }
      }
    }
  }

  // -- what went out, turn by turn -----------------------------------------------------------------------------------

  /** The guard after some turns, and everything they let out. */
  function Passed(p: Protocol, g: GuardState, turns: seq<Turn>): (GuardState, seq<Service>) {
    if turns == [] then (g, [])
    else
      var (before, out) := Passed(p, g, turns[..|turns| - 1]);
      (turns[|turns| - 1].After(p), out + turns[|turns| - 1].Sent(p))
  }

  /** Each turn begins where the one before it ended, and only an unstopped guard lets anything out. */
  ghost predicate Chained(p: Protocol, g: GuardState, turns: seq<Turn>) {
    forall i | 0 <= i < |turns| :: Follows(p, g, turns, i)
  }

  ghost predicate Follows(p: Protocol, g: GuardState, turns: seq<Turn>, i: nat)
    requires i < |turns|
  {
    && turns[i].before == Passed(p, g, turns[..i]).0
    && (turns[i].Sends? ==> turns[i].before.stoppedBy.None?)
  }

  /** The three things the turns of a batch say. */
  datatype Respect = InOrder | InSum | ByName

  /** The turns are those of the first scenarios of `ids`, each as far as its generation got; and what went out
      between two moments is what they let out. */
  ghost predicate Conducted(p: Protocol, ids: seq<ScenarioId>, behaviours: map<ScenarioId, Behaviour>, g: GuardState,
                            g': GuardState, wire: seq<Service>, wire': seq<Service>, turns: seq<Turn>)
  {
    forall respect: Respect :: ConductedIn(p, ids, behaviours, g, g', wire, wire', turns, respect)
  }

  ghost predicate ConductedIn(p: Protocol, ids: seq<ScenarioId>, behaviours: map<ScenarioId, Behaviour>, g: GuardState,
                              g': GuardState, wire: seq<Service>, wire': seq<Service>, turns: seq<Turn>,
                              respect: Respect)
  {
    match respect
    case InOrder => Chained(p, g, turns)
    case InSum => (g', wire') == (Passed(p, g, turns).0, wire + Passed(p, g, turns).1)
    case ByName => |turns| <= |ids| && forall i | 0 <= i < |turns| :: IsOfScenario(ids[i], behaviours, turns[i])
  }

  predicate IsOfScenario(s: ScenarioId, behaviours: map<ScenarioId, Behaviour>, t: Turn) {
    && t.scenario == s && s in behaviours
    && (t.Sends? ==> t.steps <= behaviours[s].steps)
  }

  lemma NoneConducted(p: Protocol, ids: seq<ScenarioId>, behaviours: map<ScenarioId, Behaviour>, g: GuardState,
                      wire: seq<Service>)
    ensures Conducted(p, ids, behaviours, g, g, wire, wire, [])
  {
    forall respect: Respect ensures ConductedIn(p, ids, behaviours, g, g, wire, wire, [], respect) {
      assert wire + [] == wire;
    }
  }

  lemma OneMorePassed(p: Protocol, g: GuardState, turns: seq<Turn>, t: Turn)
    ensures Passed(p, g, turns + [t]) == (t.After(p), Passed(p, g, turns).1 + t.Sent(p))
  {
    assert (turns + [t])[..|turns|] == turns;
  }

  lemma OneMoreChained(p: Protocol, g: GuardState, turns: seq<Turn>, t: Turn)
    requires Chained(p, g, turns) && t.before == Passed(p, g, turns).0 && (t.Sends? ==> t.before.stoppedBy.None?)
    ensures Chained(p, g, turns + [t])
  {
    var more := turns + [t];
    forall i | 0 <= i < |more| ensures Follows(p, g, more, i) {
      assert more[..i] == if i < |turns| then turns[..i] else turns;
      assert i < |turns| ==> Follows(p, g, turns, i);
    }
  }

  lemma ChainedPrefix(p: Protocol, g: GuardState, turns: seq<Turn>, m: nat)
    requires Chained(p, g, turns) && m <= |turns|
    ensures Chained(p, g, turns[..m])
  {
    forall i | 0 <= i < m ensures Follows(p, g, turns[..m], i) {
      assert Follows(p, g, turns, i) && turns[..m][..i] == turns[..i];
    }
  }

  lemma SumGrows(start: seq<Service>, before: seq<Service>, after: seq<Service>, out: seq<Service>,
                 sent: seq<Service>)
    requires before == start + out && after == before + sent
    ensures after == start + (out + sent)
  {
    assert start + out + sent == start + (out + sent);
  }

  lemma OneMoreConducted(p: Protocol, ids: seq<ScenarioId>, behaviours: map<ScenarioId, Behaviour>, g0: GuardState,
                         g: GuardState, g': GuardState, wire0: seq<Service>, wire: seq<Service>, wire': seq<Service>,
                         turns: seq<Turn>, t: Turn)
    requires Conducted(p, ids, behaviours, g0, g, wire0, wire, turns) && |turns| < |ids|
    requires ids[|turns|] in behaviours && IsTurn(p, wire, wire', g, g', ids[|turns|], behaviours[ids[|turns|]], t)
    ensures Conducted(p, ids, behaviours, g0, g', wire0, wire', turns + [t])
  {
    assert ConductedIn(p, ids, behaviours, g0, g, wire0, wire, turns, InSum);
    forall respect: Respect
      ensures ConductedIn(p, ids, behaviours, g0, g', wire0, wire', turns + [t], respect)
    {
      assert ConductedIn(p, ids, behaviours, g0, g, wire0, wire, turns, respect);
      match respect {
        case InOrder => OneMoreChained(p, g0, turns, t);
        case InSum =>
          OneMorePassed(p, g0, turns, t);
          SumGrows(wire0, wire, wire', Passed(p, g0, turns).1, t.Sent(p));
        case ByName => assert IsOfScenario(ids[|turns|], behaviours, t);
      }
    }
  }

  /** Turn `k` is the one in which the guard first stops, at its step `n`, and everything ever sent went out before
      that step. */
  ghost predicate StopsAt(p: Protocol, g: GuardState, turns: seq<Turn>, k: nat, n: nat) {
    && k < |turns| && turns[k].Sends? && n < |turns[k].steps|
    && Passed(p, g, turns[..k]).0.stoppedBy.None?
    && RunOf(Armed(turns[k].before, p), turns[k].steps[..n]).0.stoppedBy.None?
    && RunOf(Armed(turns[k].before, p), turns[k].steps[..n + 1]).0.stoppedBy == Passed(p, g, turns).0.stoppedBy
    && Passed(p, g, turns).1 ==
         Passed(p, g, turns[..k]).1 + RunOf(Armed(turns[k].before, p), turns[k].steps[..n]).1
  }

  /** After the guard's first stop nothing more goes out, in that turn or in any later one, and its reason stays. */
  lemma {:induction false} NothingAfterTheStop(p: Protocol, g: GuardState, turns: seq<Turn>)
    returns (k: nat, n: nat)
    requires Chained(p, g, turns) && g.stoppedBy.None? && Passed(p, g, turns).0.stoppedBy.Some?
    ensures StopsAt(p, g, turns, k, n)
  {
    var m := |turns| - 1;
    assert Follows(p, g, turns, m);
    if Passed(p, g, turns[..m]).0.stoppedBy.Some? {
      ChainedPrefix(p, g, turns, m);
      k, n := NothingAfterTheStop(p, g, turns[..m]);
      StillStopsAt(p, g, turns, k, n);
    } else {
      k := m;
      n := FirstStop(Armed(turns[m].before, p), turns[m].steps);
    }
  }

  lemma StillStopsAt(p: Protocol, g: GuardState, turns: seq<Turn>, k: nat, n: nat)
    requires turns != [] && turns[|turns| - 1].Waits?
    requires turns[|turns| - 1].before == Passed(p, g, turns[..|turns| - 1]).0
    requires StopsAt(p, g, turns[..|turns| - 1], k, n)
    ensures StopsAt(p, g, turns, k, n)
  {
    var before := turns[..|turns| - 1];
    assert before[..k] == turns[..k] && before[k] == turns[k];
    assert Passed(p, g, before).1 + [] == Passed(p, g, before).1;
  }

  /** So the whole of what a stopped batch has sent went out before the guard's first stop. */
  lemma SilentOnceStopped(p: Protocol, ids: seq<ScenarioId>, behaviours: map<ScenarioId, Behaviour>, g: GuardState,
                          g': GuardState, wire: seq<Service>, wire': seq<Service>, turns: seq<Turn>)
    requires Conducted(p, ids, behaviours, g, g', wire, wire', turns)
    requires g.stoppedBy.None? && g'.stoppedBy.Some?
    ensures exists k: nat, n: nat ::
              && StopsAt(p, g, turns, k, n)
              && wire' == wire + (Passed(p, g, turns[..k]).1
                                  + RunOf(Armed(turns[k].before, p), turns[k].steps[..n]).1)
  {
    assert ConductedIn(p, ids, behaviours, g, g', wire, wire', turns, InOrder);
    assert ConductedIn(p, ids, behaviours, g, g', wire, wire', turns, InSum);
    var k, n := NothingAfterTheStop(p, g, turns);
  }

  // -- run_benchmark -------------------------------------------------------------------------------------------------

  /** How a batch ends: with the last scenario, with the death of the process, or before its first scenario
      because the process could not say which configuration and source it runs. */
  datatype BatchEnd = Finished | CutOff | NoProvenance

  lemma NextIsApart(pending: seq<ScenarioId>, i: nat)
    requires i < |pending| && Distinct(pending)
    ensures pending[i] !in pending[..i] && pending[..i + 1] == pending[..i] + [pending[i]]
  {
    forall j | 0 <= j < i ensures pending[..i][j] != pending[i] {}
  }

  /** Without a complete provenance nothing is run. Otherwise one scenario after another, each result stored as
      soon as it is there, and the summary once more at the end, also of an empty batch. */
  method RunBenchmark(runner: ScenarioRunner, pending: seq<ScenarioId>, behaviours: map<ScenarioId, Behaviour>,
                      origin: Option<Origin>)
    returns (end: BatchEnd, ghost turns: seq<Turn>)
    requires runner.Idle() && runner.exhausted == {} && Distinct(pending)
    requires forall s | s in pending :: s in behaviours && s in runner.p.scenarios && !HasResult(runner.Attempts(), s)
    modifies runner, runner.ws`out, runner.ws`wire, runner.ws.audit, runner.guard
    ensures runner.ws.Valid() && Inv(runner.ws.Now())
    ensures OnlyTheRunMoved(old(runner.ws.Now()), runner.ws.Now())
    ensures forall t | t !in pending :: SameRecord(old(runner.ws.Now()), runner.ws.Now(), t)
    ensures end == NoProvenance <==> origin.None?
    ensures end == NoProvenance ==> runner.ws.Now() == old(runner.ws.Now())
    ensures end == Finished ==> runner.Idle() && SummaryCurrent(runner.ws.out.value, runner.p.scenarios)
    ensures end == Finished ==>
              SoFar(runner.p, old(runner.ws.Now()), runner.ws.Now(), pending, behaviours, runner.guard.stoppedBy,
                    runner.exhausted)
    ensures Conducted(runner.p, pending, behaviours, old(runner.guard.State()), runner.guard.State(),
                      old(runner.ws.wire), runner.ws.wire, turns)
    ensures !runner.ws.mortal ==> end != CutOff
  {
    turns := [];
    NoneConducted(runner.p, pending, behaviours, runner.guard.State(), runner.ws.wire);
    if origin.None? {
      return NoProvenance, turns;
    }
    ghost var w0 := runner.ws.Now();
    var alive;
    alive, turns := RunAll(runner, pending, behaviours, origin.value);
    if alive {
      alive := LastSummary(runner, pending, behaviours, w0);
    }
    end := if alive then Finished else CutOff;
  }

  /** One scenario after another. */
  method RunAll(runner: ScenarioRunner, pending: seq<ScenarioId>, behaviours: map<ScenarioId, Behaviour>,
                origin: Origin)
    returns (alive: bool, ghost turns: seq<Turn>)
    requires runner.Idle() && runner.exhausted == {} && Distinct(pending)
    requires forall s | s in pending :: s in behaviours && s in runner.p.scenarios && !HasResult(runner.Attempts(), s)
    modifies runner, runner.ws`out, runner.ws`wire, runner.ws.audit, runner.guard
    ensures runner.ws.Valid() && Inv(runner.ws.Now())
    ensures !alive ==> OnlyTheRunMoved(old(runner.ws.Now()), runner.ws.Now())
    ensures !alive ==> forall t | t !in pending :: SameRecord(old(runner.ws.Now()), runner.ws.Now(), t)
    ensures alive ==>
              && runner.Idle()
              && SoFar(runner.p, old(runner.ws.Now()), runner.ws.Now(), pending, behaviours, runner.guard.stoppedBy,
                       runner.exhausted)
    ensures Conducted(runner.p, pending, behaviours, old(runner.guard.State()), runner.guard.State(),
                      old(runner.ws.wire), runner.ws.wire, turns)
    ensures !runner.ws.mortal ==> alive
  {
    ghost var w0, g0 := runner.ws.Now(), runner.guard.State();
    turns := [];
    NoneConducted(runner.p, pending, behaviours, g0, w0.wire);
    SoFarBegins(runner.p, w0, behaviours, g0.stoppedBy);
    assert pending[..|pending|] == pending && pending[..0] == [];
    var i := 0;
    while i < |pending|
      invariant 0 <= i <= |pending| && runner.Idle()
      invariant SoFar(runner.p, w0, runner.ws.Now(), pending[..i], behaviours, runner.guard.stoppedBy, runner.exhausted)
      invariant |turns| == i
      invariant Conducted(runner.p, pending, behaviours, g0, runner.guard.State(), w0.wire, runner.ws.wire, turns)
    {
      alive, turns := RunNext(runner, pending, i, behaviours, origin, w0, g0, turns);
      if !alive {
        return;
      }
      i := i + 1;
    }
    alive := true;
  }

  /** The summary once more, at the end of a batch. */
  method LastSummary(runner: ScenarioRunner, pending: seq<ScenarioId>, behaviours: map<ScenarioId, Behaviour>,
                     ghost w0: World)
    returns (alive: bool)
    requires runner.Idle()
    requires SoFar(runner.p, w0, runner.ws.Now(), pending, behaviours, runner.guard.stoppedBy, runner.exhausted)
    modifies runner.ws`out
    ensures runner.ws.Valid() && runner.Idle()
    ensures OnlyTheRunMoved(w0, runner.ws.Now()) && forall t | t !in pending :: SameRecord(w0, runner.ws.Now(), t)
    ensures SoFar(runner.p, w0, runner.ws.Now(), pending, behaviours, runner.guard.stoppedBy, runner.exhausted)
    ensures alive ==> SummaryCurrent(runner.ws.out.value, runner.p.scenarios)
    ensures !runner.ws.mortal ==> alive
  {
    ghost var w := runner.ws.Now();
    SoFarFacts(runner.p, w0, w, pending, behaviours, runner.guard.stoppedBy, runner.exhausted);
    alive := WriteSummary(runner);
    SameRecordsSoFar(runner.p, w0, w, runner.ws.Now(), pending, behaviours, runner.guard.stoppedBy, runner.exhausted);
  }

  /** The next scenario of the batch. */
  method RunNext(runner: ScenarioRunner, pending: seq<ScenarioId>, i: nat, behaviours: map<ScenarioId, Behaviour>,
                 origin: Origin, ghost w0: World, ghost g0: GuardState, ghost turns: seq<Turn>)
    returns (alive: bool, ghost turns': seq<Turn>)
    requires runner.Idle() && i < |pending| && Distinct(pending)
    requires pending[i] in behaviours && pending[i] in runner.p.scenarios && !HasResult(Slots(w0.log), pending[i])
    requires SoFar(runner.p, w0, runner.ws.Now(), pending[..i], behaviours, runner.guard.stoppedBy, runner.exhausted)
    requires |turns| == i
    requires Conducted(runner.p, pending, behaviours, g0, runner.guard.State(), w0.wire, runner.ws.wire, turns)
    modifies runner, runner.ws`out, runner.ws`wire, runner.ws.audit, runner.guard
    ensures runner.ws.Valid() && Inv(runner.ws.Now())
    ensures OnlyTheRunMoved(w0, runner.ws.Now()) && forall t | t !in pending :: SameRecord(w0, runner.ws.Now(), t)
    ensures alive ==>
              && runner.Idle()
              && SoFar(runner.p, w0, runner.ws.Now(), pending[..i + 1], behaviours, runner.guard.stoppedBy,
                       runner.exhausted)
    ensures |turns'| == i + 1
    ensures Conducted(runner.p, pending, behaviours, g0, runner.guard.State(), w0.wire, runner.ws.wire, turns')
    ensures !runner.ws.mortal ==> alive
  {
    var s := pending[i];
    NextIsApart(pending, i);
    ghost var w, g, short := runner.ws.Now(), runner.guard.State(), runner.exhausted;
    SoFarFacts(runner.p, w0, w, pending[..i], behaviours, g.stoppedBy, short);
    ghost var reply, r;
    alive, reply, r := RunScenario(runner, s, behaviours[s], origin);
    CutInTurn(w0, w, runner.ws.Now(), pending, i);
    ghost var t :| IsTurn(runner.p, w.wire, runner.ws.wire, g, runner.guard.State(), s, behaviours[s], t);
    OneMoreConducted(runner.p, pending, behaviours, g0, g, runner.guard.State(), w0.wire, w.wire, runner.ws.wire, turns,
                     t);
    turns' := turns + [t];
    if alive {
      SoFarGrows(runner.p, runner.session, w0, w, runner.ws.Now(), g, runner.guard.State(), short, runner.exhausted, s,
                 behaviours, origin, reply, r, pending[..i]);
    }
  }

  lemma CutInTurn(w0: World, w: World, w': World, pending: seq<ScenarioId>, i: nat)
    requires i < |pending| && OnlyTheRunMoved(w0, w) && forall t | t !in pending[..i] :: SameRecord(w0, w, t)
    requires OnlyTheRunMoved(w, w') && forall t | t != pending[i] :: SameRecord(w, w', t)
    ensures OnlyTheRunMoved(w0, w') && forall t | t !in pending :: SameRecord(w0, w', t)
  {
    forall t | t !in pending ensures SameRecord(w0, w', t) {
      assert t !in pending[..i] && t != pending[i];
      assert SameRecord(w0, w, t) && SameRecord(w, w', t);
    }
  }

  lemma SameRecordsSoFar(p: Protocol, w0: World, w: World, w': World, done: seq<ScenarioId>,
                         behaviours: map<ScenarioId, Behaviour>, stopped: Option<Stop>, short: set<Short>)
    requires SoFar(p, w0, w, done, behaviours, stopped, short)
    requires w.out.Some? && w'.out.Some? && w' == w.(out := w'.out) && forall t :: SameRecord(w, w', t)
    ensures SoFar(p, w0, w', done, behaviours, stopped, short)
    ensures OnlyTheRunMoved(w0, w') && forall t | t !in done :: SameRecord(w0, w', t)
  {
    SoFarFacts(p, w0, w, done, behaviours, stopped, short);
    forall t ensures LoadRecord(w'.out.value, t) == LoadRecord(w.out.value, t) {
      assert SameRecord(w, w', t);
    }
    forall t | t !in done ensures SameRecord(w0, w', t) {
      assert SameRecord(w0, w, t);
    }
    forall side: Side ensures SideHolds(p, w0, w', done, behaviours, stopped, short, side) {
      assert SideHolds(p, w0, w, done, behaviours, stopped, short, side);
      if short != {} && side.Kept? {
        var s :| s in done && RefusedByBudget(w.out.value, s);
        assert RefusedByBudget(w'.out.value, s);
      }
    }
  }
}
