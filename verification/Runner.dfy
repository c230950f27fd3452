/** One session of the run: `make_scenario_runner`, `run_benchmark` and `run_session`. The process may die
    before any durable effect and between any two requests; whatever it leaves behind satisfies `Inv`. */
module Runner {
  import opened Wrappers
  import opened Protocols
  import opened Budgets
  import opened RequestGuards
  import opened Grammar
  import opened LegalLogs
  import opened Ledger
  import opened Worlds
  import opened Workspaces

  /** What a generation did, from outside: its requests and answers in order, how it ended, and whether the
      source was still the same afterwards. */
  datatype Behaviour = Behaviour(steps: seq<Step>, ending: Ending, confirmed: bool)

  datatype Ending = Threw(failure: Failure) | Returned(report: Report)

  /** `accepted`: the report has an acceptance section; `passed`: its outcome starts with PASS. */
  datatype Report = Report(failure: Option<Failure>, credits: Option<int>, accepted: bool, passed: bool)

  datatype Reply = Died | Raised(failure: Failure) | Reported(report: Report)

  function StartEvent(k: nat, s: ScenarioId, n: nat): Event {
    AttemptEvent(Started, k, s, n, AttemptFile(s, n, Started), Sha(StartMarker(s, n, k)))
  }

  function FinalEvent(r: Record): Event {
    AttemptEvent(Final, r.session, r.scenario, r.attempt, AttemptFile(r.scenario, r.attempt, Final),
                 Sha(FinalRecord(r)))
  }

  function NoteEvent(k: nat, s: ScenarioId, n: nat): Event {
    AttemptEvent(Abandoned, k, s, n, AttemptFile(s, n, Abandoned), Sha(AbandonedNote(s, n, k)))
  }

  function CountIn(c: map<ScenarioId, nat>, s: ScenarioId): nat {
    if s in c then c[s] else 0
  }

  // -- the requests of one attempt against the ledger ------------------------------------------------------------

  lemma TimesWithin(wire: seq<Service>, extra: seq<Service>, c: Counter, m: Meter)
    requires Metered(m) && forall s :: Times(extra, s) == Count(c, s)
    ensures Real(wire + extra, m) ==
              Real(wire, m) + (match m case Requests(s) => Count(c, s) case _ => LlmCount(c))
  {
    match m
    case Requests(s) => TimesConcat(wire, extra, s);
    case _ =>
      TimesConcat(wire, extra, Groq);
      TimesConcat(wire, extra, Gemini);
  }

  /** While an attempt is open it counts at its full caps, and the guard lets no more than that out. */
  lemma WireDuringAttempt(p: Protocol, rs: seq<Option<Record>>, wire: seq<Service>, extra: seq<Service>, g: GuardState)
    requires WireOk(p, rs, wire) && SentSoFar(p, g, extra)
    ensures WireOk(p, rs + [None], wire + extra)
  {
    forall m | Metered(m) ensures MeterTrue(p, rs + [None], wire + extra, m) {
      assert MeterTrue(p, rs, wire, m);
      TimesWithin(wire, extra, g.sent, m);
      KnownAppend(rs, None, m);
      SpentAppend(rs, None, p, m);
      if m.Requests? {
        assert Count(g.sent, m.service) <= g.Cap(m.service);
      }
    }
  }

  /** Once recorded it counts at exactly what went out. */
  lemma WireAfterAttempt(p: Protocol, rs: seq<Option<Record>>, wire: seq<Service>, extra: seq<Service>, r: Record)
    requires WireOk(p, rs, wire) && r.llm == LlmCount(r.requests)
    requires forall s :: Times(extra, s) == Count(r.requests, s)
    ensures WireOk(p, rs + [Some(r)], wire + extra)
  {
    forall m | Metered(m) ensures MeterTrue(p, rs + [Some(r)], wire + extra, m) {
      assert MeterTrue(p, rs, wire, m);
      TimesWithin(wire, extra, r.requests, m);
      KnownAppend(rs, Some(r), m);
      SpentAppend(rs, Some(r), p, m);
    }
  }

  lemma GuardMatchesProtocol(g: GuardState, r: Record, p: Protocol)
    requires g.WithinCaps() && g.caps == p.caps && g.llmCap == p.llmCap
    requires r.requests == g.sent && r.llm == LlmCount(g.sent)
    ensures WithinCaps(r, p)
  {
    forall s: Service ensures Count(r.requests, s) <= Count(p.caps, s) {
      assert Count(g.sent, s) <= g.Cap(s);
    }
  }

  function AsSeq<T>(x: Option<T>): seq<T> {
    if x.Some? then [x.value] else []
  }

  /** The guard's counters are what went out, within the protocol's caps. */
  ghost predicate SentSoFar(p: Protocol, g: GuardState, out: seq<Service>) {
    && g.WithinCaps() && g.caps == p.caps && g.llmCap == p.llmCap
    && forall s :: Times(out, s) == Count(g.sent, s)
  }

  lemma SentGrows(p: Protocol, g: GuardState, out: seq<Service>, step: Step)
    requires SentSoFar(p, g, out)
    ensures SentSoFar(p, StepOf(g, step).0, out + AsSeq(StepOf(g, step).1))
  {
    var (after, went) := StepOf(g, step);
    StepKeepsCaps(g, step);
    StepCounts(g, step, Geoapify);
    forall s ensures Times(out + AsSeq(went), s) == Count(after.sent, s) {
      StepCounts(g, step, s);
      TimesConcat(out, AsSeq(went), s);
    }
  }

  /** One more step of a generation. */
  lemma NextStep(p: Protocol, g0: GuardState, steps: seq<Step>, i: nat, wire: seq<Service>, g: GuardState,
                 out: seq<Service>)
    requires i < |steps| && (g, out) == RunOf(g0, steps[..i]) && SentSoFar(p, g, out)
    ensures var (after, went) := StepOf(g, steps[i]);
            && (after, out + AsSeq(went)) == RunOf(g0, steps[..i + 1])
            && SentSoFar(p, after, out + AsSeq(went))
            && wire + out + AsSeq(went) == wire + (out + AsSeq(went))
  {
    RunOfAppend(g0, steps[..i], steps[i]);
    assert steps[..i + 1] == steps[..i] + [steps[i]];
    SentGrows(p, g, out, steps[i]);
  }

  // -- what one attempt does -----------------------------------------------------------------------------------------

  function ShortOf(p: Protocol, w: World, s: ScenarioId): set<Short> {
    Shortfall(map m | m in METERS :: Spent(Records(Slots(w.log)), p, m), CountOf(Slots(w.log), s), p)
  }

  /** The guard as an attempt finds it: the attempt's caps, cleared counters, and any earlier stop. */
  function Armed(g: GuardState, p: Protocol): GuardState {
    g.(caps := p.caps, llmCap := p.llmCap, sent := map[], refused := map[], statuses := map[])
  }

  function CreditsCounted(p: Protocol, ending: Ending): int {
    if ending.Returned? && ending.report.credits.Some? then ending.report.credits.value else p.creditCap
  }

  function OutcomeOf(stopped: bool, ending: Ending): Outcome {
    if stopped then Interrupted else if ending.Threw? then TechnicalFailure else Result
  }

  function ReplyTo(outcome: Outcome, ending: Ending): Reply {
    if outcome == Interrupted then Raised(InterruptedByGuard)
    else
      match ending
      case Threw(f) => Raised(f)
      case Returned(report) => Reported(report)
  }

  function FinishedSlot(k: nat, s: ScenarioId, n: nat, r: Record): Slot {
    Slot(s, n, map[Started := StartEvent(k, s, n)][Final := FinalEvent(r)])
  }

  /** The four things an attempt that ran to its end leaves behind. */
  datatype Trace = Entries | Requests | Figures | Standing

  /** One start and one final entry, in the log and in its replay; the requests the guard let out and no others;
      its counters in the record; and a result exactly when the guard has not stopped. */
  ghost predicate Left(p: Protocol, k: nat, w: World, w': World, g: GuardState, g': GuardState, s: ScenarioId,
                       b: Behaviour, r: Record, reply: Reply, trace: Trace)
  {
    match trace
    case Entries =>
      && w'.log == w.log + [StartEvent(k, s, r.attempt), FinalEvent(r)]
      && Slots(w'.log) == Slots(w.log) + [FinishedSlot(k, s, r.attempt, r)]
    case Requests => (g', w'.wire) == (RunOf(Armed(g, p), b.steps).0, w.wire + RunOf(Armed(g, p), b.steps).1)
    case Figures =>
      && r.scenario == s && r.attempt == CountOf(Slots(w.log), s) + 1 && r.session == k
      && r.requests == g'.sent && r.credits == CreditsCounted(p, b.ending)
    case Standing => r.outcome == OutcomeOf(g'.stoppedBy.Some?, b.ending) && reply == ReplyTo(r.outcome, b.ending)
  }

  /** An attempt that ran to its end. */
  ghost predicate Ran(p: Protocol, k: nat, w: World, w': World, g: GuardState, g': GuardState, s: ScenarioId,
                      b: Behaviour, r: Record, reply: Reply)
  {
    forall trace: Trace :: Left(p, k, w, w', g, g', s, b, r, reply, trace)
  }

  lemma RanFacts(p: Protocol, k: nat, w: World, w': World, g: GuardState, g': GuardState, s: ScenarioId, b: Behaviour,
                 r: Record, reply: Reply)
    requires Ran(p, k, w, w', g, g', s, b, r, reply)
    ensures w'.log == w.log + [StartEvent(k, s, r.attempt), FinalEvent(r)]
    ensures Slots(w'.log) == Slots(w.log) + [FinishedSlot(k, s, r.attempt, r)]
    ensures r.scenario == s && r.session == k && r.credits == CreditsCounted(p, b.ending)
    ensures r.outcome == OutcomeOf(g'.stoppedBy.Some?, b.ending) && reply == ReplyTo(r.outcome, b.ending)
  {
    assert Left(p, k, w, w', g, g', s, b, r, reply, Entries) && Left(p, k, w, w', g, g', s, b, r, reply, Figures);
    assert Left(p, k, w, w', g, g', s, b, r, reply, Standing);
  }

  /** Outside the attempt files and the scenario's own traveller view, nothing changes but the log. */
  ghost predicate Untouched(s: ScenarioId, w: World, w': World) {
    && w.log <= w'.log && w.out.Some? && w'.out.Some?
    && (w'.independence, w'.review, w'.submission, w'.acceptance)
       == (w.independence, w.review, w.submission, w.acceptance)
    && forall path | !InAttempts(path) && path != TravelerView(s) ::
         (path in w.out.value <==> path in w'.out.value)
         && (path in w.out.value ==> w.out.value[path] == w'.out.value[path])
  }

  // -- the two durable effects around an attempt ----------------------------------------------------------------

  ghost predicate InSession(p: Protocol, k: nat, w: World) {
    && Inv(w)
    && w.log != [] && RunProtocol(w.log) == p && StageOf(w.log) == Running && Sessions(w.log) == k
    && w.out.Some? && Matches(w.log, w.out.value)
  }

  function Written(w: World, e: Event): World
    requires e.AttemptEvent? && w.out.Some?
  {
    w.(out := Some(w.out.value[e.file := e.sha.of]))
  }

  function Entered(w: World, e: Event): World {
    w.(log := w.log + [e])
  }

  lemma BeginKeeps(p: Protocol, k: nat, w: World, s: ScenarioId, n: nat)
    requires InSession(p, k, w) && Startable(p, Slots(w.log), k, s, n)
    ensures var e := StartEvent(k, s, n);
            && e.file !in w.out.value
            && Inv(Written(w, e)) && InSession(p, k, Entered(Written(w, e), e))
            && Slots(w.log + [e]) == Slots(w.log) + [NewSlot(e)]
            && Records(Slots(w.log + [e])) == Records(Slots(w.log)) + [None]
  {
    Facts(w);
    var e := StartEvent(k, s, n);
    LegalIsOk(p, w.log);
    LegalIsBacked(p, w.log);
    StartKeepsBacked(p, Slots(w.log), k, Files(w.log), e);
    assert e.file !in AttemptPart(w.out.value);
    AttemptFileWritten(w, e.file, e.sha.of);
    StartKeepsLogOk(p, w.log, e);
    RecordsOfStart(Slots(w.log), e);
    WireWithOpenAttempt(p, Records(Slots(w.log)), w.wire);
    AttemptLogged(Written(w, e), e);
    Replay(w.log, e);
  }

  lemma SendKeeps(p: Protocol, k: nat, w: World, rs: seq<Option<Record>>, extra: seq<Service>, g: GuardState)
    requires InSession(p, k, w) && Records(Slots(w.log)) == rs + [None]
    requires WireOk(p, rs, w.wire) && SentSoFar(p, g, extra)
    ensures InSession(p, k, w.(wire := w.wire + extra))
  {
    Facts(w);
    WireDuringAttempt(p, rs, w.wire, extra, g);
  }

  /** A further entry of the last attempt, and the file it names. */
  lemma AmendmentKeeps(p: Protocol, k: nat, w: World, e: Event)
    requires InSession(p, k, w) && e.AttemptEvent? && e.kind != Started && Allowed(p, w.log, e)
    requires WireOk(p, Records(Slots(w.log + [e])), w.wire)
    ensures e.file !in w.out.value
    ensures Inv(Written(w, e)) && InSession(p, k, Entered(Written(w, e), e))
  {
    Facts(w);
    LegalIsOk(p, w.log);
    LegalIsBacked(p, w.log);
    AmendKeepsBacked(p, Slots(w.log), Sessions(w.log), Files(w.log), e);
    assert e.file !in AttemptPart(w.out.value);
    AttemptFileWritten(w, e.file, e.sha.of);
    AttemptLogged(Written(w, e), e);
    Replay(w.log, e);
  }

  lemma AmendmentReplayed(p: Protocol, w: World, e: Event)
    requires Inv(w) && RunProtocol(w.log) == p && e.AttemptEvent? && e.kind != Started && Allowed(p, w.log, e)
    ensures Slots(w.log) != [] && Slots(w.log + [e]) == Amended(Slots(w.log), e)
  {
    Facts(w);
    LegalIsOk(p, w.log);
    AmendKeepsLogOk(p, w.log, e);
  }

  lemma FinishKeeps(p: Protocol, k: nat, w: World, r: Record, rs: seq<Option<Record>>)
    requires InSession(p, k, w) && r.session == k && Finishable(p, Slots(w.log), k, r.scenario, r.attempt, r)
    requires Records(Slots(w.log)) == rs + [None] && WireOk(p, rs + [Some(r)], w.wire)
    ensures var e := FinalEvent(r);
            && e.file !in w.out.value
            && Inv(Written(w, e)) && InSession(p, k, Entered(Written(w, e), e))
            && Slots(w.log + [e]) == Amended(Slots(w.log), e)
            && Records(Slots(w.log + [e])) == rs + [Some(r)]
  {
    var e, slots := FinalEvent(r), Slots(w.log);
    AmendmentReplayed(p, w, e);
    RecordsOfAmended(slots, e);
    assert (Records(slots[..|slots| - 1]) + [None])[..|rs|] == (rs + [None])[..|rs|];
    assert Records(slots[..|slots| - 1]) == rs;
    AmendmentKeeps(p, k, w, e);
  }

  lemma NoteLeavesRecords(slots: seq<Slot>, e: Event)
    requires e.AttemptEvent? && e.kind == Abandoned && slots != [] && Open(slots[|slots| - 1])
    ensures Records(Amended(slots, e)) == Records(slots)
  {
    RecordsOfAmended(slots, e);
    assert Final !in slots[|slots| - 1].events.Keys;
    assert Final !in Amended(slots, e)[|slots| - 1].events;
  }

  lemma NoteKeeps(p: Protocol, k: nat, w: World, s: ScenarioId, n: nat)
    requires InSession(p, k, w) && Notable(Slots(w.log), s, n)
    ensures var e := NoteEvent(k + 1, s, n);
            && e.file !in w.out.value
            && Inv(Written(w, e)) && InSession(p, k, Entered(Written(w, e), e))
            && Slots(w.log + [e]) == Amended(Slots(w.log), e)
            && Records(Slots(w.log + [e])) == Records(Slots(w.log))
  {
    var e, slots := NoteEvent(k + 1, s, n), Slots(w.log);
    Facts(w);
    AmendmentReplayed(p, w, e);
    NoteLeavesRecords(slots, e);
    AmendmentKeeps(p, k, w, e);
  }

  // -- one whole attempt, effect by effect ----------------------------------------------------------------------------

  function AfterStart(w: World, k: nat, s: ScenarioId, n: nat): World
    requires w.out.Some?
  {
    Entered(Written(w, StartEvent(k, s, n)), StartEvent(k, s, n))
  }

  function AfterSend(w: World, went: seq<Service>): World {
    w.(wire := w.wire + went)
  }

  function AfterFinal(w: World, r: Record): World
    requires w.out.Some?
  {
    Entered(Written(w, FinalEvent(r)), FinalEvent(r))
  }

  function AfterView(w: World, s: ScenarioId): World
    requires w.out.Some?
  {
    w.(out := Some(w.out.value[TravelerView(s) := Text("")]))
  }

  function RecordOfAttempt(p: Protocol, k: nat, s: ScenarioId, n: nat, g: GuardState, ending: Ending): Record {
    Record(s, n, k, OutcomeOf(g.stoppedBy.Some?, ending), g.sent, LlmCount(g.sent), CreditsCounted(p, ending))
  }

  lemma StartedAttempt(p: Protocol, k: nat, w: World, s: ScenarioId, n: nat, went: seq<Service>, g: GuardState,
                       ending: Ending)
    requires InSession(p, k, w) && Startable(p, Slots(w.log), k, s, n) && SentSoFar(p, g, went)
    ensures InSession(p, k, AfterStart(w, k, s, n))
    ensures var w2, r := AfterSend(AfterStart(w, k, s, n), went), RecordOfAttempt(p, k, s, n, g, ending);
            && InSession(p, k, w2)
            && Records(Slots(w2.log)) == Records(Slots(w.log)) + [None]
            && Finishable(p, Slots(w2.log), k, s, n, r)
            && WireOk(p, Records(Slots(w.log)) + [Some(r)], w2.wire)
  {
    Facts(w);
    var rs, r := Records(Slots(w.log)), RecordOfAttempt(p, k, s, n, g, ending);
    BeginKeeps(p, k, w, s, n);
    SendKeeps(p, k, AfterStart(w, k, s, n), rs, went, g);
    NewIsFinishable(p, k, Slots(w.log), s, n, g, ending);
    WireAfterAttempt(p, rs, w.wire, went, r);
  }

  lemma NewIsFinishable(p: Protocol, k: nat, slots: seq<Slot>, s: ScenarioId, n: nat, g: GuardState, ending: Ending)
    requires g.WithinCaps() && g.caps == p.caps && g.llmCap == p.llmCap
    ensures Finishable(p, slots + [NewSlot(StartEvent(k, s, n))], k, s, n, RecordOfAttempt(p, k, s, n, g, ending))
  {
    GuardMatchesProtocol(g, RecordOfAttempt(p, k, s, n, g, ending), p);
    assert Open(NewSlot(StartEvent(k, s, n)));
  }

  lemma FinishedAttempt(p: Protocol, k: nat, w: World, s: ScenarioId, n: nat, went: seq<Service>, g: GuardState,
                        ending: Ending)
    requires InSession(p, k, w) && Startable(p, Slots(w.log), k, s, n) && SentSoFar(p, g, went)
    ensures var r := RecordOfAttempt(p, k, s, n, g, ending);
            var w3 := AfterFinal(AfterSend(AfterStart(w, k, s, n), went), r);
            && InSession(p, k, w3)
            && Records(Slots(w3.log)) == Records(Slots(w.log)) + [Some(r)]
            && Slots(w3.log) == Slots(w.log) + [FinishedSlot(k, s, n, r)]
  {
    var r := RecordOfAttempt(p, k, s, n, g, ending);
    var w2 := AfterSend(AfterStart(w, k, s, n), went);
    StartedAttempt(p, k, w, s, n, went, g, ending);
    BeginKeeps(p, k, w, s, n);
    FinishKeeps(p, k, w2, r, Records(Slots(w.log)));
    assert Amended(Slots(w2.log), FinalEvent(r)) == Slots(w.log) + [FinishedSlot(k, s, n, r)];
  }

  /** How the counts, the results and the session move with one finished attempt. */
  lemma FinishedCounts(slots: seq<Slot>, k: nat, s: ScenarioId, n: nat, r: Record)
    requires r.scenario == s && r.attempt == n && r.session == k
    ensures var after := slots + [FinishedSlot(k, s, n, r)];
            && (forall t :: CountOf(after, t) == CountOf(slots, t) + (if t == s then 1 else 0))
            && (forall t :: HasResult(after, t) <==> HasResult(slots, t) || (t == s && r.outcome != Interrupted))
            && (SessionClear(slots, k) && r.outcome != Interrupted ==> SessionClear(after, k))
  {
    var x := FinishedSlot(k, s, n, r);
    var after := slots + [x];
    assert after[..|slots|] == slots;
    assert RecordOf(x) == Some(r);
    assert Settled(x) <==> r.outcome != Interrupted;
    assert after[|slots|] == x;
    forall t ensures HasResult(after, t) <==> HasResult(slots, t) || (t == s && r.outcome != Interrupted) {
      if HasResult(slots, t) {
        var i :| 0 <= i < |slots| && slots[i].scenario == t && Settled(slots[i]);
        assert after[i] == slots[i];
      }
    }
  }

  lemma ReportsGrow(p: Protocol, slots: seq<Slot>, k: nat, s: ScenarioId, n: nat, r: Record)
    requires ReportsOk(p, slots) && r.credits <= p.creditCap
    ensures ReportsOk(p, slots + [FinishedSlot(k, s, n, r)])
  {
    var after := slots + [FinishedSlot(k, s, n, r)];
    assert RecordOf(FinishedSlot(k, s, n, r)) == Some(r);
    forall i | 0 <= i < |after| && RecordOf(after[i]).Some? ensures ReportsWithinCap(RecordOf(after[i]).value, p) {
      assert i < |slots| ==> after[i] == slots[i];
    }
  }

  /** The counters kept in memory are the replay of the log, and a session in which the guard has not
      stopped has produced only results. */
  ghost predicate Counted(p: Protocol, k: nat, slots: seq<Slot>, usage: Usage, perScenario: map<ScenarioId, nat>,
                          stopped: bool)
  {
    && usage == UsageSum(Records(slots), p)
    && (forall s :: CountIn(perScenario, s) == CountOf(slots, s))
    && (!stopped ==> SessionClear(slots, k))
  }

  lemma FinishedStaysCounted(p: Protocol, k: nat, slots: seq<Slot>, usage: Usage, perScenario: map<ScenarioId, nat>,
                             s: ScenarioId, n: nat, r: Record)
    requires Counted(p, k, slots, usage, perScenario, false) && n == CountOf(slots, s) + 1
    requires r.scenario == s && r.attempt == n && r.session == k
    requires Records(slots + [FinishedSlot(k, s, n, r)]) == Records(slots) + [Some(r)]
    ensures Counted(p, k, slots + [FinishedSlot(k, s, n, r)], AddAttempt(usage, Some(r), p), perScenario[s := n],
                    r.outcome == Interrupted)
  {
    FinishedCounts(slots, k, s, n, r);
    UsageAppend(Records(slots), Some(r), p);
  }

  lemma AttemptRan(p: Protocol, k: nat, w: World, s: ScenarioId, n: nat, b: Behaviour, g: GuardState)
    requires InSession(p, k, w) && Startable(p, Slots(w.log), k, s, n)
    requires SentSoFar(p, RunOf(Armed(g, p), b.steps).0, RunOf(Armed(g, p), b.steps).1)
    ensures var (g', went) := RunOf(Armed(g, p), b.steps);
            var r := RecordOfAttempt(p, k, s, n, g', b.ending);
            var w3 := AfterFinal(AfterSend(AfterStart(w, k, s, n), went), r);
            Ran(p, k, w, w3, g, g', s, b, r, ReplyTo(r.outcome, b.ending))
  {
    var (g', went) := RunOf(Armed(g, p), b.steps);
    var r := RecordOfAttempt(p, k, s, n, g', b.ending);
    var w3 := AfterFinal(AfterSend(AfterStart(w, k, s, n), went), r);
    FinishedAttempt(p, k, w, s, n, went, g', b.ending);
    assert w3.log == w.log + [StartEvent(k, s, n), FinalEvent(r)];
    forall trace: Trace ensures Left(p, k, w, w3, g, g', s, b, r, ReplyTo(r.outcome, b.ending), trace) {}
  }

  lemma AttemptTouches(w: World, k: nat, s: ScenarioId, n: nat, went: seq<Service>, r: Record)
    requires w.out.Some? && r.scenario == s
    ensures var w2 := AfterSend(AfterStart(w, k, s, n), went);
            Untouched(s, w, w2) && Untouched(s, w, Written(w2, FinalEvent(r))) && Untouched(s, w, AfterFinal(w2, r))
  {
    assert InAttempts(StartEvent(k, s, n).file) && InAttempts(FinalEvent(r).file);
  }

  /** An attempt may be put on record. */
  lemma AttemptBegins(p: Protocol, k: nat, w: World, s: ScenarioId, n: nat)
    requires InSession(p, k, w) && Startable(p, Slots(w.log), k, s, n)
    ensures StartEvent(k, s, n).file !in w.out.value
    ensures Inv(Written(w, StartEvent(k, s, n))) && Inv(AfterStart(w, k, s, n))
    ensures Untouched(s, w, w) && Untouched(s, w, Written(w, StartEvent(k, s, n)))
    ensures Untouched(s, w, AfterStart(w, k, s, n))
  {
    BeginKeeps(p, k, w, s, n);
    assert InAttempts(StartEvent(k, s, n).file);
  }

  /** Storing the traveller's view changes none of it. */
  lemma ViewStored(p: Protocol, k: nat, w: World, w': World, g: GuardState, g': GuardState, s: ScenarioId, b: Behaviour,
                   r: Record, reply: Reply)
    requires InSession(p, k, w') && Ran(p, k, w, w', g, g', s, b, r, reply) && Untouched(s, w, w')
    ensures InSession(p, k, AfterView(w', s))
    ensures Ran(p, k, w, AfterView(w', s), g, g', s, b, r, reply) && Untouched(s, w, AfterView(w', s))
  {
    OtherFileWritten(w', TravelerView(s), Text(""));
    forall trace: Trace ensures Left(p, k, w, AfterView(w', s), g, g', s, b, r, reply, trace) {
      assert Left(p, k, w, w', g, g', s, b, r, reply, trace);
    }
  }

  /** The two ends of a generation. */
  datatype Moment = Before | Since

  /** An attempt that began in `w` with the guard at `g`, and whose generation has now ended in `w2` with the guard
      at `g'`; its final record is still to be written. */
  ghost predicate Generated(p: Protocol, k: nat, w: World, w2: World, s: ScenarioId, n: nat, b: Behaviour,
                            g: GuardState, g': GuardState, usage: Usage, perScenario: map<ScenarioId, nat>)
  {
    forall moment: Moment :: GeneratedAt(p, k, w, w2, s, n, b, g, g', usage, perScenario, moment)
  }

  ghost predicate GeneratedAt(p: Protocol, k: nat, w: World, w2: World, s: ScenarioId, n: nat, b: Behaviour,
                              g: GuardState, g': GuardState, usage: Usage, perScenario: map<ScenarioId, nat>,
                              moment: Moment)
  {
    && InSession(p, k, w)
    && match moment
       case Before => Startable(p, Slots(w.log), k, s, n) && Counted(p, k, Slots(w.log), usage, perScenario, false)
       case Since =>
         var (after, went) := RunOf(Armed(g, p), b.steps);
         g' == after && w2 == AfterSend(AfterStart(w, k, s, n), went) && SentSoFar(p, after, went)
  }

  /** Wherever the generation has got to, and when it has ended. */
  lemma GenerationGoes(p: Protocol, k: nat, w: World, w2: World, s: ScenarioId, n: nat, b: Behaviour, g: GuardState,
                       g': GuardState, went: seq<Service>, usage: Usage, perScenario: map<ScenarioId, nat>, ended: bool)
    requires InSession(p, k, w) && Startable(p, Slots(w.log), k, s, n)
    requires Counted(p, k, Slots(w.log), usage, perScenario, false)
    requires SentSoFar(p, g', went) && w2 == AfterSend(AfterStart(w, k, s, n), went)
    requires ended ==> (g', went) == RunOf(Armed(g, p), b.steps)
    ensures Inv(w2) && Untouched(s, w, w2)
    ensures ended ==> Generated(p, k, w, w2, s, n, b, g, g', usage, perScenario)
  {
    Facts(w);
    BeginKeeps(p, k, w, s, n);
    SendKeeps(p, k, AfterStart(w, k, s, n), Records(Slots(w.log)), went, g');
    assert InAttempts(StartEvent(k, s, n).file);
    if ended {
      forall moment: Moment ensures GeneratedAt(p, k, w, w2, s, n, b, g, g', usage, perScenario, moment) {}
    }
  }

  /** All of it together: what is needed before the final record, and what holds after it. */
  lemma WholeAttempt(p: Protocol, k: nat, w: World, w2: World, s: ScenarioId, n: nat, b: Behaviour, g: GuardState,
                     g': GuardState, r: Record, usage: Usage, perScenario: map<ScenarioId, nat>)
    requires Generated(p, k, w, w2, s, n, b, g, g', usage, perScenario) && IsUsage(usage)
    requires r == RecordOfAttempt(p, k, s, n, g', b.ending)
    ensures Inv(w2) && w2.out.Some? && FinalEvent(r).file !in w2.out.value && Inv(Written(w2, FinalEvent(r)))
    ensures Untouched(s, w, w2) && Untouched(s, w, Written(w2, FinalEvent(r))) && Untouched(s, w, AfterFinal(w2, r))
    ensures InSession(p, k, AfterFinal(w2, r))
    ensures Ran(p, k, w, AfterFinal(w2, r), g, g', s, b, r, ReplyTo(r.outcome, b.ending))
    ensures Counted(p, k, Slots(AfterFinal(w2, r).log), AddAttempt(usage, Some(r), p), perScenario[s := n],
                    g'.stoppedBy.Some?)
  {
    assert GeneratedAt(p, k, w, w2, s, n, b, g, g', usage, perScenario, Before);
    assert GeneratedAt(p, k, w, w2, s, n, b, g, g', usage, perScenario, Since);
    var went := RunOf(Armed(g, p), b.steps).1;
    StartedAttempt(p, k, w, s, n, went, g', b.ending);
    FinishKeeps(p, k, w2, r, Records(Slots(w.log)));
    FinishedAttempt(p, k, w, s, n, went, g', b.ending);
    FinishedStaysCounted(p, k, Slots(w.log), usage, perScenario, s, n, r);
    AttemptRan(p, k, w, s, n, b, g);
    AttemptTouches(w, k, s, n, went, r);
  }

  lemma RefusalLogged(p: Protocol, k: nat, w: World, s: ScenarioId)
    requires InSession(p, k, w) && s in p.scenarios && ShortOf(p, w, s) != {}
    ensures var e := BudgetExhausted(k, s, ShortOf(p, w, s));
            && InSession(p, k, Entered(w, e)) && Slots(w.log + [e]) == Slots(w.log)
  {
    var e := BudgetExhausted(k, s, ShortOf(p, w, s));
    assert e.short == Shortfall(UsageSum(Records(Slots(w.log)), p), CountOf(Slots(w.log), s), p);
    OtherLogged(w, e);
    Replay(w.log, e);
  }

  /** How a turn goes that is not cut short. After a stop the scenario is never started, with nothing sent or
      entered. When the budget is short it is refused, with nothing sent, and the first refusal is entered in the
      log. Otherwise its attempt runs to its end. */
  ghost predicate TurnTaken(p: Protocol, k: nat, w: World, w': World, g: GuardState, g': GuardState, short: set<Short>,
                            short': set<Short>, s: ScenarioId, b: Behaviour, reply: Reply, r: Option<Record>)
  {
    if g.stoppedBy.Some? then
      reply == Raised(NotStarted) && r.None? && g' == g && short' == short && (w'.log, w'.wire) == (w.log, w.wire)
    else if ShortOf(p, w, s) != {} then
      && reply == Raised(BudgetExhaustion) && r.None? && g' == g && w'.wire == w.wire
      && short' == (if short == {} then ShortOf(p, w, s) else short)
      && w'.log == w.log + if short == {} then [BudgetExhausted(k, s, ShortOf(p, w, s))] else []
    else r.Some? && short' == short && Ran(p, k, w, w', g, g', s, b, r.value, reply)
  }

  /** What a scenario's turn lets out, however far it gets: nothing, or what the guard admits of the generation's
      first steps. */
  datatype Turn =
    | Waits(scenario: ScenarioId, before: GuardState)
    | Sends(scenario: ScenarioId, before: GuardState, steps: seq<Step>)
  {
    function After(p: Protocol): GuardState {
      if Waits? then before else RunOf(Armed(before, p), steps).0
    }

    function Sent(p: Protocol): seq<Service> {
      if Waits? then [] else RunOf(Armed(before, p), steps).1
    }
  }

  /** `t` is what went out between two moments, a stopped guard letting out nothing. */
  ghost predicate IsTurn(p: Protocol, wire: seq<Service>, wire': seq<Service>, g: GuardState, g': GuardState,
                         s: ScenarioId, b: Behaviour, t: Turn)
  {
    && t.scenario == s && t.before == g && t.After(p) == g' && wire' == wire + t.Sent(p)
    && (t.Sends? ==> g.stoppedBy.None? && t.steps <= b.steps)
  }

  ghost predicate TurnSent(p: Protocol, wire: seq<Service>, wire': seq<Service>, g: GuardState, g': GuardState,
                           s: ScenarioId, b: Behaviour)
  {
    exists t: Turn :: IsTurn(p, wire, wire', g, g', s, b, t)
  }

  lemma TurnWaits(p: Protocol, wire: seq<Service>, g: GuardState, s: ScenarioId, b: Behaviour)
    ensures TurnSent(p, wire, wire, g, g, s, b)
  {
    assert wire + [] == wire;
    assert IsTurn(p, wire, wire, g, g, s, b, Waits(s, g));
  }

  lemma StepsSent(p: Protocol, wire: seq<Service>, wire': seq<Service>, g: GuardState, g': GuardState, s: ScenarioId,
                  b: Behaviour, n: nat, went: seq<Service>)
    requires g.stoppedBy.None? && n <= |b.steps| && wire' == wire + went
    requires (g', went) == RunOf(Armed(g, p), b.steps[..n])
    ensures TurnSent(p, wire, wire', g, g', s, b)
  {
    assert IsTurn(p, wire, wire', g, g', s, b, Sends(s, g, b.steps[..n]));
  }

  /** What a turn does to the results: no other scenario's standing changes, what is reported as a result is one,
      and only an attempt that was not interrupted makes one. */
  lemma TurnResults(p: Protocol, k: nat, w: World, w': World, g: GuardState, g': GuardState, short: set<Short>,
                    short': set<Short>, s: ScenarioId, b: Behaviour, reply: Reply, r: Option<Record>)
    requires TurnTaken(p, k, w, w', g, g', short, short', s, b, reply, r)
    ensures forall t :: HasResult(Slots(w'.log), t) <==>
                          HasResult(Slots(w.log), t) || (t == s && r.Some? && r.value.outcome != Interrupted)
    ensures reply.Reported? || (reply.Raised? && reply.failure.OtherFailure?) ==> HasResult(Slots(w'.log), s)
    ensures r.None? ==> Slots(w'.log) == Slots(w.log)
  {
    if r.Some? {
      RanFacts(p, k, w, w', g, g', s, b, r.value, reply);
      FinishedCounts(Slots(w.log), k, s, r.value.attempt, r.value);
    } else {
      Replay(w.log, BudgetExhausted(k, s, ShortOf(p, w, s)));
      assert w.log + [] == w.log;
    }
  }

  // -- a file and its entry -------------------------------------------------------------------------------------------

  /** A new attempt file, then its entry in the log. */
  method PutOnRecord(ws: Workspace, e: Event) returns (alive: bool)
    requires ws.Valid() && ws.out.Some? && e.AttemptEvent? && e.file !in ws.out.value
    requires Inv(ws.Now()) && Inv(Written(ws.Now(), e)) && Inv(Entered(Written(ws.Now(), e), e))
    modifies ws`out, ws.audit
    ensures ws.Valid() && Inv(ws.Now())
    ensures var w := old(ws.Now());
            if alive then ws.Now() == Entered(Written(w, e), e) else ws.Now() == w || ws.Now() == Written(w, e)
    ensures !ws.mortal ==> alive
  {
    var writing := ws.WriteOnce(e.file, e.sha.of);
    alive := writing == FileCreated;
    if alive {
      alive := ws.Log(e);
    }
  }

  // -- run_one -------------------------------------------------------------------------------------------------------

  class ScenarioRunner {
    const ws: Workspace
    const guard: Guard
    const p: Protocol
    const session: nat
    var usage: Usage
    var perScenario: map<ScenarioId, nat>
    var exhausted: set<Short>

    constructor (ws: Workspace, guard: Guard, p: Protocol, session: nat, usage: Usage,
                 perScenario: map<ScenarioId, nat>)
      ensures this.ws == ws && this.guard == guard && this.p == p && this.session == session
      ensures this.usage == usage && this.perScenario == perScenario && exhausted == {}
    {
      this.ws, this.guard, this.p, this.session := ws, guard, p, session;
      this.usage, this.perScenario, exhausted := usage, perScenario, {};
    }

    ghost function Log(): seq<Event>
      reads ws, ws.audit
      requires ws.Valid()
    {
      ws.Now().log
    }

    ghost function Attempts(): seq<Slot>
      reads ws, ws.audit
      requires ws.Valid()
    {
      Slots(Log())
    }

    /** Between attempts. */
    ghost predicate Idle()
      reads this, ws, ws.audit, guard
    {
      && ws.Valid() && InSession(p, session, ws.Now())
      && Counted(p, session, Attempts(), usage, perScenario, guard.stoppedBy.Some?)
    }

    /** One request or answer through the guard. */
    method Exchange(step: Step) returns (ghost out: Option<Service>)
      requires ws.Valid()
      modifies ws`wire, guard
      ensures (guard.State(), out) == StepOf(old(guard.State()), step)
      ensures ws.Valid() && ws.Now() == old(ws.Now()).(wire := old(ws.wire) + AsSeq(out))
    {
      out := None;
      match step {
        case Ask(host, package) =>
          var reply := guard.Admit(host, package);
          if reply.Admitted? {
            ws.Send(reply.service);
            out := Some(reply.service);
          }
        case Answer(service, status) =>
          guard.Observe(service, status);
      }
      assert out.None? ==> ws.wire == old(ws.wire) + [];
    }

    /** The generation's requests, in order, unless the process dies on the way. */
    method SendAll(steps: seq<Step>) returns (alive: bool, ghost out: seq<Service>, ghost done: nat)
      requires ws.Valid() && SentSoFar(p, guard.State(), [])
      modifies ws`wire, guard
      ensures ws.Valid() && ws.Now() == old(ws.Now()).(wire := old(ws.wire) + out)
      ensures done <= |steps| && (guard.State(), out) == RunOf(old(guard.State()), steps[..done])
      ensures alive ==> (guard.State(), out) == RunOf(old(guard.State()), steps)
      ensures SentSoFar(p, guard.State(), out)
      ensures !ws.mortal ==> alive
    {
      out, done := [], 0;
      assert ws.wire == ws.wire + [];
      var i := 0;
      while i < |steps|
        invariant 0 <= i <= |steps| && done == i
        invariant ws.Valid() && ws.Now() == old(ws.Now()).(wire := old(ws.wire) + out)
        invariant SentSoFar(p, guard.State(), out)
        invariant (guard.State(), out) == RunOf(old(guard.State()), steps[..i])
      {
        var dead := Dies(ws.mortal);
        if dead {
          return false, out, done;
        }
        NextStep(p, old(guard.State()), steps, i, old(ws.wire), guard.State(), out);
        ghost var went := Exchange(steps[i]);
        out := out + AsSeq(went);
        i, done := i + 1, i + 1;
      }
      assert steps[..i] == steps;
      return true, out, done;
    }

    /** The start marker, then its entry. */
    method Begin(s: ScenarioId, n: nat) returns (alive: bool)
      requires ws.Valid() && InSession(p, session, ws.Now()) && Startable(p, Attempts(), session, s, n)
      modifies ws`out, ws.audit
      ensures ws.Valid() && Inv(ws.Now()) && Untouched(s, old(ws.Now()), ws.Now())
      ensures alive ==> ws.Now() == AfterStart(old(ws.Now()), session, s, n)
      ensures !ws.mortal ==> alive
    {
      AttemptBegins(p, session, ws.Now(), s, n);
      alive := PutOnRecord(ws, StartEvent(session, s, n));
    }

    /** An attempt up to the end of its generation. */
    method Generate(s: ScenarioId, n: nat, b: Behaviour) returns (alive: bool)
      requires Idle() && guard.stoppedBy.None? && Startable(p, Attempts(), session, s, n)
      modifies ws`out, ws`wire, ws.audit, guard
      ensures ws.Valid() && Inv(ws.Now())
      ensures Untouched(s, old(ws.Now()), ws.Now())
      ensures alive ==>
                Generated(p, session, old(ws.Now()), ws.Now(), s, n, b, old(guard.State()), guard.State(), usage,
                          perScenario)
      ensures TurnSent(p, old(ws.wire), ws.wire, old(guard.State()), guard.State(), s, b)
      ensures !ws.mortal ==> alive
    {
      ghost var w, g := ws.Now(), guard.State();
      alive := Begin(s, n);
      if !alive {
        TurnWaits(p, w.wire, g, s, b);
        return;
      }
      guard.Rearm(p.caps, p.llmCap);
      alive := Exchanges(s, n, b, w, g);
    }

    /** The requests of an attempt that has begun, under the guard as `Rearm` left it. */
    method Exchanges(s: ScenarioId, n: nat, b: Behaviour, ghost w: World, ghost g: GuardState) returns (alive: bool)
      requires ws.Valid() && InSession(p, session, w) && ws.Now() == AfterStart(w, session, s, n)
      requires Startable(p, Slots(w.log), session, s, n)
      requires Counted(p, session, Slots(w.log), usage, perScenario, false)
      requires g.stoppedBy.None? && guard.State() == Armed(g, p) && SentSoFar(p, guard.State(), [])
      modifies ws`wire, guard
      ensures ws.Valid() && Inv(ws.Now()) && Untouched(s, w, ws.Now())
      ensures alive ==>
                Generated(p, session, w, ws.Now(), s, n, b, g, guard.State(), usage, perScenario)
      ensures TurnSent(p, w.wire, ws.wire, g, guard.State(), s, b)
      ensures !ws.mortal ==> alive
    {
      ghost var went, done;
      alive, went, done := SendAll(b.steps);
      StepsSent(p, w.wire, ws.wire, g, guard.State(), s, b, done, went);
      GenerationGoes(p, session, w, ws.Now(), s, n, b, g, guard.State(), went, usage, perScenario, alive);
    }

    /** An attempt whose generation has ended, up to the entry of its final record. */
    method Conclude(s: ScenarioId, n: nat, b: Behaviour, ghost w: World, ghost g: GuardState)
      returns (alive: bool, r: Record)
      requires ws.Valid() && Generated(p, session, w, ws.Now(), s, n, b, g, guard.State(), usage, perScenario)
      requires IsUsage(usage)
      modifies this`usage, this`perScenario, ws`out, ws.audit
      ensures ws.Valid() && Inv(ws.Now()) && Untouched(s, w, ws.Now())
      ensures alive ==> Idle()
      ensures alive ==> Ran(p, session, w, ws.Now(), g, guard.State(), s, b, r, ReplyTo(r.outcome, b.ending))
      ensures !ws.mortal ==> alive
    {
      var llm := Count(guard.sent, Groq) + Count(guard.sent, Gemini);
      r := Record(s, n, session, OutcomeOf(guard.stoppedBy.Some?, b.ending), guard.sent, llm,
                  CreditsCounted(p, b.ending));
      assert r == RecordOfAttempt(p, session, s, n, guard.State(), b.ending);
      WholeAttempt(p, session, w, ws.Now(), s, n, b, g, guard.State(), r, usage, perScenario);
      perScenario := perScenario[s := n];
      alive := PutOnRecord(ws, FinalEvent(r));
      if alive {
        usage := AddAttempt(usage, Some(r), p);
      }
    }

    /** An attempt that may start, from its start marker to the entry of its final record. */
    method RunAttempt(s: ScenarioId, n: nat, b: Behaviour) returns (alive: bool, r: Record)
      requires Idle() && guard.stoppedBy.None? && Startable(p, Attempts(), session, s, n)
      modifies this`usage, this`perScenario, ws`out, ws`wire, ws.audit, guard
      ensures ws.Valid() && Inv(ws.Now()) && Untouched(s, old(ws.Now()), ws.Now())
      ensures TurnSent(p, old(ws.wire), ws.wire, old(guard.State()), guard.State(), s, b)
      ensures alive ==> Idle()
      ensures alive ==> Ran(p, session, old(ws.Now()), ws.Now(), old(guard.State()), guard.State(), s, b, r,
                            ReplyTo(r.outcome, b.ending))
      ensures !ws.mortal ==> alive
    {
      r := Record(s, n, session, Interrupted, map[], 0, 0);
      alive := Generate(s, n, b);
      if alive {
        alive, r := Conclude(s, n, b, old(ws.Now()), old(guard.State()));
      }
    }

    /** The same, and its traveller view. */
    method Attempt(s: ScenarioId, n: nat, b: Behaviour) returns (reply: Reply, ghost r: Option<Record>)
      requires Idle() && guard.stoppedBy.None? && Startable(p, Attempts(), session, s, n)
      modifies this`usage, this`perScenario, ws`out, ws`wire, ws.audit, guard
      ensures ws.Valid() && Inv(ws.Now())
      ensures reply != Died ==> Idle() && r.Some?
      ensures Untouched(s, old(ws.Now()), ws.Now())
      ensures TurnSent(p, old(ws.wire), ws.wire, old(guard.State()), guard.State(), s, b)
      ensures r.Some? ==>
                Ran(p, session, old(ws.Now()), ws.Now(), old(guard.State()), guard.State(), s, b, r.value, reply)
      ensures !ws.mortal ==> reply != Died
    {
      r := None;
      var alive, record := RunAttempt(s, n, b);
      if !alive {
        return Died, None;
      }
      reply := ReplyTo(record.outcome, b.ending);
      if reply.Reported? {
        ViewStored(p, session, old(ws.Now()), ws.Now(), old(guard.State()), guard.State(), s, b, record, reply);
        alive := ws.Store(TravelerView(s), Text(""));
        if !alive {
          return Died, None;
        }
      }
      r := Some(record);
    }

    /** `run_one`: one scenario's turn. `r` is the final record, if an attempt ran to its end. */
    method RunOne(s: ScenarioId, b: Behaviour) returns (reply: Reply, ghost r: Option<Record>)
      requires Idle() && s in p.scenarios && !HasResult(Attempts(), s)
      modifies this, ws`out, ws`wire, ws.audit, guard
      ensures ws.Valid() && Inv(ws.Now()) && Untouched(s, old(ws.Now()), ws.Now())
      ensures reply != Died ==>
                && Idle()
                && TurnTaken(p, session, old(ws.Now()), ws.Now(), old(guard.State()), guard.State(), old(exhausted),
                             exhausted, s, b, reply, r)
      ensures reply != Died && r.None? ==> ws.out == old(ws.out)
      ensures TurnSent(p, old(ws.wire), ws.wire, old(guard.State()), guard.State(), s, b)
      // nothing is sent after a stop or when the budget is short, wherever the process dies
      ensures old(guard.stoppedBy).Some? ==> reply != Died
      ensures ShortOf(p, old(ws.Now()), s) != {} ==> ws.wire == old(ws.wire)
      ensures !ws.mortal ==> reply != Died
    {
      TurnWaits(p, ws.wire, guard.State(), s, b);
      if guard.stoppedBy.Some? {
        return Raised(NotStarted), None;
      }
      var n := CountIn(perScenario, s) + 1;
      var short := Shortfall(usage, n - 1, p);
      assert short == ShortOf(p, ws.Now(), s);
      if short != {} {
        if exhausted == {} {
          exhausted := short;
          RefusalLogged(p, session, ws.Now(), s);
          var alive := ws.Log(BudgetExhausted(session, s, short));
          if !alive {
            return Died, None;
          }
        }
        return Raised(BudgetExhaustion), None;
      }
      reply, r := Attempt(s, n, b);
    }
  }
}
