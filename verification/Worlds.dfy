/** Everything the run leaves behind: the log, the folders, and the requests that really went out. `Inv`
    is what holds of it at every moment, a crash at any moment included. */
module Worlds {
  import opened Wrappers
  import opened Protocols
  import opened Budgets
  import opened Grammar
  import opened LegalLogs
  import opened Ledger
  import opened Manifests
  import opened Packets

  /** `wire` is the world's own record, not the program's: every request ever sent, in order. */
  datatype World = World(
    log: seq<Event>,
    wire: seq<Service>,
    out: Option<Folder>,
    independence: Option<Folder>,
    review: Option<Folder>,
    submission: Option<Folder>,
    acceptance: Option<Content>)

  function NoProtocol(): Protocol {
    Protocol([], map[], 0, 0, map[], 0, 0, 0, 0, 0, map[])
  }

  /** The protocol the run was started under. */
  function RunProtocol(log: seq<Event>): Protocol {
    if log != [] && log[0].SessionStarted? then log[0].protocol else NoProtocol()
  }

  // -- the requests really sent, against the ledger ----------------------------------------------------------

  predicate Metered(m: Meter) {
    m in METERS && (m.Requests? || m.LlmCombined?)
  }

  function Real(wire: seq<Service>, m: Meter): nat {
    match m
    case Requests(s) => Times(wire, s)
    case LlmCombined => Times(wire, Groq) + Times(wire, Gemini)
    case _ => 0
  }

  function Figure(r: Record, m: Meter): int {
    match m
    case Requests(s) => Count(r.requests, s)
    case LlmCombined => r.llm
    case GeoapifyCredits => r.credits
    case Attempts => 1
  }

  /** What the final records alone add up to. */
  function Known(rs: seq<Option<Record>>, m: Meter): int {
    if rs == [] then 0
    else Known(rs[..|rs| - 1], m) + (if rs[|rs| - 1].Some? then Figure(rs[|rs| - 1].value, m) else 0)
  }

  ghost predicate MeterTrue(p: Protocol, rs: seq<Option<Record>>, wire: seq<Service>, m: Meter) {
    Known(rs, m) <= Real(wire, m) <= Spent(rs, p, m)
  }

  ghost predicate WireOk(p: Protocol, rs: seq<Option<Record>>, wire: seq<Service>) {
    forall m | Metered(m) :: MeterTrue(p, rs, wire, m)
  }

  lemma KnownAppend(rs: seq<Option<Record>>, r: Option<Record>, m: Meter)
    ensures Known(rs + [r], m) == Known(rs, m) + (if r.Some? then Figure(r.value, m) else 0)
  {
    assert (rs + [r])[..|rs|] == rs;
  }

  lemma WireWithOpenAttempt(p: Protocol, rs: seq<Option<Record>>, wire: seq<Service>)
    requires WireOk(p, rs, wire)
    ensures WireOk(p, rs + [None], wire)
  {
    forall m | Metered(m) ensures MeterTrue(p, rs + [None], wire, m) {
      assert MeterTrue(p, rs, wire, m);
      KnownAppend(rs, None, m);
      SpentAppend(rs, None, p, m);
    }
  }

  // -- what the log says was locked ------------------------------------------------------------------------------

  predicate Past(st: Stage, rank: nat) {
    st != Void && StageRank(st) >= rank
  }

  function LastOf(log: seq<Event>, rank: nat): Option<Event> {
    if log == [] then None
    else if Rank(log[|log| - 1]) == rank && log[|log| - 1] != RunVoid then Some(log[|log| - 1])
    else LastOf(log[..|log| - 1], rank)
  }

  lemma {:induction false} LastOfLegal(p: Protocol, log: seq<Event>, rank: nat)
    requires Legal(p, log) && rank >= 1
    ensures Past(StageOf(log), rank) <==> LastOf(log, rank).Some?
    ensures LastOf(log, rank).Some? ==> Rank(LastOf(log, rank).value) == rank && LastOf(log, rank).value != RunVoid
  {
    if log != [] {
      LegalPrefix(p, log, |log| - 1);
      LastOfLegal(p, log[..|log| - 1], rank);
    }
  }

  lemma LastOfGrows(log: seq<Event>, e: Event, rank: nat)
    ensures LastOf(log + [e], rank) == if Rank(e) == rank && e != RunVoid then Some(e) else LastOf(log, rank)
  {
    assert (log + [e])[..|log|] == log;
  }

  function ManifestSha(log: seq<Event>): Option<Sha> {
    var e := LastOf(log, 1);
    if e.Some? && e.value.RunManifest? then Some(e.value.sha) else None
  }

  // -- the locked artifacts ----------------------------------------------------------------------------------------

  const DECLARATION: Path := Other([], "declaration.md")

  /** `verify_run`'s folder part, with the ledger checks it repeats. */
  ghost predicate RunVerified(p: Protocol, w: World) {
    && FolderVerified(w.out, ManifestSha(w.log))
    && LedgerClean(Slots(w.log), w.out.value)
    && Agrees(Slots(w.log), w.out.value, p.scenarios)
  }

  predicate DeclarationVerified(w: World) {
    var e := LastOf(w.log, 2);
    && e.Some? && e.value.DeclarationLocked?
    && w.independence.Some? && DECLARATION in w.independence.value
    && Sha(w.independence.value[DECLARATION]) == e.value.sha
  }

  predicate ReviewVerified(p: Protocol, w: World) {
    var e := LastOf(w.log, 3);
    && e.Some? && e.value.ReviewManifest?
    && FolderVerified(w.review, Some(e.value.sha))
    && Unblinding in w.review.value
    && Sha(w.review.value[Unblinding]) == e.value.unblinding
    && w.review.value[Unblinding] == Mapping(PresentationOrder(p.scenarios, p.sortKeys))
  }

  predicate SubmissionVerified(w: World) {
    var e := LastOf(w.log, 4);
    && e.Some? && e.value.SubmissionLocked?
    && FolderVerified(w.submission, Some(e.value.manifest))
    && Scoresheet in w.submission.value
    && Sha(w.submission.value[Scoresheet]) == e.value.scoresheet
  }

  predicate AcceptanceVerified(w: World) {
    var e := LastOf(w.log, 5);
    e.Some? && e.value.AcceptanceRecorded? && w.acceptance.Some? && Sha(w.acceptance.value) == e.value.sha
  }

  // -- the invariant -------------------------------------------------------------------------------------------------

  /** An attempt file the log does not know: a crash fell between writing it and entering it. */
  predicate Orphan(log: seq<Event>, files: Folder, path: Path) {
    path in files && InAttempts(path) && path !in Files(log)
  }

  ghost predicate FilesOk(log: seq<Event>, files: Folder) {
    && (forall path | path in Files(log) :: path in files && files[path] == Files(log)[path])
    && (forall a, b | Orphan(log, files, a) && Orphan(log, files, b) :: a == b)
  }

  ghost predicate Matches(log: seq<Event>, files: Folder) {
    AttemptPart(files) == Files(log)
  }

  ghost predicate StoredOk(p: Protocol, log: seq<Event>, files: Folder) {
    forall s | s in p.scenarios && HasStoredResult(files, s) :: HasResult(Slots(log), s)
  }

  /** The artifact of one phase, against the log. */
  ghost predicate PhaseVerified(p: Protocol, w: World, rank: nat) {
    match rank
    case 1 => RunVerified(p, w)
    case 2 => DeclarationVerified(w)
    case 3 => ReviewVerified(p, w)
    case 4 => SubmissionVerified(w)
    case _ => AcceptanceVerified(w)
  }

  ghost predicate PhaseOk(p: Protocol, w: World) {
    var st := StageOf(w.log);
    && (Past(st, 1) ==> RunVerified(p, w))
    && (Past(st, 2) ==> DeclarationVerified(w))
    && (Past(st, 3) ==> ReviewVerified(p, w))
    && (Past(st, 4) ==> SubmissionVerified(w))
    && (Past(st, 5) ==> AcceptanceVerified(w))
  }

  datatype Clause = LogIsLegal | FilesMatchLog | StoredMatchLog | WireMatchesLog | LockedStaysVerified

  ghost predicate Holds(w: World, c: Clause) {
    var p := RunProtocol(w.log);
    match c
    case LogIsLegal => Legal(p, w.log)
    case FilesMatchLog => (w.log != [] ==> w.out.Some?) && (w.out.Some? ==> FilesOk(w.log, w.out.value))
    case StoredMatchLog => w.out.Some? ==> StoredOk(p, w.log, w.out.value)
    case WireMatchesLog => WireOk(p, Records(Slots(w.log)), w.wire)
    case LockedStaysVerified => PhaseOk(p, w)
  }

  ghost predicate Inv(w: World) {
    forall c: Clause :: Holds(w, c)
  }

  lemma Facts(w: World)
    requires Inv(w)
    ensures Legal(RunProtocol(w.log), w.log)
    ensures w.log != [] ==> w.out.Some?
    ensures w.out.Some? ==> FilesOk(w.log, w.out.value) && StoredOk(RunProtocol(w.log), w.log, w.out.value)
    ensures WireOk(RunProtocol(w.log), Records(Slots(w.log)), w.wire)
    ensures PhaseOk(RunProtocol(w.log), w)
  {
    assert Holds(w, LogIsLegal) && Holds(w, FilesMatchLog) && Holds(w, StoredMatchLog);
    assert Holds(w, WireMatchesLog) && Holds(w, LockedStaysVerified);
  }

  lemma OneProtocol(p: Protocol, log: seq<Event>)
    requires Legal(p, log) && log != [] && log[0].SessionStarted?
    ensures RunProtocol(log) == p && p.WellFormed()
  {
    assert AllowedAt(p, log, 0) && log[..0] == [];
  }

  lemma ProtocolStays(log: seq<Event>, e: Event)
    requires log != []
    ensures RunProtocol(log + [e]) == RunProtocol(log)
  {
    assert (log + [e])[0] == log[0];
  }

  /** No problem in the ledger exactly when no attempt file is unknown to the log. */
  lemma CleanUnlessOrphaned(w: World)
    requires Inv(w) && w.out.Some?
    ensures LedgerClean(Slots(w.log), w.out.value) <==> !exists path :: Orphan(w.log, w.out.value, path)
    ensures LedgerClean(Slots(w.log), w.out.value) <==> Matches(w.log, w.out.value)
  {
    Facts(w);
    var files := w.out.value;
    CleanExactly(RunProtocol(w.log), w.log, files);
    FilesAreAttempts(RunProtocol(w.log), w.log);
    if !exists path :: Orphan(w.log, files, path) {
      forall path ensures path in AttemptPart(files) <==> path in Files(w.log) {
        assert !Orphan(w.log, files, path);
      }
    }
    if Matches(w.log, files) {
      forall path ensures !Orphan(w.log, files, path) {
        assert path in files && InAttempts(path) ==> path in AttemptPart(files);
      }
    }
  }

  lemma FilesAreAttempts(p: Protocol, log: seq<Event>)
    requires Legal(p, log)
    ensures forall path | path in Files(log) :: InAttempts(path)
  {
    LegalIsBacked(p, log);
  }

  // -- every durable effect of the run keeps the invariant ------------------------------------------------------------

  lemma FilesGrow(log: seq<Event>, e: Event)
    ensures Files(log + [e]) == if e.AttemptEvent? then Files(log)[e.file := e.sha.of] else Files(log)
  {
    assert (log + [e])[..|log|] == log;
  }

  /** A new attempt file, when none is waiting to be entered. */
  lemma AttemptFileWritten(w: World, path: Path, c: Content)
    requires Inv(w) && w.out.Some? && Matches(w.log, w.out.value) && !Past(StageOf(w.log), 1)
    requires InAttempts(path) && path !in w.out.value
    ensures Inv(w.(out := Some(w.out.value[path := c])))
    ensures AttemptPart(w.out.value[path := c]) == Files(w.log)[path := c]
  {
    Facts(w);
    var files, after := w.out.value, w.out.value[path := c];
    assert path !in AttemptPart(files);
    assert AttemptPart(after) == AttemptPart(files)[path := c];
    forall a | Orphan(w.log, after, a) ensures a == path {
      assert a in AttemptPart(after);
    }
    forall q | q in Files(w.log) ensures q in after && after[q] == Files(w.log)[q] {
      assert q in AttemptPart(files);
    }
    StoredElsewhere(RunProtocol(w.log), w.log, files, path, c);
  }

  lemma StoredElsewhere(p: Protocol, log: seq<Event>, files: Folder, path: Path, c: Content)
    requires StoredOk(p, log, files) && !path.ScenarioRecord?
    ensures StoredOk(p, log, files[path := c])
    ensures forall s :: LoadRecord(files[path := c], s) == LoadRecord(files, s)
  {}

  /** Any other file of the result folder, before the run is locked. */
  lemma OtherFileWritten(w: World, path: Path, c: Content)
    requires Inv(w) && w.out.Some? && !Past(StageOf(w.log), 1)
    requires !InAttempts(path)
    requires path.ScenarioRecord? ==>
               c.StoredRecord? && (IsNotResult(c.stored.failure) || HasResult(Slots(w.log), path.scenario))
    ensures Inv(w.(out := Some(w.out.value[path := c])))
    ensures Matches(w.log, w.out.value) ==> Matches(w.log, w.out.value[path := c])
  {
    Facts(w);
    var files, after := w.out.value, w.out.value[path := c];
    assert AttemptPart(after) == AttemptPart(files);
    FilesAreAttempts(RunProtocol(w.log), w.log);
    forall a | Orphan(w.log, after, a) ensures Orphan(w.log, files, a) {}
    forall s | s in RunProtocol(w.log).scenarios && HasStoredResult(after, s) ensures HasResult(Slots(w.log), s) {
      if path != ScenarioRecord(s) {
        assert LoadRecord(after, s) == LoadRecord(files, s);
      }
    }
  }

  /** An attempt entry, for the file just written. */
  lemma AttemptLogged(w: World, e: Event)
    requires Inv(w) && w.out.Some? && e.AttemptEvent? && Allowed(RunProtocol(w.log), w.log, e)
    requires AttemptPart(w.out.value) == Files(w.log)[e.file := e.sha.of]
    requires WireOk(RunProtocol(w.log), Records(Slots(w.log + [e])), w.wire)
    ensures Inv(w.(log := w.log + [e])) && Matches(w.log + [e], w.out.value)
    ensures RunProtocol(w.log + [e]) == RunProtocol(w.log)
  {
    Facts(w);
    var p, files, log := RunProtocol(w.log), w.out.value, w.log + [e];
    LegalGrows(p, w.log, e);
    FilesGrow(w.log, e);
    ProtocolStays(w.log, e);
    Replay(w.log, e);
    assert Files(log) == AttemptPart(files);
    forall path ensures !Orphan(log, files, path) {
      assert path in files && InAttempts(path) ==> path in AttemptPart(files);
    }
    ResultsGrow(p, w.log, e);
  }

  lemma ResultsGrow(p: Protocol, log: seq<Event>, e: Event)
    requires Legal(p, log) && Allowed(p, log, e)
    ensures forall s | HasResult(Slots(log), s) :: HasResult(Slots(log + [e]), s)
  {
    LegalIsOk(p, log);
    forall s | HasResult(Slots(log), s) ensures HasResult(Slots(log + [e]), s) {
      ResultStays(p, log, e, s);
    }
  }

  /** An entry that is not of an attempt moves the phase and nothing else. */
  lemma EntryLeavesTheRest(w: World, e: Event, c: Clause)
    requires Inv(w) && w.log != [] && !e.AttemptEvent? && Allowed(RunProtocol(w.log), w.log, e)
    ensures RunProtocol(w.log + [e]) == RunProtocol(w.log)
    ensures Files(w.log + [e]) == Files(w.log) && Slots(w.log + [e]) == Slots(w.log)
    ensures c != LockedStaysVerified ==> Holds(w.(log := w.log + [e]), c)
  {
    ProtocolStays(w.log, e);
    FilesGrow(w.log, e);
    Replay(w.log, e);
    assert Holds(w, c);
    match c {
      case LogIsLegal => LegalGrows(RunProtocol(w.log), w.log, e);
      case FilesMatchLog =>
        forall path ensures Orphan(w.log + [e], w.out.value, path) == Orphan(w.log, w.out.value, path) {}
      case _ =>
    }
  }

  /** The phase a legal entry leads to. */
  lemma PhaseMoves(p: Protocol, log: seq<Event>, e: Event)
    requires Allowed(p, log, e)
    ensures NextStage(StageOf(log), e) == Some(StageOf(log + [e]))
  {
    Replay(log, e);
  }

  /** Any other entry of the run before its terminal one, or a void. */
  lemma OtherLogged(w: World, e: Event)
    requires Inv(w) && w.out.Some? && Allowed(RunProtocol(w.log), w.log, e)
    requires w.log != [] && !e.AttemptEvent? && (Rank(e) == 0 || e == RunVoid)
    ensures Inv(w.(log := w.log + [e]))
    ensures RunProtocol(w.log + [e]) == RunProtocol(w.log)
    ensures Matches(w.log, w.out.value) ==> Matches(w.log + [e], w.out.value)
  {
    PhaseMoves(RunProtocol(w.log), w.log, e);
    forall c: Clause ensures Holds(w.(log := w.log + [e]), c) {
      EntryLeavesTheRest(w, e, c);
    }
    EntryLeavesTheRest(w, e, LogIsLegal);
  }

  /** The first entry of a run. */
  lemma RunOpened(w: World, e: Event)
    requires Inv(w) && w.out.Some? && w.log == [] && e.SessionStarted?
    requires Allowed(e.protocol, [], e) && w.out.value == map[]
    ensures Inv(w.(log := [e])) && Matches([e], map[]) && RunProtocol([e]) == e.protocol
    ensures w.wire == []
  {
    LegalGrows(e.protocol, [], e);
    FilesGrow([], e);
    assert [] + [e] == [e];
    Replay([], e);
    NothingSent(w);
    forall m | Metered(m) ensures MeterTrue(e.protocol, [], w.wire, m) {}
    assert Records(Slots([e])) == [];
    assert AttemptPart(map[]) == map[];
  }

  lemma NothingSent(w: World)
    requires Inv(w) && w.log == []
    ensures w.wire == []
  {
    Facts(w);
    assert Records(Slots(w.log)) == [];
    forall s ensures Times(w.wire, s) == 0 {
      assert MeterTrue(NoProtocol(), [], w.wire, if IsLlm(s) then LlmCombined else Requests(s));
    }
    assert w.wire != [] ==> Times(w.wire, w.wire[0]) >= 1;
  }

  lemma StillVerified(p: Protocol, w: World, e: Event, rank: nat)
    requires PhaseVerified(p, w, rank) && 1 <= rank <= 5 && Rank(e) != rank && Slots(w.log + [e]) == Slots(w.log)
    ensures PhaseVerified(p, w.(log := w.log + [e]), rank)
  {
    LastOfGrows(w.log, e, rank);
  }

  /** The artifacts of the earlier phases still stand, and the new one stands beside them. */
  lemma PhaseAdvances(p: Protocol, w: World, e: Event)
    requires PhaseOk(p, w) && Rank(e) >= 1 && e != RunVoid
    requires NextStage(StageOf(w.log), e) == Some(StageOf(w.log + [e])) && Slots(w.log + [e]) == Slots(w.log)
    requires PhaseVerified(p, w.(log := w.log + [e]), Rank(e))
    ensures PhaseOk(p, w.(log := w.log + [e]))
  {
    forall rank: nat | 1 <= rank <= 5 && Past(StageOf(w.log + [e]), rank)
      ensures PhaseVerified(p, w.(log := w.log + [e]), rank)
    {
      if rank != Rank(e) {
        EarlierIsPast(w.log, e, rank);
        PhaseOfRank(p, w, rank);
        StillVerified(p, w, e, rank);
      }
    }
    PhasesTogether(p, w.(log := w.log + [e]));
  }

  lemma PhaseOfRank(p: Protocol, w: World, rank: nat)
    requires PhaseOk(p, w) && 1 <= rank <= 5 && Past(StageOf(w.log), rank)
    ensures PhaseVerified(p, w, rank)
  {}

  lemma PhasesTogether(p: Protocol, w: World)
    requires forall rank: nat | 1 <= rank <= 5 && Past(StageOf(w.log), rank) :: PhaseVerified(p, w, rank)
    ensures PhaseOk(p, w)
  {
    assert forall rank: nat :: rank in {1, 2, 3, 4, 5} && Past(StageOf(w.log), rank) ==> PhaseVerified(p, w, rank);
  }

  lemma EarlierIsPast(log: seq<Event>, e: Event, rank: nat)
    requires NextStage(StageOf(log), e) == Some(StageOf(log + [e])) && Rank(e) >= 1
    requires 1 <= rank <= 5 && rank != Rank(e) && Past(StageOf(log + [e]), rank)
    ensures Past(StageOf(log), rank)
  {}

  /** A terminal or phase entry, for the artifact already in place. */
  lemma PhaseLogged(w: World, e: Event)
    requires Inv(w) && w.log != [] && Rank(e) >= 1 && e != RunVoid
    requires Allowed(RunProtocol(w.log), w.log, e)
    requires PhaseVerified(RunProtocol(w.log), w.(log := w.log + [e]), Rank(e))
    ensures Inv(w.(log := w.log + [e]))
    ensures RunProtocol(w.log + [e]) == RunProtocol(w.log)
  {
    var p := RunProtocol(w.log);
    PhaseMoves(p, w.log, e);
    EntryLeavesTheRest(w, e, LogIsLegal);
    assert PhaseOk(p, w.(log := w.log + [e])) by {
      assert Holds(w, LockedStaysVerified);
      PhaseAdvances(p, w, e);
    }
    forall c: Clause ensures Holds(w.(log := w.log + [e]), c) {
      EntryLeavesTheRest(w, e, c);
    }
  }
}
