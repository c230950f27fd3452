/** Any history of the run: any commands, in any order, with any behaviour of the providers, each process
    free to die anywhere. */
module History {
  import opened Wrappers
  import opened Protocols
  import opened AuditLogs
  import opened Budgets
  import opened RequestGuards
  import opened Grammar
  import opened LegalLogs
  import opened Ledger
  import opened Worlds
  import opened Workspaces
  import opened Runner
  import opened Batches
  import opened Sessions
  import opened Review

  /** One process: the command it was given, and the protocol file it found. */
  datatype Command =
    | Run(p: Protocol, resume: bool, behaviours: map<ScenarioId, Behaviour>, origin: Option<Origin>)
    | DeclareText(p: Protocol, text: Content, accepted: bool)
    | MakePackets(p: Protocol, suitable: bool, packets: seq<Content>)
    | SubmitSheet(p: Protocol, rows: map<nat, Score>, returned: seq<Content>, unaltered: bool)
    | ScoreIt(p: Protocol)
  {
    predicate WellFormed() {
      && (Run? ==> p.WellFormed() && forall s | s in p.scenarios :: s in behaviours)
      && (MakePackets? ==> |packets| == |p.scenarios|)
      && (ScoreIt? ==> p.WellFormed())
    }
  }

  lemma InvAtFirst()
    ensures Inv(World([], [], None, None, None, None, None))
  {
    var w := World([], [], None, None, None, None, None);
    forall c: Clause ensures Holds(w, c) {
      assert Records(Slots(w.log)) == [];
      assert forall m | Metered(m) :: MeterTrue(NoProtocol(), [], [], m);
    }
  }

  /** A result file, if there is one, is that of what is locked. */
  ghost predicate ResultIsTrue(w: World) {
    var p := RunProtocol(w.log);
    w.acceptance.Some? ==> Scorable(p, w) && w.acceptance == Some(Acceptance(Finding(p, w)))
  }

  /** Once everything is locked, no other command does anything. */
  lemma NothingElseMoves(p: Protocol, w: World)
    requires Inv(w) && Scorable(p, w)
    ensures forall q, resume :: !MayStart(q, w, resume) && !ResumesSpent(q, w, resume)
    ensures forall q, b :: !Declarable(q, w, b) && !Packable(q, w, b)
    ensures forall q, rows, b :: !Submittable(q, w, rows, b)
  {
    ScorableExactly(p, w);
    StandingRun(p, w);
    assert LastOf(w.log, 1).Some? && LastOf(w.log, 2).Some? && LastOf(w.log, 3).Some? && LastOf(w.log, 4).Some?;
    TerminalIn(w.log);
  }

  lemma {:induction false} TerminalIn(log: seq<Event>)
    requires LastOf(log, 1).Some? && LastOf(log, 1).value.RunManifest?
    ensures Terminal(log)
  {
    var n := |log| - 1;
    if Rank(log[n]) == 1 && log[n] != RunVoid {
      assert log[n].RunManifest?;
    } else {
      TerminalIn(log[..n]);
      var i :| 0 <= i < n && (log[..n][i].RunManifest? || log[..n][i] == RunVoid);
      assert log[i] == log[..n][i];
    }
  }

  /** Scoring keeps the result true. */
  lemma ScoreKeepsTrue(p: Protocol, w: World, w': World, r: Scored)
    requires Inv(w) && ResultIsTrue(w) && ScoreDone(p, w, w', r)
    ensures ResultIsTrue(w')
  {
    if w' != w {
      ScorableExactly(p, w);
      StandingRun(p, w);
      RecordedIsScorable(p, w, Acceptance(Finding(p, w)));
      ProtocolStays(w.log, AcceptanceRecorded(Sha(Acceptance(Finding(p, w)))));
    }
  }

  /** With a true result, scoring under the run's protocol is never refused as different. */
  lemma NeverRefusedAsDifferent(p: Protocol, w: World)
    requires Inv(w) && ResultIsTrue(w) && Scorable(p, w)
    ensures forall w', r | ScoreDone(p, w, w', r) :: r != ScoreRefused
  {
    ScorableExactly(p, w);
    StandingRun(p, w);
  }

  // -- dead ends -----------------------------------------------------------------------------------------------------

  /** An attempt file is on disk that the log does not know. */
  ghost predicate Orphaned(w: World) {
    w.out.Some? && exists path :: Orphan(w.log, w.out.value, path)
  }

  /** A run under way may be resumed exactly when there is no such file, every result is stored as it was entered,
      and a resume is left. */
  lemma ResumesExactly(p: Protocol, w: World)
    requires Inv(w) && w.log != [] && RunProtocol(w.log) == p && StageOf(w.log) == Running
    ensures MayStart(p, w, true) <==>
              !Orphaned(w) && AllMatched(p, w) && Grammar.Sessions(w.log) <= p.maxResumes
  {
    Facts(w);
    RunningIsResumable(p, w);
    CleanUnlessOrphaned(w);
    AgreesWhenMatched(p, w);
  }

  /** With such a file nothing verifies any more. */
  lemma OrphanedStandsStill(w: World)
    requires Inv(w) && Orphaned(w)
    ensures forall q, resume :: !MayStart(q, w, resume)
    ensures forall q :: !RunStands(q, w) && !Scorable(q, w)
  {
    CleanUnlessOrphaned(w);
    forall q ensures !Scorable(q, w) {
      ScorableExactly(q, w);
    }
  }

  /** What a later phase leaves behind, whole or in part. */
  predicate Left(w: World, rank: nat) {
    match rank
    case 2 => w.independence.Some?
    case 3 => w.review.Some?
    case 4 => w.submission.Some?
    case 5 => w.acceptance.Some?
    case _ => false
  }

  /** A later phase has been begun after its predecessor's entry, and its own entry is missing. */
  predicate Stranded(w: World, rank: nat) {
    Left(w, rank) && LastOf(w.log, rank).None? && LastOf(w.log, rank - 1).Some?
  }

  lemma EarlierAreEntered(w: World, rank: nat)
    requires Inv(w) && 2 <= rank <= 5 && LastOf(w.log, rank).None? && LastOf(w.log, rank - 1).Some?
    ensures forall r | 1 <= r <= 5 :: LastOf(w.log, r).Some? <==> r < rank
  {
    StagesFromTheLog(w);
  }

  lemma StrandedIsTerminal(w: World)
    requires Inv(w) && LastOf(w.log, 1).Some?
    ensures Terminal(w.log)
  {
    Facts(w);
    StagesFromTheLog(w);
    TerminalIsStage(RunProtocol(w.log), w.log);
  }

  /** And nothing that any command asks for holds, but that an answered result is answered again. */
  lemma StrandedStandsStill(w: World, rank: nat)
    requires Inv(w) && Stranded(w, rank)
    ensures forall q, resume :: !MayStart(q, w, resume) && !ResumesSpent(q, w, resume)
    ensures forall q, b :: !Declarable(q, w, b) && !Packable(q, w, b)
    ensures forall q, rows, b :: !Submittable(q, w, rows, b)
    ensures forall q :: Scorable(q, w) ==> w.acceptance.Some?
  {
    EarlierAreEntered(w, rank);
    StrandedIsTerminal(w);
    forall q ensures Scorable(q, w) ==> w.acceptance.Some? {
      ScorableExactly(q, w);
    }
  }

  /** What no command gets past. */
  ghost predicate Stuck(w: World, w': World) {
    && (Orphaned(w) ==> w' == w || (!Terminal(w.log) && w' == Entered(w, RunVoid)))
    && (forall rank | Stranded(w, rank) :: w' == w)
  }

  /** What a command asks for. */
  ghost predicate Applies(command: Command, w: World) {
    match command
    case Run(p, resume, _, _) => MayStart(p, w, resume)
    case DeclareText(p, _, accepted) => Declarable(p, w, accepted)
    case MakePackets(p, suitable, _) => Packable(p, w, suitable)
    case SubmitSheet(p, rows, _, unaltered) => Submittable(p, w, rows, unaltered)
    case ScoreIt(p) => Scorable(p, w) && w.acceptance.None?
  }

  lemma NothingApplies(command: Command, w: World, w': World)
    requires Inv(w)
    requires !Applies(command, w) ==> w' == w || (command.Run? && OnlyVoided(command.p, w, w', command.resume))
    ensures Stuck(w, w')
  {
    if Orphaned(w) {
      OrphanedStandsStill(w);
    }
    forall rank | Stranded(w, rank) ensures w' == w {
      StrandedStandsStill(w, rank);
    }
  }

  /** Once a result is on disk and true, no command applies. */
  lemma NothingAppliesToTheTrue(command: Command, w: World)
    requires Inv(w) && ResultIsTrue(w) && w.acceptance.Some?
    ensures !Applies(command, w) && forall q, resume :: !ResumesSpent(q, w, resume)
  {
    NothingElseMoves(RunProtocol(w.log), w);
  }

  lemma StuckThrough(w0: World, w: World, w': World)
    requires Stuck(w0, w) && Stuck(w, w')
    ensures Stuck(w0, w')
  {
    if Orphaned(w0) && w != w0 {
      FilesGrow(w0.log, RunVoid);
      assert w.log[|w0.log|] == RunVoid;
      assert Terminal(w.log);
      var path :| Orphan(w0.log, w0.out.value, path);
      assert Orphan(w.log, w.out.value, path);
    }
  }

  /** One process. */
  method Perform(ws: Workspace, command: Command)
    requires ws.Valid() && Inv(ws.Now()) && command.WellFormed()
    modifies ws, ws.audit
    ensures ws.Valid() && Inv(ws.Now()) && old(ws.Now()).log <= ws.Now().log
    ensures ResultIsTrue(old(ws.Now())) ==> ResultIsTrue(ws.Now())
    ensures Stuck(old(ws.Now()), ws.Now())
  {
    ghost var w := ws.Now();
    match command {
      case Run(p, resume, behaviours, origin) =>
        var guard := new Guard(p.caps, p.llmCap);
        var status, turns := RunSession(ws, guard, p, resume, behaviours, origin);
      case DeclareText(p, text, accepted) =>
        var r := Declare(ws, p, text, accepted);
      case MakePackets(p, suitable, packets) =>
        var r := BuildPackets(ws, p, suitable, packets);
      case SubmitSheet(p, rows, returned, unaltered) =>
        var r := Submit(ws, p, rows, returned, unaltered);
      case ScoreIt(p) =>
        var r := ScoreSubmission(ws, p);
        if ResultIsTrue(w) {
          ScoreKeepsTrue(p, w, ws.Now(), r);
        }
    }
    NothingApplies(command, w, ws.Now());
    if ResultIsTrue(w) && w.acceptance.Some? {
      NothingAppliesToTheTrue(command, w);
    }
  }

  /** The log after any history is legal and only ever grew; the requests really sent are within the
      totals; whatever was locked still verifies; a result file is that of what is locked, so that scoring
      is never refused as different; and a dead end is never left: an attempt file that the log does not know allows
      nothing but the void of a run whose resumes are used up, and a later phase begun without its entry nothing at
      all. */
  method AnyHistory(ws: Workspace, commands: seq<Command>)
    requires ws.Valid() && Inv(ws.Now())
    requires forall c | c in commands :: c.WellFormed()
    modifies ws, ws.audit
    ensures ws.Valid() && Inv(ws.Now())
    ensures old(ws.Now()).log <= ws.Now().log
    ensures Legal(RunProtocol(ws.Now().log), ws.Now().log)
    ensures forall m | Metered(m) :: Real(ws.wire, m) <= Total(RunProtocol(ws.Now().log), m)
    ensures LastOf(ws.Now().log, 1).Some? ==> RunStands(RunProtocol(ws.Now().log), ws.Now())
    ensures ResultIsTrue(old(ws.Now())) ==> ResultIsTrue(ws.Now())
    ensures Stuck(old(ws.Now()), ws.Now())
  {
    for i := 0 to |commands|
      invariant ws.Valid() && Inv(ws.Now()) && old(ws.Now()).log <= ws.Now().log
      invariant ResultIsTrue(old(ws.Now())) ==> ResultIsTrue(ws.Now())
      invariant Stuck(old(ws.Now()), ws.Now())
    {
      assert commands[i] in commands;
      ghost var w := ws.Now();
      Perform(ws, commands[i]);
      StuckThrough(old(ws.Now()), w, ws.Now());
    }
    Facts(ws.Now());
    LockedStaysLocked(ws.Now());
    forall m | Metered(m) ensures Real(ws.wire, m) <= Total(RunProtocol(ws.Now().log), m) {
      SentNeverPassesTotals(ws.Now(), m);
    }
  }

  /** Any history of a run from its beginning, when nothing is there. */
  method WholeHistory(mortal: bool, commands: seq<Command>) returns (ws: Workspace)
    requires forall c | c in commands :: c.WellFormed()
    ensures fresh(ws) && ws.Valid() && Inv(ws.Now())
    ensures Legal(RunProtocol(ws.Now().log), ws.Now().log)
    ensures forall m | Metered(m) :: Real(ws.wire, m) <= Total(RunProtocol(ws.Now().log), m)
    ensures LastOf(ws.Now().log, 1).Some? ==> RunStands(RunProtocol(ws.Now().log), ws.Now())
    ensures ResultIsTrue(ws.Now())
  {
    var audit := new AuditLog<Event>();
    assert EventsOf(audit.lines) == [];
    ws := new Workspace(audit, mortal);
    InvAtFirst();
    AnyHistory(ws, commands);
  }
}
