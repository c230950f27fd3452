/** One session of the run, from the checks before it to its manifest or its void. */
module Sessions {
  import opened Wrappers
  import opened Protocols
  import opened AuditLogs
  import opened Budgets
  import opened RequestGuards
  import opened Grammar
  import opened LegalLogs
  import opened RunTheorems
  import opened Ledger
  import opened Manifests
  import opened Worlds
  import opened Workspaces
  import opened Runner
  import opened Batches

  // -- may the run be resumed? --------------------------------------------------------------------------------

  datatype Gate = Refuse | ResumesUsedUp | Continue(slots: seq<Slot>, records: seq<Option<Record>>)

  /** The protocol of the first `session_started` entry. */
  function FirstProtocol(log: seq<Event>): Option<Protocol> {
    if log == [] then None
    else if log[0].SessionStarted? then Some(log[0].protocol)
    else FirstProtocol(log[1..])
  }

  predicate Terminal(log: seq<Event>) {
    exists i | 0 <= i < |log| :: log[i].RunManifest? || log[i] == RunVoid
  }

  ghost predicate Resumable(log: seq<Event>, p: Protocol) {
    FirstProtocol(log) == Some(p) && !Terminal(log)
  }

  function FolderOrEmpty(out: Option<Folder>): Folder {
    out.GetOr(map[])
  }

  /** The checks of a resume, on whatever is on disk, altered or not: it goes on only if the chain is
      intact, the protocol is the one the run started under, nothing terminal is entered, a resume is
      left, and the evidence and the stored results match the log exactly. */
  method CheckResume(audit: AuditLog<Event>, out: Option<Folder>, p: Protocol) returns (gate: Gate)
    ensures gate.Continue? <==>
              && audit.Unbroken() && Resumable(audit.Events(), p) && Grammar.Sessions(audit.Events()) <= p.maxResumes
              && LedgerClean(Slots(audit.Events()), FolderOrEmpty(out))
              && Agrees(Slots(audit.Events()), FolderOrEmpty(out), p.scenarios)
    ensures gate.Continue? ==>
              gate.slots == Slots(audit.Events()) && gate.records == Records(gate.slots)
    ensures gate.ResumesUsedUp? <==>
              audit.Unbroken() && Resumable(audit.Events(), p) && Grammar.Sessions(audit.Events()) > p.maxResumes
  {
    var reading := audit.Read();
    if reading.Broken? {
      return Refuse;
    }
    var log := reading.entries;
    if FirstProtocol(log) != Some(p) || Terminal(log) {
      return Refuse;
    }
    if Grammar.Sessions(log) > p.maxResumes {
      return ResumesUsedUp;
    }
    var files := FolderOrEmpty(out);
    var slots, records, ledger := ReadLedger(log, files);
    var stored := LedgerProblems(slots, records, files, p.scenarios);
    if ledger + stored != [] {
      return Refuse;
    }
    return Continue(slots, records);
  }

  lemma TerminalGrows(log: seq<Event>, e: Event)
    ensures Terminal(log + [e]) <==> Terminal(log) || e.RunManifest? || e == RunVoid
  {
    var longer := log + [e];
    if i :| 0 <= i < |log| && (log[i].RunManifest? || log[i] == RunVoid) {
      assert longer[i] == log[i];
    }
    if e.RunManifest? || e == RunVoid {
      assert longer[|log|] == e;
    }
  }

  lemma TerminalMoves(log: seq<Event>, e: Event)
    requires NextStage(StageOf(log), e).Some?
    requires Terminal(log) <==> StageOf(log) != Empty && StageOf(log) != Running
    ensures Terminal(log + [e]) <==> StageOf(log + [e]) != Empty && StageOf(log + [e]) != Running
  {
    Replay(log, e);
    TerminalGrows(log, e);
  }

  lemma {:induction false} TerminalIsStage(p: Protocol, log: seq<Event>)
    requires Legal(p, log)
    ensures Terminal(log) <==> StageOf(log) != Empty && StageOf(log) != Running
  {
    if log != [] {
      var before, e := log[..|log| - 1], log[|log| - 1];
      assert log == before + [e];
      LegalStep(p, log);
      TerminalIsStage(p, before);
      TerminalMoves(before, e);
    }
  }

  /** A run that may be resumed is under way, under this protocol, with its evidence complete. */
  lemma ResumableIsRunning(w: World, p: Protocol)
    requires Inv(w) && Resumable(w.log, p)
    ensures w.log != [] && RunProtocol(w.log) == p && StageOf(w.log) == Running && w.out.Some? && p.WellFormed()
    ensures LedgerClean(Slots(w.log), FolderOrEmpty(w.out)) ==> InSession(p, Grammar.Sessions(w.log), w)
  {
    Facts(w);
    var q := RunProtocol(w.log);
    assert AllowedAt(q, w.log, 0) && w.log[..0] == [];
    assert w.log[0] != RunVoid;
    LegalIsOk(q, w.log);
    OneProtocol(q, w.log);
    TerminalIsStage(q, w.log);
    CleanUnlessOrphaned(w);
  }

  // -- abandoned attempts ---------------------------------------------------------------------------------------

  function CountsOf(slots: seq<Slot>): map<ScenarioId, nat> {
    if slots == [] then map[]
    else
      var before, s := CountsOf(slots[..|slots| - 1]), slots[|slots| - 1].scenario;
      before[s := CountIn(before, s) + 1]
  }

  lemma {:induction false} CountsAreCounts(slots: seq<Slot>)
    ensures forall s :: CountIn(CountsOf(slots), s) == CountOf(slots, s)
  {
    if slots != [] {
      CountsAreCounts(slots[..|slots| - 1]);
    }
  }

  /** Only the last attempt of a run can be without both a final record and a note. */
  lemma OnlyLastIsOpen(p: Protocol, log: seq<Event>, i: nat)
    requires Legal(p, log) && i < |Slots(log)|
    ensures var x := Slots(log)[i];
            RecordOf(x).None? && Abandoned !in x.events <==> i == |Slots(log)| - 1 && Open(x)
  {
    LegalIsOk(p, log);
    var x := Slots(log)[i];
    assert SlotOk(p, Slots(log), Grammar.Sessions(log), i);
    assert Final in x.events ==> WellEntered(x, Final);
    if Final !in x.events && Abandoned !in x.events {
      forall kind | kind in x.events.Keys ensures kind == Started {
        assert kind == Started || kind == Final || kind == Abandoned;
      }
      assert x.events.Keys == {Started};
    }
    if Open(x) {
      assert Final !in x.events.Keys && Abandoned !in x.events.Keys;
    }
  }

  lemma NoteWhole(p: Protocol, k: nat, w: World, s: ScenarioId, n: nat)
    requires InSession(p, k, w) && Notable(Slots(w.log), s, n)
    ensures var e := NoteEvent(k + 1, s, n);
            && e.file !in w.out.value
            && Inv(Written(w, e)) && Noted(w, Written(w, e))
            && InSession(p, k, Entered(Written(w, e), e)) && Noted(w, Entered(Written(w, e), e))
            && NoneOpen(Slots(w.log + [e])) && SameAttempts(Slots(w.log), Slots(w.log + [e]))
  {
    var e := NoteEvent(k + 1, s, n);
    NoteKeeps(p, k, w, s, n);
    AmendedByNote(Slots(w.log), e);
  }

  method Note(ws: Workspace, p: Protocol, k: nat, s: ScenarioId, n: nat) returns (alive: bool)
    requires ws.Valid() && InSession(p, k, ws.Now()) && Notable(Slots(ws.Now().log), s, n)
    modifies ws`out, ws.audit
    ensures ws.Valid() && Inv(ws.Now()) && Noted(old(ws.Now()), ws.Now())
    ensures alive ==> ws.Now() == Entered(Written(old(ws.Now()), NoteEvent(k + 1, s, n)), NoteEvent(k + 1, s, n))
    ensures alive ==>
              && InSession(p, k, ws.Now()) && NoneOpen(Slots(ws.Now().log))
              && SameAttempts(Slots(old(ws.Now()).log), Slots(ws.Now().log))
    ensures !ws.mortal ==> alive
  {
    var e := NoteEvent(k + 1, s, n);
    NoteWhole(p, k, ws.Now(), s, n);
    alive := PutOnRecord(ws, e);
  }

  /** `_note_abandoned`, after `k` sessions: the attempt a dead process left open gets a write-once note. */
  method NoteAbandoned(ws: Workspace, p: Protocol, k: nat, slots: seq<Slot>, records: seq<Option<Record>>)
    returns (alive: bool)
    requires ws.Valid() && InSession(p, k, ws.Now())
    requires slots == Slots(ws.Now().log) && records == Records(slots)
    modifies ws`out, ws.audit
    ensures ws.Valid() && Inv(ws.Now()) && Noted(old(ws.Now()), ws.Now())
    ensures alive ==> InSession(p, k, ws.Now()) && NoneOpen(Slots(ws.Now().log))
    ensures alive ==> SameAttempts(slots, Slots(ws.Now().log))
    ensures !ws.mortal ==> alive
  {
    ghost var w := ws.Now();
    Facts(w);
    var i := 0;
    while i < |slots|
      invariant 0 <= i <= |slots| && ws.Valid()
      invariant i < |slots| || slots == [] ==> ws.Now() == w
      invariant i == |slots| > 0 ==>
                  InSession(p, k, ws.Now()) && Noted(w, ws.Now())
                  && NoneOpen(Slots(ws.Now().log)) && SameAttempts(slots, Slots(ws.Now().log))
    {
      OnlyLastIsOpen(p, w.log, i);
      if records[i].None? && Abandoned !in slots[i].events {
        alive := Note(ws, p, k, slots[i].scenario, slots[i].number);
        if !alive {
          return false;
        }
      }
      i := i + 1;
    }
    return true;
  }

  ghost predicate NoneOpen(slots: seq<Slot>) {
    slots != [] ==> !Open(slots[|slots| - 1])
  }

  /** The same attempts with the same records, notes aside. */
  ghost predicate SameAttempts(a: seq<Slot>, b: seq<Slot>) {
    && Records(a) == Records(b)
    && (forall s :: CountOf(a, s) == CountOf(b, s) && (HasResult(a, s) <==> HasResult(b, s)))
  }

  lemma {:induction false} SameNamesSameCounts(a: seq<Slot>, b: seq<Slot>, s: ScenarioId)
    requires |a| == |b| && forall i | 0 <= i < |a| :: a[i].scenario == b[i].scenario
    ensures CountOf(a, s) == CountOf(b, s)
  {
    if a != [] {
      SameNamesSameCounts(a[..|a| - 1], b[..|b| - 1], s);
    }
  }

  lemma AmendedByNote(slots: seq<Slot>, e: Event)
    requires e.AttemptEvent? && e.kind == Abandoned && slots != [] && Open(slots[|slots| - 1])
    ensures SameAttempts(slots, Amended(slots, e)) && NoneOpen(Amended(slots, e))
  {
    var after, n := Amended(slots, e), |slots| - 1;
    NoteLeavesRecords(slots, e);
    forall i | 0 <= i <= n ensures RecordOf(after[i]) == RecordOf(slots[i]) && after[i].scenario == slots[i].scenario {
      assert Records(after)[i] == Records(slots)[i];
    }
    forall s ensures CountOf(slots, s) == CountOf(after, s) && (HasResult(slots, s) <==> HasResult(after, s)) {
      SameNamesSameCounts(slots, after, s);
      if HasResult(slots, s) {
        var i :| 0 <= i <= n && slots[i].scenario == s && Settled(slots[i]);
        assert after[i].scenario == s && Settled(after[i]);
      }
      if HasResult(after, s) {
        var i :| 0 <= i <= n && after[i].scenario == s && Settled(after[i]);
        assert slots[i].scenario == s && Settled(slots[i]);
      }
    }
    assert e.kind in after[n].events.Keys;
  }

  /** Nothing was sent and nothing but attempt files was written. */
  ghost predicate Noted(w: World, w': World) {
    && w.log <= w'.log && w'.wire == w.wire && w.out.Some? && w'.out.Some?
    && (w'.independence, w'.review, w'.submission, w'.acceptance)
       == (w.independence, w.review, w.submission, w.acceptance)
    && forall s :: LoadRecord(w'.out.value, s) == LoadRecord(w.out.value, s)
  }

  // -- opening a session ------------------------------------------------------------------------------------------

  datatype Opening =
    | TurnedAway
    | DiedOpening
    | Opened(session: nat, pending: seq<ScenarioId>, usage: Usage, perScenario: map<ScenarioId, nat>)

  lemma {:induction false} NothingDone(all: seq<ScenarioId>)
    ensures WithoutResult(all, []) == all
  {
    if all != [] {
      NothingDone(all[1..]);
    }
  }

  lemma {:induction false} PendingIsDue(all: seq<ScenarioId>, slots: seq<Slot>)
    ensures forall s | s in WithoutResult(all, slots) :: s in all && !HasResult(slots, s)
    ensures forall s | s in all && !HasResult(slots, s) :: s in WithoutResult(all, slots)
    ensures Distinct(all) ==> Distinct(WithoutResult(all, slots))
  {
    if all != [] {
      PendingIsDue(all[1..], slots);
      var rest := WithoutResult(all[1..], slots);
      if Distinct(all) {
        forall s | s in rest ensures s != all[0] {
          assert s in all[1..];
        }
      }
    }
  }

  /** What the records of a resumed run lead to, notes aside. */
  lemma SameOutlook(p: Protocol, a: seq<Slot>, b: seq<Slot>, all: seq<ScenarioId>)
    requires SameAttempts(a, b)
    ensures WithoutResult(all, a) == WithoutResult(all, b) && UsageSum(Records(a), p) == UsageSum(Records(b), p)
    decreases |all|
  {
    if all != [] {
      SameOutlook(p, a, b, all[1..]);
    }
  }

  /** A session may open here: a new run in its empty folder, or a run under way with nothing open. */
  ghost predicate Openable(p: Protocol, k: nat, w: World) {
    && Inv(w) && p.WellFormed()
    && ((w.log == [] && k == 0 && w.out == Some(map[])) || (InSession(p, k, w) && NoneOpen(Slots(w.log))))
  }

  lemma SessionOpens(p: Protocol, k: nat, w: World, resume: bool, pending: seq<ScenarioId>, usage: Usage)
    requires Openable(p, k, w) && k <= p.maxResumes && resume == (w.log != [])
    requires pending == WithoutResult(p.scenarios, Slots(w.log)) && usage == UsageSum(Records(Slots(w.log)), p)
    requires pending == [] || Shortfall(usage, 0, p) == {}
    ensures var e := SessionStarted(k + 1, p, resume, pending, usage);
            && InSession(p, k + 1, Entered(w, e)) && Slots(w.log + [e]) == Slots(w.log)
            && SessionClear(Slots(w.log), k + 1)
  {
    var e := SessionStarted(k + 1, p, resume, pending, usage);
    Facts(w);
    Replay(w.log, e);
    LaterSessionIsClear(w, k);
    assert AllowedSession(p, w.log, e);
    if w.log == [] {
      RunOpened(w, e);
      assert [] + [e] == [e];
    } else {
      OtherLogged(w, e);
    }
  }

  lemma LaterSessionIsClear(w: World, k: nat)
    requires Inv(w) && k == Grammar.Sessions(w.log)
    ensures SessionClear(Slots(w.log), k + 1)
  {
    Facts(w);
    LegalIsOk(RunProtocol(w.log), w.log);
    forall i | 0 <= i < |Slots(w.log)| ensures SessionOf(Slots(w.log)[i]) <= k {
      assert SlotOk(RunProtocol(w.log), Slots(w.log), k, i);
    }
  }

  /** The cumulative limits leave no room for another attempt: the run is void before anything is sent. */
  lemma VoidBeforeSession(p: Protocol, k: nat, w: World)
    requires Openable(p, k, w)
    ensures Inv(Entered(w, RunVoid))
  {
    Facts(w);
    Replay(w.log, RunVoid);
    if w.log == [] {
      var after := Entered(w, RunVoid);
      assert after.log == [RunVoid];
      FilesGrow([], RunVoid);
      LegalGrows(NoProtocol(), [], RunVoid);
      assert Slots(after.log) == [] && Records(Slots(after.log)) == Records(Slots(w.log));
    } else {
      OtherLogged(w, RunVoid);
    }
  }

  /** Nothing sent, no record touched. */
  ghost predicate Quiet(w: World, w': World) {
    && w.log <= w'.log && w'.wire == w.wire
    && (w'.independence, w'.review, w'.submission, w'.acceptance)
       == (w.independence, w.review, w.submission, w.acceptance)
    && forall s :: LoadRecord(FolderOrEmpty(w'.out), s) == LoadRecord(FolderOrEmpty(w.out), s)
  }

  /** A fresh run needs a new folder and a new log; a resume needs everything `CheckResume` asks for. */
  ghost predicate MayStart(p: Protocol, w: World, resume: bool) {
    if resume then
      && Resumable(w.log, p) && Grammar.Sessions(w.log) <= p.maxResumes
      && LedgerClean(Slots(w.log), FolderOrEmpty(w.out))
      && Agrees(Slots(w.log), FolderOrEmpty(w.out), p.scenarios)
    else w.log == [] && w.out.None?
  }

  ghost predicate ResumesSpent(p: Protocol, w: World, resume: bool) {
    resume && Resumable(w.log, p) && Grammar.Sessions(w.log) > p.maxResumes
  }

  /** Nothing is pending, or one more attempt at full caps fits. */
  ghost predicate Fits(p: Protocol, slots: seq<Slot>) {
    WithoutResult(p.scenarios, slots) == [] || Shortfall(UsageSum(Records(slots), p), 0, p) == {}
  }

  /** When a session starts, unless the process dies. */
  ghost predicate Starts(p: Protocol, w: World, resume: bool) {
    MayStart(p, w, resume) && Fits(p, Slots(w.log))
  }

  ghost predicate EndsVoid(log: seq<Event>) {
    log != [] && log[|log| - 1] == RunVoid
  }

  /** Results are stored exactly for attempts that were ones. */
  ghost predicate AllMatched(p: Protocol, w: World) {
    forall s | s in p.scenarios :: Matched(Slots(w.log), FolderOrEmpty(w.out), s)
  }

  lemma MatchedAfterNotes(p: Protocol, w: World, w': World)
    requires Agrees(Slots(w.log), FolderOrEmpty(w.out), p.scenarios) && SameAttempts(Slots(w.log), Slots(w'.log))
    requires forall s :: LoadRecord(FolderOrEmpty(w'.out), s) == LoadRecord(FolderOrEmpty(w.out), s)
    ensures AllMatched(p, w')
  {}

  /** Nothing has changed, but for the void of a run whose resumes are used up. */
  ghost predicate OnlyVoided(p: Protocol, w: World, w': World, resume: bool) {
    w' == w || (ResumesSpent(p, w, resume) && w' == Entered(w, RunVoid))
  }

  datatype Readiness = GoAhead | NoGo | Cut

  /** A fresh run takes every scenario; a resume takes what has no stored result, after its checks. */
  method Prepare(ws: Workspace, p: Protocol, resume: bool)
    returns (ready: Readiness, k: nat, pending: seq<ScenarioId>, records: seq<Option<Record>>,
             perScenario: map<ScenarioId, nat>)
    requires ws.Valid() && Inv(ws.Now()) && p.WellFormed()
    modifies ws`out, ws.audit
    ensures ws.Valid() && Inv(ws.Now()) && Quiet(old(ws.Now()), ws.Now())
    ensures ready.GoAhead? ==>
              && Openable(p, k, ws.Now()) && k == Grammar.Sessions(ws.Now().log) <= p.maxResumes
              && resume == (ws.Now().log != [])
              && pending == WithoutResult(p.scenarios, Slots(ws.Now().log))
              && Records(Slots(ws.Now().log)) == records
              && forall s :: CountIn(perScenario, s) == CountOf(Slots(ws.Now().log), s)
    ensures ready.GoAhead? ==>
              && MayStart(p, old(ws.Now()), resume)
              && (Fits(p, Slots(ws.Now().log)) <==> Fits(p, Slots(old(ws.Now()).log)))
    ensures ready.GoAhead? ==>
              && AllMatched(p, ws.Now()) && Records(Slots(ws.Now().log)) == Records(Slots(old(ws.Now()).log))
              && WithoutResult(p.scenarios, Slots(ws.Now().log)) == WithoutResult(p.scenarios, Slots(old(ws.Now()).log))
    ensures !ws.mortal ==> !ready.Cut?
    ensures ready.NoGo? ==>
              && !MayStart(p, old(ws.Now()), resume)
              && ws.Now() ==
                 if ResumesSpent(p, old(ws.Now()), resume) then Entered(old(ws.Now()), RunVoid) else old(ws.Now())
    ensures ready.Cut? ==> MayStart(p, old(ws.Now()), resume) || ResumesSpent(p, old(ws.Now()), resume)
    ensures !MayStart(p, old(ws.Now()), resume) ==> OnlyVoided(p, old(ws.Now()), ws.Now(), resume)
  {
    ready, k, pending, records, perScenario := NoGo, 0, [], [], map[];
    ghost var w := ws.Now();
    var reading := ws.audit.Read();
    if resume {
      var gate := CheckResume(ws.audit, ws.out, p);
      if gate.Refuse? {
        return;
      }
      ResumableIsRunning(w, p);
      if gate.ResumesUsedUp? {
        OtherLogged(w, RunVoid);
        var alive := ws.Log(RunVoid);
        ready := if alive then NoGo else Cut;
        return;
      }
      k := Grammar.Sessions(reading.entries);
      records, perScenario := gate.records, CountsOf(gate.slots);
      CountsAreCounts(gate.slots);
      pending := NotResultIds(ws.out.value, p.scenarios);
      NotResultsAgree(gate.slots, ws.out.value, p.scenarios);
      var alive := NoteAbandoned(ws, p, k, gate.slots, gate.records);
      ready := if alive then GoAhead else Cut;
      if alive {
        SameOutlook(p, gate.slots, Slots(ws.Now().log), p.scenarios);
        MatchedAfterNotes(p, w, ws.Now());
      }
    } else {
      if reading.entries != [] || ws.out.Some? {
        return;
      }
      MadeFolder(w);
      var alive := ws.MakeResultFolder();
      ready := if alive then GoAhead else Cut;
      pending := p.scenarios;
      NothingDone(p.scenarios);
    }
  }

  lemma MadeFolder(w: World)
    requires Inv(w) && w.log == [] && w.out.None?
    ensures Inv(w.(out := Some(map[])))
  {
    Facts(w);
    var after := w.(out := Some(map[]));
    assert Files(after.log) == map[];
    forall c: Clause ensures Holds(after, c) {
      assert Holds(w, c);
    }
  }

  ghost predicate Ready(p: Protocol, w: World, opening: Opening)
    requires opening.Opened?
  {
    && InSession(p, opening.session, w) && SessionClear(Slots(w.log), opening.session)
    && opening.pending == WithoutResult(p.scenarios, Slots(w.log))
    && opening.usage == UsageSum(Records(Slots(w.log)), p)
    && forall s :: CountIn(opening.perScenario, s) == CountOf(Slots(w.log), s)
  }

  /** The budget check before the session, and its entry. */
  method EnterSession(ws: Workspace, p: Protocol, resume: bool, k: nat, pending: seq<ScenarioId>,
                      records: seq<Option<Record>>, perScenario: map<ScenarioId, nat>) returns (opening: Opening)
    requires ws.Valid() && Openable(p, k, ws.Now()) && k <= p.maxResumes && resume == (ws.Now().log != [])
    requires pending == WithoutResult(p.scenarios, Slots(ws.Now().log)) && records == Records(Slots(ws.Now().log))
    requires forall s :: CountIn(perScenario, s) == CountOf(Slots(ws.Now().log), s)
    modifies ws.audit
    ensures ws.Valid() && Inv(ws.Now())
    ensures old(ws.Now()).log <= ws.Now().log && ws.Now() == old(ws.Now()).(log := ws.Now().log)
    ensures opening.Opened? ==> Ready(p, ws.Now(), opening) && Fits(p, Slots(old(ws.Now()).log))
    ensures opening.TurnedAway? ==> EndsVoid(ws.Now().log) && !Fits(p, Slots(old(ws.Now()).log))
    ensures opening.Opened? ==> Slots(ws.Now().log) == Slots(old(ws.Now()).log)
    ensures !ws.mortal ==> !opening.DiedOpening?
  {
    opening := DiedOpening;
    ghost var w := ws.Now();
    var usage := UsageOf(records, p);
    var short := Shortfall(usage, 0, p);
    if pending != [] && short != {} {
      VoidBeforeSession(p, k, w);
      var logged := ws.Log(RunVoid);
      if logged {
        opening := TurnedAway;
      }
    } else {
      SessionOpens(p, k, w, resume, pending, usage);
      var logged := ws.Log(SessionStarted(k + 1, p, resume, pending, usage));
      if logged {
        opening := Opened(k + 1, pending, usage, perScenario);
      }
    }
  }

  /** Everything before the first scenario; whatever it decides, nothing has been sent. */
  method OpenSession(ws: Workspace, p: Protocol, resume: bool) returns (opening: Opening)
    requires ws.Valid() && Inv(ws.Now()) && p.WellFormed()
    modifies ws`out, ws.audit
    ensures ws.Valid() && Inv(ws.Now()) && Quiet(old(ws.Now()), ws.Now())
    ensures opening.Opened? ==> Ready(p, ws.Now(), opening) && Starts(p, old(ws.Now()), resume)
    ensures opening.TurnedAway? ==> !Starts(p, old(ws.Now()), resume)
    ensures opening.TurnedAway? && (MayStart(p, old(ws.Now()), resume) || ResumesSpent(p, old(ws.Now()), resume)) ==>
              EndsVoid(ws.Now().log)
    ensures !MayStart(p, old(ws.Now()), resume) && !ResumesSpent(p, old(ws.Now()), resume) ==>
              opening.TurnedAway? && ws.Now() == old(ws.Now())
    ensures !MayStart(p, old(ws.Now()), resume) ==> OnlyVoided(p, old(ws.Now()), ws.Now(), resume)
    ensures opening.Opened? ==>
              && AllMatched(p, ws.Now()) && Records(Slots(ws.Now().log)) == Records(Slots(old(ws.Now()).log))
              && WithoutResult(p.scenarios, Slots(ws.Now().log)) == WithoutResult(p.scenarios, Slots(old(ws.Now()).log))
    ensures !ws.mortal ==> !opening.DiedOpening?
  {
    var ready, k, pending, records, perScenario := Prepare(ws, p, resume);
    if !ready.GoAhead? {
      return if ready.NoGo? then TurnedAway else DiedOpening;
    }
    opening := EnterSession(ws, p, resume, k, pending, records, perScenario);
  }

  // -- closing a session -------------------------------------------------------------------------------------------

  /** 0, 1 and 2 of `run_session`, the error of an incomplete provenance, and the death of the process. */
  datatype Status = RunComplete | NotComplete | NothingRun | ProvenanceRefused | DiedInside

  predicate AnyRefusedByBudget(files: Folder, all: seq<ScenarioId>) {
    exists s | s in all :: RefusedByBudget(files, s)
  }

  /** The evidence and the stored results match the log. */
  ghost predicate EvidenceMatches(p: Protocol, w: World)
    requires w.out.Some?
  {
    LedgerClean(Slots(w.log), w.out.value) && Agrees(Slots(w.log), w.out.value, p.scenarios)
  }

  /** How a session that does not complete the run ends: void when the evidence does not match, when a
      scenario was refused by the budget, or when no resume is left; resumable otherwise. */
  ghost predicate ClosesVoid(p: Protocol, k: nat, w: World)
    requires w.out.Some?
  {
    !EvidenceMatches(p, w) || AnyRefusedByBudget(w.out.value, p.scenarios) || k > p.maxResumes
  }

  lemma SessionCloses(p: Protocol, k: nat, w: World, e: Event)
    requires InSession(p, k, w) && (e == RunVoid || e == SessionEnded(k))
    ensures Inv(Entered(w, e))
  {
    OtherLogged(w, e);
  }

  lemma {:induction false} NothingRemains(files: Folder, all: seq<ScenarioId>)
    requires NotResultIds(files, all) == []
    ensures forall s | s in all :: HasStoredResult(files, s)
  {
    if all != [] {
      NothingRemains(files, all[1..]);
    }
  }

  /** A file beside the evidence, the records and the summary changes nothing that is checked. */
  lemma PutApart(p: Protocol, k: nat, w: World, path: Path, c: Content)
    requires InSession(p, k, w) && !InAttempts(path) && !path.ScenarioRecord? && path != SummaryFile
    ensures InSession(p, k, Put(w, path, c)) && Quiet(w, Put(w, path, c))
    ensures forall s :: LoadRecord(Put(w, path, c).out.value, s) == LoadRecord(w.out.value, s)
    ensures Agrees(Slots(w.log), w.out.value, p.scenarios) ==>
              Agrees(Slots(w.log), Put(w, path, c).out.value, p.scenarios)
    ensures SummaryCurrent(w.out.value, p.scenarios) ==> SummaryCurrent(Put(w, path, c).out.value, p.scenarios)
  {
    PutKeeps(p, k, w, path, c);
    forall s ensures LoadRecord(Put(w, path, c).out.value, s) == LoadRecord(w.out.value, s) {
      assert SameRecord(w, Put(w, path, c), s);
    }
    SameRecordsSameSummary(w.out.value, Put(w, path, c).out.value, p.scenarios);
  }

  function WithManifest(w: World): World
    requires w.out.Some?
  {
    Put(w, MANIFEST, Manifest(Listing(w.out.value)))
  }

  lemma ManifestCloses(p: Protocol, k: nat, w: World, usage: Usage)
    requires InSession(p, k, w) && Agrees(Slots(w.log), w.out.value, p.scenarios)
    requires forall s | s in p.scenarios :: HasStoredResult(w.out.value, s)
    requires usage == UsageSum(Records(Slots(w.log)), p)
    ensures var e := RunManifest(k, Sha(Manifest(Listing(w.out.value))), usage);
            Inv(WithManifest(w)) && Inv(Entered(WithManifest(w), e))
            && StageOf(w.log + [e]) == Complete && FolderVerified(WithManifest(w).out, Some(e.sha))
  {
    var e := RunManifest(k, Sha(Manifest(Listing(w.out.value))), usage);
    var w1 := WithManifest(w);
    PutApart(p, k, w, MANIFEST, Manifest(Listing(w.out.value)));
    WriteThenVerify(w.out.value);
    CleanUnlessOrphaned(w1);
    Replay(w.log, e);
    LastOfGrows(w.log, e, 1);
    forall s | s in p.scenarios ensures HasResult(Slots(w.log), s) {}
    PhaseLogged(w1, e);
  }

  /** The run folder is complete and locked: every scenario has its one result, stored and recorded, and the
      summary is that of the stored records. */
  ghost predicate Locked(p: Protocol, w: World) {
    && w.log != [] && w.log[|w.log| - 1].RunManifest? && StageOf(w.log) == Complete
    && FolderVerified(w.out, Some(w.log[|w.log| - 1].sha))
    && SummaryCurrent(w.out.value, p.scenarios)
    && forall s | s in p.scenarios :: HasStoredResult(w.out.value, s) && HasResult(Slots(w.log), s)
  }

  /** What the manifest and its entry leave behind. */
  lemma ManifestLocks(p: Protocol, k: nat, w: World, usage: Usage)
    requires InSession(p, k, w) && Agrees(Slots(w.log), w.out.value, p.scenarios)
    requires forall s | s in p.scenarios :: HasStoredResult(w.out.value, s)
    requires usage == UsageSum(Records(Slots(w.log)), p) && SummaryCurrent(w.out.value, p.scenarios)
    ensures var e := RunManifest(k, Sha(Manifest(Listing(w.out.value))), usage);
            && Inv(WithManifest(w)) && Quiet(w, WithManifest(w))
            && Inv(Entered(WithManifest(w), e)) && Quiet(w, Entered(WithManifest(w), e))
            && Locked(p, Entered(WithManifest(w), e))
  {
    var e := RunManifest(k, Sha(Manifest(Listing(w.out.value))), usage);
    ManifestCloses(p, k, w, usage);
    PutApart(p, k, w, MANIFEST, Manifest(Listing(w.out.value)));
    Replay(w.log, e);
  }

  method WriteRunManifest(ws: Workspace, p: Protocol, k: nat, usage: Usage) returns (status: Status)
    requires ws.Valid() && InSession(p, k, ws.Now()) && Agrees(Slots(ws.Now().log), ws.out.value, p.scenarios)
    requires forall s | s in p.scenarios :: HasStoredResult(ws.out.value, s)
    requires usage == UsageSum(Records(Slots(ws.Now().log)), p) && SummaryCurrent(ws.out.value, p.scenarios)
    modifies ws`out, ws.audit
    ensures ws.Valid() && Inv(ws.Now()) && Quiet(old(ws.Now()), ws.Now())
    ensures status == DiedInside || (status == RunComplete && Locked(p, ws.Now()))
    ensures !ws.mortal ==> status == RunComplete
  {
    ManifestLocks(p, k, ws.Now(), usage);
    var manifest := Manifest(Listing(ws.out.value));
    var alive := ws.Store(MANIFEST, manifest);
    if alive {
      alive := ws.Log(RunManifest(k, Sha(manifest), usage));
    }
    status := if alive then RunComplete else DiedInside;
  }

  lemma {:induction false} SameRecordsSameIds(f: Folder, g: Folder, all: seq<ScenarioId>)
    requires forall s | s in all :: LoadRecord(g, s) == LoadRecord(f, s)
    ensures NotResultIds(g, all) == NotResultIds(f, all)
    ensures AnyRefusedByBudget(g, all) == AnyRefusedByBudget(f, all)
  {
    if all != [] {
      SameRecordsSameIds(f, g, all[1..]);
    }
    forall s | s in all ensures RefusedByBudget(g, s) == RefusedByBudget(f, s) {}
  }

  /** The usage report beside the results changes nothing else. */
  lemma UsagePut(p: Protocol, k: nat, w: World)
    requires InSession(p, k, w)
    ensures var w' := Put(w, UsageFile, Text(""));
            && InSession(p, k, w') && Quiet(w, w')
            && NotResultIds(w'.out.value, p.scenarios) == NotResultIds(w.out.value, p.scenarios)
            && AnyRefusedByBudget(w'.out.value, p.scenarios) == AnyRefusedByBudget(w.out.value, p.scenarios)
            && (SummaryCurrent(w.out.value, p.scenarios) ==> SummaryCurrent(w'.out.value, p.scenarios))
            && (Agrees(Slots(w.log), w.out.value, p.scenarios) ==> Agrees(Slots(w.log), w'.out.value, p.scenarios))
  {
    PutApart(p, k, w, UsageFile, Text(""));
    SameRecordsSameIds(w.out.value, Put(w, UsageFile, Text("")).out.value, p.scenarios);
  }

  /** The ledger once more, and the usage report. */
  method Tally(ws: Workspace, p: Protocol, k: nat) returns (alive: bool, matches: bool, usage: Usage)
    requires ws.Valid() && InSession(p, k, ws.Now())
    modifies ws`out
    ensures ws.Valid()
    ensures ws.Now() == if alive then Put(old(ws.Now()), UsageFile, Text("")) else old(ws.Now())
    ensures matches <==> EvidenceMatches(p, old(ws.Now()))
    ensures matches ==> usage == UsageSum(Records(Slots(old(ws.Now()).log)), p)
    ensures !ws.mortal ==> alive
  {
    CleanUnlessOrphaned(ws.Now());
    var reading := ws.audit.Read();
    var slots, records, ledger := ReadLedger(reading.entries, ws.out.value);
    var stored := LedgerProblems(slots, records, ws.out.value, p.scenarios);
    matches := ledger + stored == [];
    usage := UsageOf(records, p);
    alive := ws.Store(UsageFile, Text(""));
  }

  /** Everything after the last scenario. */
  method CloseSession(runner: ScenarioRunner) returns (status: Status)
    requires runner.Idle() && SummaryCurrent(runner.ws.out.value, runner.p.scenarios)
    modifies runner.ws`out, runner.ws.audit
    ensures runner.ws.Valid() && Inv(runner.ws.Now()) && Quiet(old(runner.ws.Now()), runner.ws.Now())
    ensures status == RunComplete ==> Locked(runner.p, runner.ws.Now())
    ensures status == NotComplete ==>
              var w, p, k := old(runner.ws.Now()), runner.p, runner.session;
              && runner.Log() == w.log + [if ClosesVoid(p, k, w) then RunVoid else SessionEnded(k)]
              && (!EvidenceMatches(p, w) || NotResultIds(w.out.value, p.scenarios) != [])
    ensures status == RunComplete ==>
              && EvidenceMatches(runner.p, old(runner.ws.Now()))
              && NotResultIds(old(runner.ws.out).value, runner.p.scenarios) == []
    ensures status == NotComplete && !ClosesVoid(runner.p, runner.session, old(runner.ws.Now())) ==>
              && MayStart(runner.p, runner.ws.Now(), true)
              && (FrozenRun(runner.p, Slots(old(runner.ws.Now()).log)) ==> Starts(runner.p, runner.ws.Now(), true))
    ensures status in {RunComplete, NotComplete, DiedInside}
    ensures !runner.ws.mortal ==> status != DiedInside
  {
    var ws, p, k := runner.ws, runner.p, runner.session;
    UsagePut(p, k, ws.Now());
    var alive, matches, usage := Tally(ws, p, k);
    if !alive {
      return DiedInside;
    }
    var remaining := NotResultIds(ws.out.value, p.scenarios);
    if !matches {
      status := EndWith(ws, p, k, RunVoid);
    } else if remaining != [] {
      var void := AnyRefusedByBudget(ws.out.value, p.scenarios) || k > p.maxResumes;
      if !void {
        EndedLeaves(p, k, ws.Now());
      }
      status := EndWith(ws, p, k, if void then RunVoid else SessionEnded(k));
    } else {
      NothingRemains(ws.out.value, p.scenarios);
      status := WriteRunManifest(ws, p, k, usage);
    }
  }

  method EndWith(ws: Workspace, p: Protocol, k: nat, e: Event) returns (status: Status)
    requires ws.Valid() && InSession(p, k, ws.Now()) && (e == RunVoid || e == SessionEnded(k))
    modifies ws.audit
    ensures ws.Valid() && Inv(ws.Now())
    ensures ws.Now() == if status == NotComplete then Entered(old(ws.Now()), e) else old(ws.Now())
    ensures status == NotComplete || status == DiedInside
    ensures !ws.mortal ==> status == NotComplete
  {
    SessionCloses(p, k, ws.Now(), e);
    var alive := ws.Log(e);
    status := if alive then NotComplete else DiedInside;
  }

  // -- run_session -------------------------------------------------------------------------------------------------

  /** A stored result is never overwritten. */
  ghost predicate ResultsStand(w: World, w': World) {
    forall s | HasStoredResult(FolderOrEmpty(w.out), s) ::
      LoadRecord(FolderOrEmpty(w'.out), s) == LoadRecord(FolderOrEmpty(w.out), s)
  }

  /** The end of a session that is not the run's leaves a run that may be resumed. */
  lemma EndedMayResume(p: Protocol, k: nat, w: World)
    requires InSession(p, k, w) && Agrees(Slots(w.log), w.out.value, p.scenarios) && k <= p.maxResumes
    ensures MayStart(p, Entered(w, SessionEnded(k)), true)
    ensures Slots(w.log + [SessionEnded(k)]) == Slots(w.log)
  {
    var e := SessionEnded(k);
    OtherLogged(w, e);
    Replay(w.log, e);
    RunningIsResumable(p, Entered(w, e));
    CleanUnlessOrphaned(Entered(w, e));
  }

  lemma RunningIsResumable(p: Protocol, w: World)
    requires Inv(w) && w.log != [] && RunProtocol(w.log) == p && StageOf(w.log) == Running
    ensures Resumable(w.log, p)
  {
    Facts(w);
    TerminalIsStage(p, w.log);
    assert AllowedAt(p, w.log, 0) && w.log[..0] == [];
  }

  /** Under the frozen figures one more attempt fits then as well. */
  lemma NextSessionFits(p: Protocol, k: nat, w: World)
    requires InSession(p, k, w) && k <= p.maxResumes && FrozenRun(p, Slots(w.log))
    ensures Fits(p, Slots(w.log))
  {
    var slots := Slots(w.log);
    Facts(w);
    LegalIsOk(p, w.log);
    if WithoutResult(p.scenarios, slots) != [] {
      PendingIsDue(p.scenarios, slots);
      assert WithoutResult(p.scenarios, slots)[0] in WithoutResult(p.scenarios, slots);
      ElevenAtMost(p, slots, k, WithoutResult(p.scenarios, slots)[0]);
      TwelfthFits(p, slots, k, 0);
    }
  }

  lemma EndedLeaves(p: Protocol, k: nat, w: World)
    requires InSession(p, k, w) && Agrees(Slots(w.log), w.out.value, p.scenarios) && k <= p.maxResumes
    ensures MayStart(p, Entered(w, SessionEnded(k)), true)
    ensures FrozenRun(p, Slots(w.log)) ==> Starts(p, Entered(w, SessionEnded(k)), true)
  {
    EndedMayResume(p, k, w);
    if FrozenRun(p, Slots(w.log)) {
      NextSessionFits(p, k, w);
    }
  }

  lemma ElevenAtMost(p: Protocol, slots: seq<Slot>, k: nat, s: ScenarioId)
    requires SlotsOk(p, slots, k) && k <= 2 && |p.scenarios| == 10
    requires s in p.scenarios && !HasResult(slots, s)
    ensures |slots| <= 11
  {
    ResultsAndLosses(slots);
    ResultsLeaveOneOver(p, slots, k, s);
    WhatTheyHold(slots);
    forall j | j in LostSessions(slots) ensures 1 <= j <= k {
      var i :| 0 <= i < |slots| && SessionOf(slots[i]) == j && !Settled(slots[i]);
      assert SlotOk(p, slots, k, i);
    }
    BoundedSize(LostSessions(slots), k);
  }

  /** When nothing is void, only the guard's stop leaves a scenario for a later session. */
  lemma EndMeansStopped(p: Protocol, w: World, w': World, pending: seq<ScenarioId>, stopped: Option<Stop>,
                        short: set<Short>)
    requires w'.out.Some? && EvidenceMatches(p, w') && !AnyRefusedByBudget(w'.out.value, p.scenarios)
    requires pending == WithoutResult(p.scenarios, Slots(w.log)) && NotResultIds(w'.out.value, p.scenarios) != []
    requires Accounted(Slots(w'.log), w'.out.value, pending, stopped, short)
    requires forall t | t !in pending && HasResult(Slots(w.log), t) :: HasResult(Slots(w'.log), t)
    ensures stopped.Some?
  {
    PendingIsDue(p.scenarios, Slots(w.log));
    PendingIsDue(p.scenarios, Slots(w'.log));
    NotResultsAgree(Slots(w'.log), w'.out.value, p.scenarios);
    var s := WithoutResult(p.scenarios, Slots(w'.log))[0];
    assert s in WithoutResult(p.scenarios, Slots(w'.log)) && s in pending;
    assert short == {};
  }

  lemma {:induction false} ResultsAreCounted(slots: seq<Slot>, s: ScenarioId)
    requires forall i, j | 0 <= i < j < |slots| && slots[i].scenario == slots[j].scenario :: !Settled(slots[i])
    ensures ResultCount(slots, Records(slots), s) <= 1
  {
    if slots != [] {
      var later := slots[1..];
      assert Records(slots)[1..] == Records(later);
      forall i, j | 0 <= i < j < |later| && later[i].scenario == later[j].scenario ensures !Settled(later[i]) {
        assert later[i] == slots[i + 1] && later[j] == slots[j + 1];
      }
      ResultsAreCounted(later, s);
      if IsResultOf(Records(slots)[0], slots[0], s) {
        assert Settled(slots[0]);
        CountIsZero(later, s);
        assert !HasResult(later, s) by {
          forall i | 0 <= i < |later| ensures later[i].scenario != s {
            assert later[i] == slots[i + 1];
          }
        }
      }
    }
  }

  /** After a session evidence and stored results match exactly if every attempt of it that was a result ended
      ordinarily: the report of such an attempt, or what it threw, did not itself claim one of the failures that
      mean "no result yet". */
  lemma EvidenceMatchesExactly(p: Protocol, k: nat, w: World, w': World, pending: seq<ScenarioId>,
                               behaviours: map<ScenarioId, Behaviour>, stopped: Option<Stop>, short: set<Short>)
    requires w.out.Some? && AllMatched(p, w) && InSession(p, k, w')
    requires SoFar(p, w, w', pending, behaviours, stopped, short)
    requires forall s | s in p.scenarios :: s in behaviours
    requires forall s | s in pending :: s in p.scenarios
    ensures EvidenceMatches(p, w') <==>
            forall s | s in pending && HasResult(Slots(w'.log), s) :: Ordinary(behaviours[s])
  {
    SoFarFacts(p, w, w', pending, behaviours, stopped, short);
    AgreesWhenMatched(p, w');
    CleanUnlessOrphaned(w');
    forall s | s in p.scenarios && s !in pending ensures Matched(Slots(w'.log), w'.out.value, s) {
      assert Matched(Slots(w.log), w.out.value, s) && SameRecord(w, w', s);
    }
    forall s | s in pending ensures MatchedAfter(Slots(w'.log), w'.out.value, s, behaviours[s]) {}
  }

  /** A legal log has no second results, so that only the matching of the stored ones is in question. */
  lemma AgreesWhenMatched(p: Protocol, w: World)
    requires Inv(w) && RunProtocol(w.log) == p && w.out.Some?
    ensures Agrees(Slots(w.log), w.out.value, p.scenarios) <==> AllMatched(p, w)
  {
    Facts(w);
    LegalIsOk(p, w.log);
    var slots := Slots(w.log);
    forall i, j | 0 <= i < j < |slots| && slots[i].scenario == slots[j].scenario ensures !Settled(slots[i]) {
      assert PairOk(slots, i, j);
    }
    forall s ensures ResultCount(slots, Records(slots), s) <= 1 {
      ResultsAreCounted(slots, s);
    }
  }

  lemma {:induction false} NoneWithout(all: seq<ScenarioId>, slots: seq<Slot>)
    requires forall s | s in all :: HasResult(slots, s)
    ensures WithoutResult(all, slots) == []
  {
    if all != [] {
      NoneWithout(all[1..], slots);
    }
  }

  /** Every generation still due ends ordinarily. */
  ghost predicate DueOrdinarily(p: Protocol, w: World, behaviours: map<ScenarioId, Behaviour>) {
    forall s | s in WithoutResult(p.scenarios, Slots(w.log)) && s in behaviours :: Ordinary(behaviours[s])
  }

  /** Under the frozen figures, with reports within the cap, a session that the guard does not stop leaves no
      scenario without a result, and then the ordinary endings alone decide whether the evidence matches. */
  lemma UnstoppedCompletes(p: Protocol, k: nat, w: World, w': World, pending: seq<ScenarioId>,
                           behaviours: map<ScenarioId, Behaviour>, stopped: Option<Stop>, short: set<Short>)
    requires w.out.Some? && AllMatched(p, w) && InSession(p, k, w')
    requires pending == WithoutResult(p.scenarios, Slots(w.log))
    requires SoFar(p, w, w', pending, behaviours, stopped, short) && Affordable(p, Slots(w.log), behaviours)
    requires stopped.None? && forall s | s in p.scenarios :: s in behaviours
    ensures EvidenceMatches(p, w') <==> DueOrdinarily(p, w, behaviours)
    ensures EvidenceMatches(p, w') ==> NotResultIds(w'.out.value, p.scenarios) == []
  {
    SoFarFacts(p, w, w', pending, behaviours, stopped, short);
    PendingIsDue(p.scenarios, Slots(w.log));
    forall s | s in p.scenarios ensures HasResult(Slots(w'.log), s) {
      assert s !in pending ==> HasResult(Slots(w.log), s);
    }
    EvidenceMatchesExactly(p, k, w, w', pending, behaviours, stopped, short);
    if EvidenceMatches(p, w') {
      NotResultsAgree(Slots(w'.log), w'.out.value, p.scenarios);
      NoneWithout(p.scenarios, Slots(w'.log));
    }
  }

  /** The guard has stopped the run and it may be resumed; under the frozen figures, with reports within the cap,
      the next session will start. */
  ghost predicate EndsResumable(p: Protocol, w: World, w': World, stopped: Option<Stop>,
                                behaviours: map<ScenarioId, Behaviour>)
  {
    && w'.log != [] && w'.log[|w'.log| - 1].SessionEnded? && stopped.Some? && MayStart(p, w', true)
    && (Affordable(p, Slots(w.log), behaviours) ==> Starts(p, w', true))
  }

  /** How a session can end, unless it is cut short: it runs exactly when it may start, one more attempt fits
      and its provenance is complete, and otherwise sends nothing; `RunComplete` is said only of a complete and
      locked run; a run that is not complete is void, or the guard has stopped it and it may be resumed; and under
      the frozen figures, with reports within the cap, a session that is not stopped completes the run exactly when
      every generation still due ends ordinarily. */
  ghost predicate Concluded(p: Protocol, w: World, w': World, stopped: Option<Stop>, resume: bool,
                            behaviours: map<ScenarioId, Behaviour>, origin: Option<Origin>, status: Status)
  {
    && (status == NothingRun <==> !Starts(p, w, resume))
    && (status == ProvenanceRefused <==> Starts(p, w, resume) && origin.None?)
    && (status in {NothingRun, ProvenanceRefused} ==> w'.wire == w.wire)
    && (status == NothingRun ==>
          if MayStart(p, w, resume) || ResumesSpent(p, w, resume) then EndsVoid(w'.log) else w' == w)
    && (status == RunComplete ==> Locked(p, w'))
    && (status == NotComplete ==> EndsVoid(w'.log) || EndsResumable(p, w, w', stopped, behaviours))
    && (Starts(p, w, resume) && origin.Some? && Affordable(p, Slots(w.log), behaviours) && stopped.None? ==>
          (status == RunComplete <==> DueOrdinarily(p, w, behaviours)))
  }

  /** How a session that has opened goes on. */
  ghost predicate Carried(p: Protocol, w: World, w': World, stopped: Option<Stop>,
                          behaviours: map<ScenarioId, Behaviour>, origin: Option<Origin>, status: Status)
  {
    && status != NothingRun && (status == ProvenanceRefused <==> origin.None?)
    && (status == ProvenanceRefused ==> w'.wire == w.wire)
    && (status == RunComplete ==> Locked(p, w'))
    && (status == NotComplete ==> EndsVoid(w'.log) || EndsResumable(p, w, w', stopped, behaviours))
    && (origin.Some? && Affordable(p, Slots(w.log), behaviours) && stopped.None? ==>
          (status == RunComplete <==> DueOrdinarily(p, w, behaviours)))
  }

  lemma SessionCarries(p: Protocol, k: nat, w1: World, w2: World, w3: World, pending: seq<ScenarioId>,
                       behaviours: map<ScenarioId, Behaviour>, stopped: Option<Stop>, short: set<Short>,
                       origin: Option<Origin>, status: Status)
    requires origin.Some? && status in {RunComplete, NotComplete}
    requires AllMatched(p, w1) && pending == WithoutResult(p.scenarios, Slots(w1.log)) && InSession(p, k, w2)
    requires SoFar(p, w1, w2, pending, behaviours, stopped, short) && forall s | s in p.scenarios :: s in behaviours
    requires status == RunComplete ==> Locked(p, w3) && EvidenceMatches(p, w2)
    requires status == NotComplete ==>
               && w3.log == w2.log + [if ClosesVoid(p, k, w2) then RunVoid else SessionEnded(k)]
               && (!EvidenceMatches(p, w2) || NotResultIds(w2.out.value, p.scenarios) != [])
    requires status == NotComplete && !ClosesVoid(p, k, w2) ==>
               MayStart(p, w3, true) && (FrozenRun(p, Slots(w2.log)) ==> Starts(p, w3, true))
    ensures Carried(p, w1, w3, stopped, behaviours, origin, status)
  {
    SoFarFacts(p, w1, w2, pending, behaviours, stopped, short);
    if status == NotComplete && !ClosesVoid(p, k, w2) {
      EndMeansStopped(p, w1, w2, pending, stopped, short);
    }
    if Affordable(p, Slots(w1.log), behaviours) && stopped.None? {
      UnstoppedCompletes(p, k, w1, w2, pending, behaviours, stopped, short);
    }
  }

  /** What a session that has opened leaves alone. */
  ghost predicate Kept(w: World, w': World, pending: seq<ScenarioId>) {
    OnlyTheRunMoved(w, w') && forall t | t !in pending :: SameRecord(w, w', t)
  }

  lemma KeptThrough(w0: World, w1: World, w2: World, pending: seq<ScenarioId>)
    requires Kept(w0, w1, pending) && Quiet(w1, w2) && w1.log != [] && Inv(w2)
    ensures Kept(w0, w2, pending)
  {
    Facts(w2);
    forall t | t !in pending ensures SameRecord(w0, w2, t) {
      assert SameRecord(w0, w1, t);
      assert LoadRecord(FolderOrEmpty(w2.out), t) == LoadRecord(FolderOrEmpty(w1.out), t);
    }
  }

  /** The scenarios of a session that has opened, and what follows them. */
  method CarryOut(runner: ScenarioRunner, pending: seq<ScenarioId>, behaviours: map<ScenarioId, Behaviour>,
                  origin: Option<Origin>)
    returns (status: Status, ghost turns: seq<Turn>)
    requires runner.Idle() && runner.exhausted == {} && AllMatched(runner.p, runner.ws.Now())
    requires runner.p.WellFormed() && forall s | s in runner.p.scenarios :: s in behaviours
    requires pending == WithoutResult(runner.p.scenarios, runner.Attempts())
    modifies runner, runner.ws`out, runner.ws`wire, runner.ws.audit, runner.guard
    ensures runner.ws.Valid() && Inv(runner.ws.Now()) && Kept(old(runner.ws.Now()), runner.ws.Now(), pending)
    ensures status != DiedInside ==>
              Carried(runner.p, old(runner.ws.Now()), runner.ws.Now(), runner.guard.stoppedBy, behaviours, origin,
                      status)
    ensures Conducted(runner.p, pending, behaviours, old(runner.guard.State()), runner.guard.State(),
                      old(runner.ws.wire), runner.ws.wire, turns)
    ensures status != NothingRun && (!runner.ws.mortal ==> status != DiedInside)
  {
    ghost var w1 := runner.ws.Now();
    PendingIsDue(runner.p.scenarios, Slots(w1.log));
    var end;
    end, turns := RunBenchmark(runner, pending, behaviours, origin);
    ghost var w2 := runner.ws.Now();
    assert Kept(w1, w2, pending);
    if end != Finished {
      return if end == NoProvenance then ProvenanceRefused else DiedInside, turns;
    }
    status := Conclude(runner, pending, behaviours, origin, w1);
  }

  /** What follows the last scenario of a session. */
  method Conclude(runner: ScenarioRunner, pending: seq<ScenarioId>, behaviours: map<ScenarioId, Behaviour>,
                  origin: Option<Origin>, ghost w1: World)
    returns (status: Status)
    requires runner.Idle() && SummaryCurrent(runner.ws.out.value, runner.p.scenarios) && origin.Some?
    requires w1.out.Some? && AllMatched(runner.p, w1) && Kept(w1, runner.ws.Now(), pending)
    requires pending == WithoutResult(runner.p.scenarios, Slots(w1.log))
    requires forall s | s in runner.p.scenarios :: s in behaviours
    requires SoFar(runner.p, w1, runner.ws.Now(), pending, behaviours, runner.guard.stoppedBy, runner.exhausted)
    modifies runner.ws`out, runner.ws.audit
    ensures runner.ws.Valid() && Inv(runner.ws.Now()) && Kept(w1, runner.ws.Now(), pending)
    ensures runner.ws.wire == old(runner.ws.wire)
    ensures status != DiedInside ==>
              Carried(runner.p, w1, runner.ws.Now(), runner.guard.stoppedBy, behaviours, origin, status)
    ensures status != NothingRun && (!runner.ws.mortal ==> status != DiedInside)
  {
    ghost var w2 := runner.ws.Now();
    status := CloseSession(runner);
    KeptThrough(w1, w2, runner.ws.Now(), pending);
    if status != DiedInside {
      SessionCarries(runner.p, runner.session, w1, w2, runner.ws.Now(), pending, behaviours, runner.guard.stoppedBy,
                     runner.exhausted, origin, status);
    }
  }

  /** Opening a session, notes included, changes nothing that its end is measured against. */
  lemma CarriedConcludes(p: Protocol, w: World, w1: World, w': World, stopped: Option<Stop>, resume: bool,
                         behaviours: map<ScenarioId, Behaviour>, origin: Option<Origin>, status: Status)
    requires Starts(p, w, resume) && Carried(p, w1, w', stopped, behaviours, origin, status) && w1.wire == w.wire
    requires Records(Slots(w1.log)) == Records(Slots(w.log))
    requires WithoutResult(p.scenarios, Slots(w1.log)) == WithoutResult(p.scenarios, Slots(w.log))
    ensures Concluded(p, w, w', stopped, resume, behaviours, origin, status)
  {
    if Affordable(p, Slots(w.log), behaviours) {
      SameReports(p, Slots(w.log), Slots(w1.log));
    }
  }

  /** A session that has opened, to its end. */
  method GoOn(ws: Workspace, guard: Guard, p: Protocol, opening: Opening, behaviours: map<ScenarioId, Behaviour>,
              origin: Option<Origin>)
    returns (status: Status, ghost turns: seq<Turn>)
    requires ws.Valid() && opening.Opened? && Ready(p, ws.Now(), opening) && AllMatched(p, ws.Now())
    requires p.WellFormed() && forall s | s in p.scenarios :: s in behaviours
    modifies ws`out, ws`wire, ws.audit, guard
    ensures ws.Valid() && Inv(ws.Now()) && Kept(old(ws.Now()), ws.Now(), opening.pending)
    ensures status != DiedInside ==>
              Carried(p, old(ws.Now()), ws.Now(), guard.stoppedBy, behaviours, origin, status)
    ensures Conducted(p, opening.pending, behaviours, old(guard.State()), guard.State(), old(ws.wire), ws.wire, turns)
    ensures status != NothingRun && (!ws.mortal ==> status != DiedInside)
  {
    var runner := new ScenarioRunner(ws, guard, p, opening.session, opening.usage, opening.perScenario);
    status, turns := CarryOut(runner, opening.pending, behaviours, origin);
  }

  /** One session: a fresh start or a resume, with the process free to die at any effect or request. */
  method RunSession(ws: Workspace, guard: Guard, p: Protocol, resume: bool, behaviours: map<ScenarioId, Behaviour>,
                    origin: Option<Origin>)
    returns (status: Status, ghost turns: seq<Turn>)
    requires ws.Valid() && Inv(ws.Now()) && p.WellFormed()
    requires forall s | s in p.scenarios :: s in behaviours
    modifies ws`out, ws`wire, ws.audit, guard
    ensures ws.Valid() && Inv(ws.Now())
    ensures old(ws.Now()).log <= ws.Now().log
    ensures (ws.independence, ws.review, ws.submission, ws.acceptance)
            == old((ws.independence, ws.review, ws.submission, ws.acceptance))
    ensures ResultsStand(old(ws.Now()), ws.Now())
    ensures status != DiedInside ==>
              Concluded(p, old(ws.Now()), ws.Now(), guard.stoppedBy, resume, behaviours, origin, status)
    ensures status == DiedInside ==> MayStart(p, old(ws.Now()), resume) || ResumesSpent(p, old(ws.Now()), resume)
    ensures !MayStart(p, old(ws.Now()), resume) ==> OnlyVoided(p, old(ws.Now()), ws.Now(), resume)
    ensures Conducted(p, WithoutResult(p.scenarios, Slots(old(ws.Now()).log)), behaviours, old(guard.State()),
                      guard.State(), old(ws.wire), ws.wire, turns)
    ensures !ws.mortal ==> status != DiedInside
  {
    ghost var w := ws.Now();
    NoneConducted(p, WithoutResult(p.scenarios, Slots(w.log)), behaviours, guard.State(), w.wire);
    var opening := OpenSession(ws, p, resume);
    if !opening.Opened? {
      return if opening.TurnedAway? then NothingRun else DiedInside, [];
    }
    ghost var w1 := ws.Now();
    PendingIsDue(p.scenarios, Slots(w1.log));
    InSessionIsFormed(p, opening.session, w1);
    status, turns := GoOn(ws, guard, p, opening, behaviours, origin);
    StandThrough(p, w, w1, ws.Now(), opening.pending);
    if status != DiedInside {
      CarriedConcludes(p, w, w1, ws.Now(), guard.stoppedBy, resume, behaviours, origin, status);
    }
  }

  lemma SameReports(p: Protocol, a: seq<Slot>, b: seq<Slot>)
    requires Records(a) == Records(b) && ReportsOk(p, a)
    ensures ReportsOk(p, b)
  {
    forall i | 0 <= i < |b| && RecordOf(b[i]).Some? ensures ReportsWithinCap(RecordOf(b[i]).value, p) {
      assert Records(a)[i] == Records(b)[i];
    }
  }

  lemma InSessionIsFormed(p: Protocol, k: nat, w: World)
    requires InSession(p, k, w)
    ensures Legal(p, w.log) && StoredOk(p, w.log, w.out.value)
  {
    Facts(w);
  }

  lemma StandThrough(p: Protocol, w: World, w1: World, w2: World, pending: seq<ScenarioId>)
    requires w1.out.Some? && w2.out.Some? && StoredOk(p, w1.log, w1.out.value)
    requires forall s :: LoadRecord(FolderOrEmpty(w1.out), s) == LoadRecord(FolderOrEmpty(w.out), s)
    requires forall t | t !in pending :: SameRecord(w1, w2, t)
    requires forall s | s in pending :: s in p.scenarios && !HasResult(Slots(w1.log), s)
    ensures ResultsStand(w, w2)
  {
    forall s | HasStoredResult(FolderOrEmpty(w.out), s)
      ensures LoadRecord(FolderOrEmpty(w2.out), s) == LoadRecord(FolderOrEmpty(w.out), s)
    {
      assert LoadRecord(w1.out.value, s) == LoadRecord(FolderOrEmpty(w.out), s);
      assert s !in pending;
      assert SameRecord(w1, w2, s);
    }
  }

  // -- what this means at every moment of every run -------------------------------------------------------------------

  /** The requests really sent, by every process that ever ran, never pass the cumulative totals; and they
      are never more than the ledger counts. */
  lemma SentNeverPassesTotals(w: World, m: Meter)
    requires Inv(w) && Metered(m)
    ensures Real(w.wire, m) <= Spent(Records(Slots(w.log)), RunProtocol(w.log), m) <= Total(RunProtocol(w.log), m)
    ensures Known(Records(Slots(w.log)), m) <= Real(w.wire, m)
  {
    Facts(w);
    assert MeterTrue(RunProtocol(w.log), Records(Slots(w.log)), w.wire, m);
    LegalIsOk(RunProtocol(w.log), w.log);
    assert MeterOk(RunProtocol(w.log), Slots(w.log), m);
  }

  /** When every attempt has its final record the ledger is exact: what it counts is what was sent. */
  lemma LedgerIsExact(w: World, m: Meter)
    requires Inv(w) && Metered(m) && forall i | 0 <= i < |Slots(w.log)| :: RecordOf(Slots(w.log)[i]).Some?
    ensures Real(w.wire, m) == Spent(Records(Slots(w.log)), RunProtocol(w.log), m)
  {
    SentNeverPassesTotals(w, m);
    KnownIsSpent(Records(Slots(w.log)), RunProtocol(w.log), m);
  }

  lemma {:induction false} KnownIsSpent(rs: seq<Option<Record>>, p: Protocol, m: Meter)
    requires forall i | 0 <= i < |rs| :: rs[i].Some?
    ensures Known(rs, m) == Spent(rs, p, m)
  {
    if rs != [] {
      KnownIsSpent(rs[..|rs| - 1], p, m);
    }
  }
}
