/** The locked phases after the run: `declare`, `packets`, `submit`, `score`. Each verifies everything
    locked before it, writes only into its own folder, and enters one digest. The process may die
    between any two of its effects. The contracts hold on any disk, whatever was done to it; on a disk that
    only the program has written, `Inv` is kept. */
module Review {
  import opened Wrappers
  import opened Protocols
  import opened AuditLogs
  import opened Budgets
  import opened RequestGuards
  import opened Grammar
  import opened LegalLogs
  import opened Ledger
  import opened Manifests
  import opened Packets
  import opened Worlds
  import opened Workspaces
  import opened Runner
  import opened Batches
  import opened Sessions

  datatype Phase = PhaseLocked | PhaseRefused | CutShort

  // -- verification ---------------------------------------------------------------------------------------------

  /** `verify_run`: the folder, the protocol, no void, the ledger and the stored results. */
  ghost predicate RunStands(p: Protocol, w: World) {
    && FolderVerified(w.out, ManifestSha(w.log))
    && FirstProtocol(w.log) == Some(p)
    && RunVoid !in w.log
    && LedgerClean(Slots(w.log), FolderOrEmpty(w.out))
    && Agrees(Slots(w.log), FolderOrEmpty(w.out), p.scenarios)
  }

  method VerifyRun(ws: Workspace, log: seq<Event>, p: Protocol) returns (ok: bool)
    requires ws.Valid() && log == ws.Now().log
    ensures ok <==> RunStands(p, ws.Now())
  {
    var files := FolderOrEmpty(ws.out);
    var slots, records, ledger := ReadLedger(log, files);
    var stored := LedgerProblems(slots, records, files, p.scenarios);
    ok := FolderVerified(ws.out, ManifestSha(log)) && FirstProtocol(log) == Some(p) && RunVoid !in log
          && ledger == [] && stored == [];
  }

  lemma StagesFromTheLog(w: World)
    requires Inv(w)
    ensures forall rank | 1 <= rank <= 5 :: Past(StageOf(w.log), rank) <==> LastOf(w.log, rank).Some?
  {
    Facts(w);
    forall rank | 1 <= rank <= 5 ensures Past(StageOf(w.log), rank) <==> LastOf(w.log, rank).Some? {
      LastOfLegal(RunProtocol(w.log), w.log, rank);
    }
  }

  /** A run that stands was started under `p`, and its log is in one of the locked stages. */
  lemma StandingRun(p: Protocol, w: World)
    requires Inv(w) && RunStands(p, w)
    ensures w.log != [] && RunProtocol(w.log) == p && p.WellFormed() && Past(StageOf(w.log), 1)
  {
    Facts(w);
    StagesFromTheLog(w);
    var q := RunProtocol(w.log);
    assert AllowedAt(q, w.log, 0) && w.log[..0] == [];
    assert w.log[0] != RunVoid;
    OneProtocol(q, w.log);
  }

  /** From the moment its entry is in the log, each locked artifact verifies in every later state: the
      run and its ledger, the declaration, the review folder with its mapping, the submission, and the
      acceptance result. */
  lemma LockedStaysLocked(w: World)
    requires Inv(w)
    ensures LastOf(w.log, 1).Some? ==> RunStands(RunProtocol(w.log), w)
    ensures LastOf(w.log, 2).Some? ==> DeclarationVerified(w)
    ensures LastOf(w.log, 3).Some? ==> ReviewVerified(RunProtocol(w.log), w)
    ensures LastOf(w.log, 4).Some? ==> SubmissionVerified(w)
    ensures LastOf(w.log, 5).Some? ==> AcceptanceVerified(w)
  {
    Facts(w);
    StagesFromTheLog(w);
    if LastOf(w.log, 1).Some? {
      LockedRunStands(RunProtocol(w.log), w);
    }
  }

  lemma LockedRunStands(p: Protocol, w: World)
    requires Legal(p, w.log) && w.log != [] && p == RunProtocol(w.log) && StageOf(w.log) != Void && RunVerified(p, w)
    ensures RunStands(p, w)
  {
    NoVoidOnceLocked(p, w.log);
    assert AllowedAt(p, w.log, 0) && w.log[..0] == [];
  }

  lemma {:induction false} NoVoidOnceLocked(p: Protocol, log: seq<Event>)
    requires Legal(p, log) && StageOf(log) != Void
    ensures RunVoid !in log
  {
    if log != [] {
      var n := |log| - 1;
      LegalStep(p, log);
      NoVoidOnceLocked(p, log[..n]);
      assert log == log[..n] + [log[n]];
    }
  }

  // -- the phases' folders are apart --------------------------------------------------------------------------------

  /** Two worlds differ at most in the folder of one later phase. */
  predicate OnlyFolder(w: World, w': World, rank: nat) {
    match rank
    case 2 => w' == w.(independence := w'.independence)
    case 3 => w' == w.(review := w'.review)
    case 4 => w' == w.(submission := w'.submission)
    case _ => w' == w.(acceptance := w'.acceptance)
  }

  /** Until its entry is in the log, whatever is written to the folder of a later phase keeps the invariant. */
  lemma FolderIsFree(w: World, w': World, rank: nat)
    requires Inv(w) && 2 <= rank <= 5 && !Past(StageOf(w.log), rank) && OnlyFolder(w, w', rank)
    ensures Inv(w')
  {
    forall c: Clause ensures Holds(w', c) {
      assert Holds(w, c);
    }
  }

  lemma KeepsIfFree(w: World, w': World, rank: nat)
    requires 2 <= rank <= 5 && OnlyFolder(w, w', rank)
    ensures Inv(w) && !Past(StageOf(w.log), rank) ==> Inv(w')
  {
    if Inv(w) && !Past(StageOf(w.log), rank) {
      FolderIsFree(w, w', rank);
    }
  }

  // -- declare --------------------------------------------------------------------------------------------------------

  /** The run stands, the signed text passes its own checks, and neither a declaration nor review material
      exists. */
  ghost predicate Declarable(p: Protocol, w: World, accepted: bool) {
    && RunStands(p, w) && accepted
    && LastOf(w.log, 2).None? && w.independence.None? && LastOf(w.log, 3).None? && w.review.None?
  }

  function WithDeclaration(w: World, text: Content): World {
    w.(log := w.log + [DeclarationLocked(Sha(text))], independence := Some(map[DECLARATION := text]))
  }

  ghost predicate DeclareDone(p: Protocol, w: World, w': World, text: Content, accepted: bool, r: Phase) {
    match r
    case PhaseLocked => Declarable(p, w, accepted) && w' == WithDeclaration(w, text)
    case PhaseRefused => !Declarable(p, w, accepted) && w' == w
    case CutShort => Declarable(p, w, accepted) && (w' == w || w' == w.(independence := Some(map[DECLARATION := text])))
  }

  lemma DeclareKeeps(p: Protocol, w: World, text: Content, accepted: bool)
    requires Inv(w) && Declarable(p, w, accepted)
    ensures Inv(w.(independence := Some(map[DECLARATION := text]))) && Inv(WithDeclaration(w, text))
  {
    var e, f := DeclarationLocked(Sha(text)), map[DECLARATION := text];
    StagesFromTheLog(w);
    StandingRun(p, w);
    FolderIsFree(w, w.(independence := Some(f)), 2);
    LastOfGrows(w.log, e, 2);
    PhaseLogged(w.(independence := Some(f)), e);
  }

  /** `accepted`: the signed text passes the declaration's own checks. */
  method Declare(ws: Workspace, p: Protocol, text: Content, accepted: bool) returns (r: Phase)
    modifies ws`independence, ws.audit
    ensures !old(ws.Valid()) ==>
              r == PhaseRefused && ws.audit.lines == old(ws.audit.lines) && ws.independence == old(ws.independence)
    ensures old(ws.Valid()) ==> ws.Valid() && DeclareDone(p, old(ws.Now()), ws.Now(), text, accepted, r)
    ensures old(ws.Valid() && Inv(ws.Now())) ==> Inv(ws.Now())
    ensures !ws.mortal ==> r != CutShort
  {
    var reading := ws.audit.Read();
    if reading.Broken? {
      return PhaseRefused;
    }
    var log := reading.entries;
    var ok := VerifyRun(ws, log, p);
    if !ok || LastOf(log, 2).Some? || ws.independence.Some? || LastOf(log, 3).Some? || ws.review.Some? || !accepted {
      return PhaseRefused;
    }
    if Inv(ws.Now()) {
      DeclareKeeps(p, ws.Now(), text, accepted);
    }
    var alive := ws.StoreDeclaration(map[DECLARATION := text]);
    if alive {
      alive := ws.Log(DeclarationLocked(Sha(text)));
    }
    r := if alive then PhaseLocked else CutShort;
  }

  // -- packets --------------------------------------------------------------------------------------------------------

  /** The review folder as far as it is built: the first `n` packets. */
  function PacketFiles(packets: seq<Content>, n: nat): Folder
    requires n <= |packets|
  {
    if n == 0 then map[] else PacketFiles(packets, n - 1)[Packet(n) := packets[n - 1]]
  }

  function ReviewFiles(packets: seq<Content>, order: seq<ScenarioId>): Folder {
    PacketFiles(packets, |packets|)[Unblinding := Mapping(order)]
  }

  /** The summary says that the records are one valid run of the whole set. */
  predicate SummaryAllows(out: Option<Folder>) {
    var files := FolderOrEmpty(out);
    && SummaryFile in files && files[SummaryFile].Summary?
    && files[SummaryFile].runValid && files[SummaryFile].notRun == []
  }

  /** The run stands and may be reviewed: its declaration is locked, the summary and the traveller views allow
      it, every scenario has its result, and there is no review material yet. */
  ghost predicate Packable(p: Protocol, w: World, suitable: bool) {
    && RunStands(p, w) && DeclarationVerified(w)
    && SummaryAllows(w.out) && NotResultIds(FolderOrEmpty(w.out), p.scenarios) == [] && suitable
    && w.review.None? && LastOf(w.log, 3).None?
  }

  function WithPackets(p: Protocol, w: World, packets: seq<Content>): World {
    var (folder, sha) := WriteManifest(ReviewFiles(packets, PresentationOrder(p.scenarios, p.sortKeys)));
    w.(log := w.log + [ReviewManifest(sha, Sha(Mapping(PresentationOrder(p.scenarios, p.sortKeys))))],
       review := Some(folder))
  }

  ghost predicate PacketsDone(p: Protocol, w: World, w': World, suitable: bool, packets: seq<Content>, r: Phase) {
    match r
    case PhaseLocked => Packable(p, w, suitable) && w' == WithPackets(p, w, packets)
    case PhaseRefused => !Packable(p, w, suitable) && w' == w
    case CutShort => Packable(p, w, suitable) && w' == w.(review := w'.review)
  }

  lemma PacketsKeep(p: Protocol, w: World, suitable: bool, packets: seq<Content>)
    requires Inv(w) && Packable(p, w, suitable)
    ensures !Past(StageOf(w.log), 3) && Inv(WithPackets(p, w, packets))
  {
    StagesFromTheLog(w);
    StandingRun(p, w);
    ReviewEntered(p, w, ReviewFiles(packets, PresentationOrder(p.scenarios, p.sortKeys)));
  }

  /** `build_packets`. `suitable`: each completed plan has its traveller view. `packets` are the rendered packets,
      in presentation order. */
  method BuildPackets(ws: Workspace, p: Protocol, suitable: bool, packets: seq<Content>) returns (r: Phase)
    requires |packets| == |p.scenarios|
    modifies ws`review, ws.audit
    ensures !old(ws.Valid()) ==>
              r == PhaseRefused && ws.audit.lines == old(ws.audit.lines) && ws.review == old(ws.review)
    ensures old(ws.Valid()) ==> ws.Valid() && PacketsDone(p, old(ws.Now()), ws.Now(), suitable, packets, r)
    ensures old(ws.Valid() && Inv(ws.Now())) ==> Inv(ws.Now())
    ensures !ws.mortal ==> r != CutShort
  {
    var reading := ws.audit.Read();
    if reading.Broken? {
      return PhaseRefused;
    }
    var log := reading.entries;
    var ok := VerifyRun(ws, log, p);
    if !ok || !DeclarationLockedAs(LastOf(log, 2), ws.independence) || !SummaryAllows(ws.out)
       || NotResultIds(FolderOrEmpty(ws.out), p.scenarios) != [] || !suitable
       || ws.review.Some? || LastOf(log, 3).Some? {
      return PhaseRefused;
    }
    var order := PresentationOrder(p.scenarios, p.sortKeys);
    var folder, sha := WriteManifest(ReviewFiles(packets, order)).0, WriteManifest(ReviewFiles(packets, order)).1;
    if Inv(ws.Now()) {
      PacketsKeep(p, ws.Now(), suitable, packets);
    }
    var alive := WriteReviewFolder(ws, packets, order, folder);
    if alive {
      alive := ws.Log(ReviewManifest(sha, Sha(Mapping(order))));
    }
    r := if alive then PhaseLocked else CutShort;
  }

  lemma ReviewLogged(p: Protocol, w: World, folder: Folder, e: Event)
    requires Inv(w) && w.log != [] && RunProtocol(w.log) == p && StageOf(w.log) == Declared
    requires e.ReviewManifest? && FolderVerified(Some(folder), Some(e.sha))
    requires Unblinding in folder && Sha(folder[Unblinding]) == e.unblinding
    requires folder[Unblinding] == Mapping(PresentationOrder(p.scenarios, p.sortKeys))
    ensures Inv(Entered(w.(review := Some(folder)), e))
  {
    FolderIsFree(w, w.(review := Some(folder)), 3);
    LastOfGrows(w.log, e, 3);
    PhaseLogged(w.(review := Some(folder)), e);
  }

  lemma ReviewEntered(p: Protocol, w: World, f: Folder)
    requires Inv(w) && w.log != [] && RunProtocol(w.log) == p && StageOf(w.log) == Declared
    requires Unblinding in f && f[Unblinding] == Mapping(PresentationOrder(p.scenarios, p.sortKeys))
    ensures var (folder, sha) := WriteManifest(f);
            Inv(Entered(w.(review := Some(folder)), ReviewManifest(sha, Sha(f[Unblinding]))))
  {
    var (folder, sha) := WriteManifest(f);
    WriteThenVerify(f);
    ReviewLogged(p, w, folder, ReviewManifest(sha, Sha(f[Unblinding])));
  }

  /** The packets one by one, the mapping, and the manifest last. */
  method WriteReviewFolder(ws: Workspace, packets: seq<Content>, order: seq<ScenarioId>, folder: Folder)
    returns (alive: bool)
    requires ws.Valid()
    modifies ws`review
    ensures ws.Valid() && ws.Now() == old(ws.Now()).(review := ws.review)
    ensures alive ==> ws.review == Some(folder)
    ensures Inv(old(ws.Now())) && !Past(StageOf(old(ws.Now()).log), 3) ==> Inv(ws.Now())
    ensures !ws.mortal ==> alive
  {
    ghost var w := ws.Now();
    var f: Folder := map[];
    var i := 0;
    alive := true;
    while i < |packets|
      invariant 0 <= i <= |packets| && f == PacketFiles(packets, i) && alive
      invariant ws.Valid() && ws.Now() == w.(review := ws.review)
    {
      f := f[Packet(i + 1) := packets[i]];
      alive := ws.StoreReview(f);
      if !alive {
        KeepsIfFree(w, ws.Now(), 3);
        return false;
      }
      i := i + 1;
    }
    f := f[Unblinding := Mapping(order)];
    alive := ws.StoreReview(f);
    if alive {
      alive := ws.StoreReview(folder);
    }
    KeepsIfFree(w, ws.Now(), 3);
  }

  /** `verify_declaration`. */
  predicate DeclarationLockedAs(entry: Option<Event>, folder: Option<Folder>) {
    && entry.Some? && entry.value.DeclarationLocked?
    && folder.Some? && DECLARATION in folder.value
    && Sha(folder.value[DECLARATION]) == entry.value.sha
  }

  // -- submit ---------------------------------------------------------------------------------------------------------

  predicate ReviewLockedAs(p: Protocol, entry: Option<Event>, folder: Option<Folder>) {
    && entry.Some? && entry.value.ReviewManifest?
    && FolderVerified(folder, Some(entry.value.sha))
    && Unblinding in folder.value
    && Sha(folder.value[Unblinding]) == entry.value.unblinding
    && folder.value[Unblinding] == Mapping(PresentationOrder(p.scenarios, p.sortKeys))
  }

  predicate SubmissionLockedAs(entry: Option<Event>, folder: Option<Folder>) {
    && entry.Some? && entry.value.SubmissionLocked?
    && FolderVerified(folder, Some(entry.value.manifest))
    && Scoresheet in folder.value
    && Sha(folder.value[Scoresheet]) == entry.value.scoresheet
  }

  /** One row per packet, every overall score from 1 to 5. */
  predicate CompleteSheet(p: Protocol, rows: map<nat, Score>) {
    rows.Keys == UpTo(|p.scenarios|) && forall c | c in rows :: 1 <= rows[c].overall <= 5
  }

  function SubmittedFiles(rows: map<nat, Score>, returned: seq<Content>, n: nat): Folder
    requires n <= |returned|
  {
    if n == 0 then map[Scoresheet := Scores(rows)]
    else SubmittedFiles(rows, returned, n - 1)[Packet(n) := returned[n - 1]]
  }

  /** Everything locked so far stands, the sheet is complete, the returned packets are the issued ones, and
      nothing was submitted before. */
  ghost predicate Submittable(p: Protocol, w: World, rows: map<nat, Score>, unaltered: bool) {
    && RunStands(p, w) && DeclarationVerified(w) && ReviewVerified(p, w)
    && CompleteSheet(p, rows) && unaltered
    && w.submission.None? && LastOf(w.log, 4).None?
  }

  function WithSubmission(w: World, rows: map<nat, Score>, returned: seq<Content>): World {
    var (folder, sha) := WriteManifest(SubmittedFiles(rows, returned, |returned|));
    w.(log := w.log + [SubmissionLocked(sha, Sha(Scores(rows)))], submission := Some(folder))
  }

  ghost predicate SubmitDone(p: Protocol, w: World, w': World, rows: map<nat, Score>, returned: seq<Content>,
                             unaltered: bool, r: Phase)
  {
    match r
    case PhaseLocked => Submittable(p, w, rows, unaltered) && w' == WithSubmission(w, rows, returned)
    case PhaseRefused => !Submittable(p, w, rows, unaltered) && w' == w
    case CutShort => Submittable(p, w, rows, unaltered) && w' == w.(submission := w'.submission)
  }

  lemma SubmittableStage(p: Protocol, w: World)
    requires Inv(w) && RunStands(p, w) && LastOf(w.log, 3).Some? && LastOf(w.log, 4).None?
    ensures w.log != [] && RunProtocol(w.log) == p && StageOf(w.log) == Reviewed && !Past(StageOf(w.log), 4)
  {
    StandingRun(p, w);
    StagesFromTheLog(w);
  }

  lemma SubmitKeeps(p: Protocol, w: World, rows: map<nat, Score>, returned: seq<Content>, unaltered: bool)
    requires Inv(w) && Submittable(p, w, rows, unaltered)
    ensures !Past(StageOf(w.log), 4) && Inv(WithSubmission(w, rows, returned))
  {
    SubmittableStage(p, w);
    SheetIsThere(rows, returned, |returned|);
    SubmissionEntered(p, w, SubmittedFiles(rows, returned, |returned|), Scores(rows));
  }

  /** `submit`. `unaltered`: the returned packets are the issued ones, each with the plan issued under its
      code, and the sheet's remaining columns are filled in as required. */
  method Submit(ws: Workspace, p: Protocol, rows: map<nat, Score>, returned: seq<Content>, unaltered: bool)
    returns (r: Phase)
    modifies ws`submission, ws.audit
    ensures !old(ws.Valid()) ==>
              r == PhaseRefused && ws.audit.lines == old(ws.audit.lines) && ws.submission == old(ws.submission)
    ensures old(ws.Valid()) ==> ws.Valid() && SubmitDone(p, old(ws.Now()), ws.Now(), rows, returned, unaltered, r)
    ensures old(ws.Valid() && Inv(ws.Now())) ==> Inv(ws.Now())
    ensures !ws.mortal ==> r != CutShort
  {
    var reading := ws.audit.Read();
    if reading.Broken? {
      return PhaseRefused;
    }
    var log := reading.entries;
    var ok := VerifyRun(ws, log, p);
    if !ok || !DeclarationLockedAs(LastOf(log, 2), ws.independence) || !ReviewLockedAs(p, LastOf(log, 3), ws.review)
       || LastOf(log, 4).Some? || ws.submission.Some? || !CompleteSheet(p, rows) || !unaltered {
      return PhaseRefused;
    }
    var f := SubmittedFiles(rows, returned, |returned|);
    if Inv(ws.Now()) {
      SubmitKeeps(p, ws.Now(), rows, returned, unaltered);
    }
    var alive := WriteSubmissionFolder(ws, rows, returned, WriteManifest(f).0);
    if alive {
      alive := ws.Log(SubmissionLocked(WriteManifest(f).1, Sha(Scores(rows))));
    }
    r := if alive then PhaseLocked else CutShort;
  }

  lemma {:induction false} SheetIsThere(rows: map<nat, Score>, returned: seq<Content>, n: nat)
    requires n <= |returned|
    ensures Scoresheet in SubmittedFiles(rows, returned, n)
    ensures SubmittedFiles(rows, returned, n)[Scoresheet] == Scores(rows)
  {
    if n > 0 {
      SheetIsThere(rows, returned, n - 1);
    }
  }

  lemma SubmissionEntered(p: Protocol, w: World, f: Folder, sheet: Content)
    requires Inv(w) && w.log != [] && RunProtocol(w.log) == p && StageOf(w.log) == Reviewed
    requires Scoresheet in f && f[Scoresheet] == sheet
    ensures var (folder, sha) := WriteManifest(f);
            Inv(Entered(w.(submission := Some(folder)), SubmissionLocked(sha, Sha(sheet))))
  {
    var (folder, sha) := WriteManifest(f);
    WriteThenVerify(f);
    SubmissionLogged(p, w, folder, SubmissionLocked(sha, Sha(sheet)));
  }

  lemma SubmissionLogged(p: Protocol, w: World, folder: Folder, e: Event)
    requires Inv(w) && w.log != [] && RunProtocol(w.log) == p && StageOf(w.log) == Reviewed
    requires e.SubmissionLocked? && FolderVerified(Some(folder), Some(e.manifest))
    requires Scoresheet in folder && Sha(folder[Scoresheet]) == e.scoresheet
    ensures Inv(Entered(w.(submission := Some(folder)), e))
  {
    FolderIsFree(w, w.(submission := Some(folder)), 4);
    LastOfGrows(w.log, e, 4);
    PhaseLogged(w.(submission := Some(folder)), e);
  }

  /** The scoresheet, the returned packets one by one, and the manifest last. */
  method WriteSubmissionFolder(ws: Workspace, rows: map<nat, Score>, returned: seq<Content>, folder: Folder)
    returns (alive: bool)
    requires ws.Valid()
    modifies ws`submission
    ensures ws.Valid() && ws.Now() == old(ws.Now()).(submission := ws.submission)
    ensures alive ==> ws.submission == Some(folder)
    ensures Inv(old(ws.Now())) && !Past(StageOf(old(ws.Now()).log), 4) ==> Inv(ws.Now())
    ensures !ws.mortal ==> alive
  {
    ghost var w := ws.Now();
    var f := SubmittedFiles(rows, returned, 0);
    alive := ws.StoreSubmission(f);
    var i := 0;
    while alive && i < |returned|
      invariant 0 <= i <= |returned| && f == SubmittedFiles(rows, returned, i)
      invariant ws.Valid() && ws.Now() == w.(submission := ws.submission)
      invariant !ws.mortal ==> alive
    {
      f := f[Packet(i + 1) := returned[i]];
      alive := ws.StoreSubmission(f);
      i := i + 1;
    }
    if alive {
      alive := ws.StoreSubmission(folder);
    }
    KeepsIfFree(w, ws.Now(), 4);
  }

  // -- score ----------------------------------------------------------------------------------------------------------

  function CodesUpTo(n: nat): (r: seq<nat>)
    ensures |r| == n && forall i | 0 <= i < n :: r[i] == i + 1
  {
    if n == 0 then [] else CodesUpTo(n - 1) + [n]
  }

  function StoredRecords(files: Folder, all: seq<ScenarioId>): map<ScenarioId, Stored> {
    map s | s in all && LoadRecord(files, s).Some? :: LoadRecord(files, s).value
  }

  lemma CodesAreKnown(p: Protocol, rows: map<nat, Score>)
    requires CompleteSheet(p, rows)
    ensures forall c | c in CodesUpTo(|p.scenarios|) ::
              c in rows && c in PacketCodes(PresentationOrder(p.scenarios, p.sortKeys))
  {
    var order := PresentationOrder(p.scenarios, p.sortKeys);
    assert |order| == |multiset(order)| == |p.scenarios|;
    CodesCountUp(order);
    UpToHolds(|p.scenarios|);
  }

  /** The verdict `score` computes, from the packets' codes and the mapping. */
  function VerdictOf(p: Protocol, records: map<ScenarioId, Stored>, runValid: bool, rows: map<nat, Score>): Verdict
    requires CompleteSheet(p, rows)
  {
    CodesAreKnown(p, rows);
    AcceptanceOf(records, runValid, CodesUpTo(|p.scenarios|), rows,
                 PacketCodes(PresentationOrder(p.scenarios, p.sortKeys)))
  }

  function Row(rows: map<nat, Score>, c: nat): Score {
    if c in rows then rows[c] else Score(0, 0)
  }

  function Named(order: seq<ScenarioId>, rows: map<nat, Score>): map<ScenarioId, Score> {
    if order == [] then map[]
    else Named(order[..|order| - 1], rows)[order[|order| - 1] := Row(rows, |order|)]
  }

  lemma {:induction false} NamedHolds(order: seq<ScenarioId>, rows: map<nat, Score>)
    ensures forall s :: s in Named(order, rows) <==> s in order
    ensures Distinct(order) ==> forall i | 0 <= i < |order| :: Named(order, rows)[order[i]] == Row(rows, i + 1)
  {
    if order != [] {
      var before := order[..|order| - 1];
      NamedHolds(before, rows);
      assert order == before + [order[|order| - 1]];
    }
  }

  /** The scores by scenario: what the reviewer would have written with the scenarios in sight. */
  function Truth(p: Protocol, rows: map<nat, Score>): (t: map<ScenarioId, Score>)
    ensures forall s | s in p.scenarios :: s in t
  {
    var order := PresentationOrder(p.scenarios, p.sortKeys);
    NamedHolds(order, rows);
    assert forall s | s in p.scenarios :: s in multiset(order);
    Named(order, rows)
  }

  /** The acceptance rule applied to the scenarios themselves. */
  function PlainVerdict(p: Protocol, records: map<ScenarioId, Stored>, runValid: bool, rows: map<nat, Score>): Verdict {
    DirectVerdict(records, runValid, p.scenarios, Truth(p, rows))
  }

  lemma {:induction false} CodesListed(n: nat)
    ensures forall c :: c in CodesUpTo(n) <==> 1 <= c <= n
  {
    if n > 0 {
      CodesListed(n - 1);
    }
  }

  /** Packet by packet, the codes lead back to the presentation order. */
  lemma UnblindedInOrder(order: seq<ScenarioId>)
    ensures forall c | c in CodesUpTo(|order|) :: c in PacketCodes(order)
    ensures Unblinded(CodesUpTo(|order|), PacketCodes(order)) == order
  {
    var codes, names := CodesUpTo(|order|), PacketCodes(order);
    CodesListed(|order|);
    CodesCountUp(order);
    var unblinded := Unblinded(codes, names);
    forall i | 0 <= i < |order| ensures unblinded[i] == order[i] {
      assert codes[i] == i + 1 && i + 1 in names;
    }
  }

  lemma SheetCarriesTruth(p: Protocol, rows: map<nat, Score>)
    requires p.WellFormed() && CompleteSheet(p, rows)
    ensures var order := PresentationOrder(p.scenarios, p.sortKeys);
            Carries(CodesUpTo(|p.scenarios|), rows, PacketCodes(order), Truth(p, rows))
  {
    var order := PresentationOrder(p.scenarios, p.sortKeys);
    var codes, truth := CodesUpTo(|p.scenarios|), Truth(p, rows);
    OrderIsARearrangement(p.scenarios, p.sortKeys);
    CodesAreKnown(p, rows);
    UnblindedInOrder(order);
    NamedHolds(order, rows);
    CodesListed(|order|);
    CodesCountUp(order);
    forall c | c in codes ensures PacketCodes(order)[c] in truth && truth[PacketCodes(order)[c]] == rows[c] {
      assert order[c - 1] in order && truth[order[c - 1]] == Row(rows, c - 1 + 1);
    }
  }

  /** The recorded verdict is the acceptance rule applied to the scenarios' own scores: the packets' order
      and codes have no part in it. */
  lemma VerdictIsOfTheScenarios(p: Protocol, records: map<ScenarioId, Stored>, runValid: bool, rows: map<nat, Score>)
    requires p.WellFormed() && CompleteSheet(p, rows)
    ensures VerdictOf(p, records, runValid, rows) == PlainVerdict(p, records, runValid, rows)
  {
    var order := PresentationOrder(p.scenarios, p.sortKeys);
    SheetCarriesTruth(p, rows);
    NamedHolds(order, rows);
    OrderIsARearrangement(p.scenarios, p.sortKeys);
    CodesAreKnown(p, rows);
    VerdictIsUnblinded(records, runValid, CodesUpTo(|p.scenarios|), rows, PacketCodes(order), p.scenarios,
                       Truth(p, rows));
  }

  datatype Scored = TargetMet | TargetNotMet | ScoreRefused | ScoreCutShort

  function SheetRows(submission: Option<Folder>): map<nat, Score> {
    if submission.Some? && Scoresheet in submission.value && submission.value[Scoresheet].Scores?
    then submission.value[Scoresheet].rows else map[]
  }

  predicate SheetLocked(p: Protocol, submission: Option<Folder>) {
    && submission.Some? && Scoresheet in submission.value && submission.value[Scoresheet].Scores?
    && CompleteSheet(p, SheetRows(submission))
  }

  /** What the locked summary says of the run. */
  predicate SummaryThere(out: Option<Folder>) {
    var files := FolderOrEmpty(out);
    SummaryFile in files && files[SummaryFile].Summary?
  }

  function SummaryFlag(out: Option<Folder>): bool {
    SummaryThere(out) && FolderOrEmpty(out)[SummaryFile].runValid
  }

  /** What must stand for a submission to be scored. */
  datatype Part = TheRun | TheDeclaration | TheReview | TheSubmission | TheSheet | TheSummary

  ghost predicate Stands(p: Protocol, w: World, part: Part) {
    match part
    case TheRun => RunStands(p, w)
    case TheDeclaration => DeclarationVerified(w)
    case TheReview => ReviewVerified(p, w)
    case TheSubmission => SubmissionVerified(w)
    case TheSheet => SheetLocked(p, w.submission)
    case TheSummary => SummaryThere(w.out)
  }

  ghost predicate Scorable(p: Protocol, w: World) {
    forall part: Part :: Stands(p, w, part)
  }

  lemma ScorableExactly(p: Protocol, w: World)
    ensures Scorable(p, w) <==>
            && RunStands(p, w) && DeclarationVerified(w) && ReviewVerified(p, w) && SubmissionVerified(w)
            && SheetLocked(p, w.submission) && SummaryThere(w.out)
  {
    if Scorable(p, w) {
      assert Stands(p, w, TheRun) && Stands(p, w, TheDeclaration) && Stands(p, w, TheReview);
      assert Stands(p, w, TheSubmission) && Stands(p, w, TheSheet) && Stands(p, w, TheSummary);
    }
  }

  /** The acceptance result of what is locked, read off the scenarios' own scores. */
  function Finding(p: Protocol, w: World): Verdict {
    PlainVerdict(p, StoredRecords(FolderOrEmpty(w.out), p.scenarios), SummaryFlag(w.out), SheetRows(w.submission))
  }

  /** `score` refuses unless everything locked still stands. */
  method CheckScorable(ws: Workspace, log: seq<Event>, p: Protocol) returns (ok: bool)
    requires ws.Valid() && log == ws.Now().log
    ensures ok <==> Scorable(p, ws.Now())
  {
    ScorableExactly(p, ws.Now());
    var stands := VerifyRun(ws, log, p);
    ok := stands && DeclarationLockedAs(LastOf(log, 2), ws.independence) && ReviewLockedAs(p, LastOf(log, 3), ws.review)
          && SubmissionLockedAs(LastOf(log, 4), ws.submission) && SheetLocked(p, ws.submission) && SummaryThere(ws.out);
  }

  lemma ScorableStage(p: Protocol, w: World)
    requires Inv(w) && RunStands(p, w) && LastOf(w.log, 4).Some? && w.acceptance.None?
    ensures w.log != [] && RunProtocol(w.log) == p && StageOf(w.log) == Submitted
  {
    StandingRun(p, w);
    StagesFromTheLog(w);
    Facts(w);
  }

  lemma AcceptanceLogged(p: Protocol, w: World, text: Content)
    requires Inv(w) && w.log != [] && RunProtocol(w.log) == p && StageOf(w.log) == Submitted && w.acceptance.None?
    ensures Inv(w.(acceptance := Some(text)))
    ensures Inv(Entered(w.(acceptance := Some(text)), AcceptanceRecorded(Sha(text))))
  {
    var e := AcceptanceRecorded(Sha(text));
    FolderIsFree(w, w.(acceptance := Some(text)), 5);
    LastOfGrows(w.log, e, 5);
    PhaseLogged(w.(acceptance := Some(text)), e);
  }

  lemma ResultKeeps(p: Protocol, w: World, text: Content)
    requires Inv(w) && Scorable(p, w) && w.acceptance.None?
    ensures Inv(w.(acceptance := Some(text))) && Inv(WithAcceptance(w, text))
  {
    ScorableExactly(p, w);
    ScorableStage(p, w);
    AcceptanceLogged(p, w, text);
  }

  function WithAcceptance(w: World, text: Content): World {
    w.(log := w.log + [AcceptanceRecorded(Sha(text))], acceptance := Some(text))
  }

  /** The answer is the release target of what is locked; its result is recorded once and never replaced; and
      a recorded result is in the log exactly if it was not there as a file before, or was in the log already. */
  ghost predicate ScoreDone(p: Protocol, w: World, w': World, r: Scored) {
    var text := Acceptance(Finding(p, w));
    match r
    case ScoreRefused => w' == w && (Scorable(p, w) ==> w.acceptance.Some? && w.acceptance.value != text)
    case ScoreCutShort => Scorable(p, w) && w.acceptance.None? && (w' == w || w' == w.(acceptance := Some(text)))
    case _ =>
      && Scorable(p, w) && (r == TargetMet <==> Finding(p, w).TargetMet())
      && (w.acceptance.Some? ==> w.acceptance.value == text && w' == w)
      && (w.acceptance.None? ==> w' == WithAcceptance(w, text))
      && (LastOf(w'.log, 5).Some? <==> w.acceptance.None? || LastOf(w.log, 5).Some?)
  }

  /** `score`: the acceptance result of the locked submission. */
  method ScoreSubmission(ws: Workspace, p: Protocol) returns (r: Scored)
    requires p.WellFormed()
    modifies ws`acceptance, ws.audit
    ensures !old(ws.Valid()) ==>
              r == ScoreRefused && ws.audit.lines == old(ws.audit.lines) && ws.acceptance == old(ws.acceptance)
    ensures old(ws.Valid()) ==> ws.Valid() && ScoreDone(p, old(ws.Now()), ws.Now(), r)
    ensures old(ws.Valid() && Inv(ws.Now())) ==> Inv(ws.Now())
    ensures !ws.mortal ==> r != ScoreCutShort
  {
    var reading := ws.audit.Read();
    if reading.Broken? {
      return ScoreRefused;
    }
    var ok := CheckScorable(ws, reading.entries, p);
    if !ok {
      return ScoreRefused;
    }
    ScorableExactly(p, ws.Now());
    var records, rows := StoredRecords(FolderOrEmpty(ws.out), p.scenarios), SheetRows(ws.submission);
    VerdictIsOfTheScenarios(p, records, SummaryFlag(ws.out), rows);
    var verdict := VerdictOf(p, records, SummaryFlag(ws.out), rows);
    r := if verdict.TargetMet() then TargetMet else TargetNotMet;
    if ws.acceptance.None? {
      if Inv(ws.Now()) {
        ResultKeeps(p, ws.Now(), Acceptance(verdict));
      }
      var alive := RecordAcceptance(ws, Acceptance(verdict));
      if !alive {
        r := ScoreCutShort;
      }
    } else if ws.acceptance.value != Acceptance(verdict) {
      r := ScoreRefused;
    }
  }

  /** The result file, then its entry. */
  method RecordAcceptance(ws: Workspace, text: Content) returns (alive: bool)
    requires ws.Valid() && ws.acceptance.None?
    requires Inv(ws.Now()) ==> Inv(ws.Now().(acceptance := Some(text))) && Inv(WithAcceptance(ws.Now(), text))
    modifies ws`acceptance, ws.audit
    ensures ws.Valid()
    ensures var w := old(ws.Now());
            if alive then ws.Now() == WithAcceptance(w, text)
            else ws.Now() == w || ws.Now() == w.(acceptance := Some(text))
    ensures alive ==> LastOf(ws.Now().log, 5).Some?
    ensures Inv(old(ws.Now())) ==> Inv(ws.Now())
    ensures !ws.mortal ==> alive
  {
    LastOfGrows(ws.Now().log, AcceptanceRecorded(Sha(text)), 5);
    alive := ws.StoreAcceptance(text);
    if alive {
      alive := ws.Log(AcceptanceRecorded(Sha(text)));
    }
  }

  // -- what the locked files decide -----------------------------------------------------------------------------------

  /** The covered files of two folders are the same. */
  ghost predicate SameCovered(f: Folder, g: Folder) {
    forall path | Covered(path) :: (path in f <==> path in g) && (path in f ==> f[path] == g[path])
  }

  lemma VerifiedFoldersAreSame(f: Option<Folder>, g: Option<Folder>, recorded: Option<Sha>)
    requires FolderVerified(f, recorded) && FolderVerified(g, recorded)
    ensures SameCovered(f.value, g.value)
  {
    ManifestPinsTheFolder(f.value, g.value);
  }

  /** One log, two disks on which everything locked stands: the locked files are the same. */
  lemma LockedFilesArePinned(p: Protocol, a: World, b: World)
    requires Scorable(p, a) && Scorable(p, b) && a.log == b.log
    ensures SameCovered(FolderOrEmpty(a.out), FolderOrEmpty(b.out))
    ensures SameCovered(FolderOrEmpty(a.review), FolderOrEmpty(b.review))
    ensures SameCovered(FolderOrEmpty(a.submission), FolderOrEmpty(b.submission))
    ensures DECLARATION in FolderOrEmpty(a.independence) && DECLARATION in FolderOrEmpty(b.independence)
    ensures FolderOrEmpty(a.independence)[DECLARATION] == FolderOrEmpty(b.independence)[DECLARATION]
  {
    ScorableExactly(p, a);
    ScorableExactly(p, b);
    VerifiedFoldersAreSame(a.out, b.out, ManifestSha(a.log));
    VerifiedFoldersAreSame(a.review, b.review, Some(LastOf(a.log, 3).value.sha));
    VerifiedFoldersAreSame(a.submission, b.submission, Some(LastOf(a.log, 4).value.manifest));
  }

  lemma SameFilesSameFinding(p: Protocol, a: World, b: World)
    requires SameCovered(FolderOrEmpty(a.out), FolderOrEmpty(b.out))
    requires a.submission.Some? && b.submission.Some? && SameCovered(a.submission.value, b.submission.value)
    ensures Finding(p, a) == Finding(p, b)
  {
    var f, g := FolderOrEmpty(a.out), FolderOrEmpty(b.out);
    forall s ensures LoadRecord(f, s) == LoadRecord(g, s) {
      assert Covered(ScenarioRecord(s));
    }
    assert StoredRecords(f, p.scenarios) == StoredRecords(g, p.scenarios);
    assert Covered(SummaryFile) && Covered(Scoresheet);
  }

  /** So they give one verdict. */
  lemma OneLogOneVerdict(p: Protocol, a: World, b: World)
    requires Scorable(p, a) && Scorable(p, b) && a.log == b.log
    ensures Finding(p, a) == Finding(p, b)
  {
    ScorableExactly(p, a);
    ScorableExactly(p, b);
    LockedFilesArePinned(p, a, b);
    SameFilesSameFinding(p, a, b);
  }

  /** And the head of the log, kept elsewhere, decides the verdict: any two disks with accepted logs of one head
      on which everything locked stands give the same. */
  lemma HeadDecidesTheVerdict(p: Protocol, a: World, b: World, linesA: seq<Line<Event>>, linesB: seq<Line<Event>>)
    requires AuditLogs.Accepted(linesA) && EventsOf(linesA) == a.log
    requires AuditLogs.Accepted(linesB) && EventsOf(linesB) == b.log
    requires Head(linesA) == Head(linesB)
    requires Scorable(p, a) && Scorable(p, b)
    ensures Finding(p, a) == Finding(p, b)
  {
    HeadCommits(linesA, linesB);
    OneLogOneVerdict(p, a, b);
  }

  /** Recording the result leaves everything locked as it stood. */
  lemma RecordedIsScorable(p: Protocol, w: World, text: Content)
    requires Scorable(p, w)
    ensures Scorable(p, WithAcceptance(w, text)) && Finding(p, WithAcceptance(w, text)) == Finding(p, w)
    ensures Scorable(p, w.(acceptance := Some(text))) && Finding(p, w.(acceptance := Some(text))) == Finding(p, w)
  {
    var e := AcceptanceRecorded(Sha(text));
    ScorableExactly(p, w);
    ScorableExactly(p, WithAcceptance(w, text));
    ScorableExactly(p, w.(acceptance := Some(text)));
    LastOfGrows(w.log, e, 1);
    LastOfGrows(w.log, e, 2);
    LastOfGrows(w.log, e, 3);
    LastOfGrows(w.log, e, 4);
    Replay(w.log, e);
    FirstStays(w.log, e);
  }

  lemma {:induction false} FirstStays(log: seq<Event>, e: Event)
    requires FirstProtocol(log).Some?
    ensures FirstProtocol(log + [e]) == FirstProtocol(log)
  {
    if !log[0].SessionStarted? {
      FirstStays(log[1..], e);
      assert (log + [e])[1..] == log[1..] + [e];
    }
  }

  /** Scoring again, also after a death at any point of the first time, is never refused as different, and once
      answered it is answered the same without changing anything. */
  method ScoreAgain(ws: Workspace, p: Protocol) returns (first: Scored, second: Scored)
    requires ws.Valid() && p.WellFormed()
    modifies ws`acceptance, ws.audit
    ensures first != ScoreRefused ==> second != ScoreRefused
    ensures first == TargetMet || first == TargetNotMet ==> second == first
  {
    ghost var w := ws.Now();
    first := ScoreSubmission(ws, p);
    if Scorable(p, w) {
      RecordedIsScorable(p, w, Acceptance(Finding(p, w)));
    }
    second := ScoreSubmission(ws, p);
  }

  /** A result file left without its entry by a process that died between the two: the entry stays missing,
      however often `score` is run again. */
  method ScoringNeverCatchesUp(ws: Workspace, p: Protocol, times: nat)
    requires ws.Valid() && p.WellFormed() && ws.acceptance.Some? && LastOf(ws.Now().log, 5).None?
    modifies ws`acceptance, ws.audit
    ensures ws.Valid() && ws.Now() == old(ws.Now()) && LastOf(ws.Now().log, 5).None?
  {
    for i := 0 to times
      invariant ws.Valid() && ws.Now() == old(ws.Now())
    {
      var r := ScoreSubmission(ws, p);
    }
  }
}
