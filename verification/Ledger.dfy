/** The ledger: the attempts the log knows, checked against the files on disk, and the stored scenario
    records checked against the attempts. A non-empty list of problems stops the run. */
module Ledger {
  import opened Wrappers
  import opened Protocols
  import opened Budgets
  import opened Grammar
  import opened LegalLogs

  datatype Problem =
    | NoStart(scenario: ScenarioId, number: nat)
    | Missing(path: Path)
    | Changed(path: Path)
    | NotNumbered(scenario: ScenarioId)
    | NotInTheLog(path: Path)
    | ManyResults(scenario: ScenarioId)
    | ResultNotStored(scenario: ScenarioId)
    | StoredWithoutAttempt(scenario: ScenarioId)

  const KINDS: seq<Kind> := [Started, Final, Abandoned]

  /** Anything under the `attempts` directory, whatever its name. */
  predicate InAttempts(path: Path) {
    match path
    case AttemptFile(_, _, _) => true
    case ManifestIn(dir) => dir != [] && dir[0] == "attempts"
    case Other(dir, _) => dir != [] && dir[0] == "attempts"
    case _ => false
  }

  predicate FileOk(files: Folder, e: Event)
    requires e.AttemptEvent?
  {
    e.file in files && Sha(files[e.file]) == e.sha
  }

  function FilesOf(x: Slot): set<Path> {
    set kind | kind in x.events && x.events[kind].AttemptEvent? :: x.events[kind].file
  }

  function RecordOnDisk(x: Slot, files: Folder): Option<Record> {
    if Final in x.events && x.events[Final].AttemptEvent? && FileOk(files, x.events[Final])
       && files[x.events[Final].file].FinalRecord?
    then Some(files[x.events[Final].file].record)
    else None
  }

  // -- what a clean ledger is ------------------------------------------------------------------------------

  ghost predicate SlotClean(x: Slot, files: Folder) {
    && Started in x.events
    && forall kind | kind in x.events :: x.events[kind].AttemptEvent? && FileOk(files, x.events[kind])
  }

  ghost predicate CleanAt(slots: seq<Slot>, files: Folder, i: nat)
    requires i < |slots|
  {
    SlotClean(slots[i], files)
  }

  ghost predicate AllClean(slots: seq<Slot>, files: Folder) {
    forall i | 0 <= i < |slots| :: CleanAt(slots, files, i)
  }

  function NumbersOf(slots: seq<Slot>, s: ScenarioId): set<nat> {
    if slots == [] then {}
    else
      var x := slots[|slots| - 1];
      NumbersOf(slots[..|slots| - 1], s) + (if x.scenario == s then {x.number} else {})
  }

  ghost predicate Referenced(slots: seq<Slot>, path: Path) {
    exists i | 0 <= i < |slots| :: path in FilesOf(slots[i])
  }

  ghost predicate Numbered(slots: seq<Slot>, i: nat)
    requires i < |slots|
  {
    NumbersOf(slots, slots[i].scenario) == UpTo(CountOf(slots, slots[i].scenario))
  }

  ghost predicate LedgerClean(slots: seq<Slot>, files: Folder) {
    && AllClean(slots, files)
    && (forall i | 0 <= i < |slots| :: Numbered(slots, i))
    && (forall path | path in files && InAttempts(path) :: Referenced(slots, path))
  }

  ghost predicate HoldsAttemptEvents(x: Slot) {
    forall kind | kind in x.events :: x.events[kind].AttemptEvent?
  }

  lemma {:induction false} SlotsHoldAttemptEvents(log: seq<Event>)
    ensures forall i | 0 <= i < |Slots(log)| :: HoldsAttemptEvents(Slots(log)[i])
  {
    if log != [] {
      SlotsHoldAttemptEvents(log[..|log| - 1]);
    }
  }

  lemma CleanRecords(slots: seq<Slot>, files: Folder)
    requires LedgerClean(slots, files)
    ensures forall i | 0 <= i < |slots| :: RecordOnDisk(slots[i], files) == RecordOf(slots[i])
  {
    forall i | 0 <= i < |slots| ensures RecordOnDisk(slots[i], files) == RecordOf(slots[i]) {
      assert CleanAt(slots, files, i);
    }
  }

  /** The log pins the evidence: two folders it finds clean hold the same attempt files, byte for byte. */
  lemma EvidenceIsPinned(slots: seq<Slot>, f: Folder, g: Folder, path: Path)
    requires LedgerClean(slots, f) && LedgerClean(slots, g) && InAttempts(path)
    ensures path in f <==> path in g
    ensures path in f ==> f[path] == g[path]
  {
    if path in f || path in g {
      assert Referenced(slots, path);
      var i :| 0 <= i < |slots| && path in FilesOf(slots[i]);
      assert CleanAt(slots, f, i) && CleanAt(slots, g, i);
    }
  }

  // -- read_ledger -------------------------------------------------------------------------------------------

  /** The entry of one kind names `path`. */
  predicate Names(x: Slot, kind: Kind, path: Path) {
    kind in x.events && x.events[kind].AttemptEvent? && x.events[kind].file == path
  }

  /** What is wrong with one attempt's files. */
  ghost predicate IsSlotProblem(x: Slot, files: Folder, y: Problem) {
    match y
    case NoStart(s, n) => s == x.scenario && n == x.number && Started !in x.events
    case Missing(path) => path !in files && exists kind: Kind :: Names(x, kind, path)
    case Changed(path) =>
      path in files && exists kind: Kind :: Names(x, kind, path) && Sha(files[path]) != x.events[kind].sha
    case _ => false
  }

  function KindProblems(x: Slot, files: Folder, kind: Kind): seq<Problem>
    requires HoldsAttemptEvents(x)
  {
    if kind !in x.events then []
    else
      var e := x.events[kind];
      if e.file !in files then [Missing(e.file)] else if Sha(files[e.file]) != e.sha then [Changed(e.file)] else []
  }

  method CheckSlot(x: Slot, files: Folder) returns (problems: seq<Problem>)
    requires HoldsAttemptEvents(x)
    ensures problems == [] <==> SlotClean(x, files)
    ensures forall y :: y in problems <==> IsSlotProblem(x, files, y)
  {
    problems := if Started in x.events then [] else [NoStart(x.scenario, x.number)];
    ghost var first := problems;
    for j := 0 to |KINDS|
      invariant problems == [] <==> Started in x.events && forall i | 0 <= i < j :: EntryOk(x, files, KINDS[i])
      invariant forall y ::
                  y in problems <==> y in first || exists i | 0 <= i < j :: y in KindProblems(x, files, KINDS[i])
    {
      if KINDS[j] in x.events {
        var e := x.events[KINDS[j]];
        if e.file !in files {
          problems := problems + [Missing(e.file)];
        } else if Sha(files[e.file]) != e.sha {
          problems := problems + [Changed(e.file)];
        }
      }
      assert EntryOk(x, files, KINDS[j]) <==> (KINDS[j] in x.events ==> FileOk(files, x.events[KINDS[j]]));
    }
    EveryKind(x, files);
    EveryProblem(x, files);
  }

  lemma EveryProblem(x: Slot, files: Folder)
    requires HoldsAttemptEvents(x)
    ensures forall y :: IsSlotProblem(x, files, y) <==>
                          (Started !in x.events && y == NoStart(x.scenario, x.number))
                          || exists i | 0 <= i < |KINDS| :: y in KindProblems(x, files, KINDS[i])
  {
    assert KINDS[0] == Started && KINDS[1] == Final && KINDS[2] == Abandoned;
    forall y
      ensures IsSlotProblem(x, files, y) <==>
                (Started !in x.events && y == NoStart(x.scenario, x.number))
                || exists i | 0 <= i < |KINDS| :: y in KindProblems(x, files, KINDS[i])
    {
      if IsSlotProblem(x, files, y) && !y.NoStart? {
        var kind: Kind :| Names(x, kind, y.path) && (y.Changed? ==> Sha(files[y.path]) != x.events[kind].sha);
        var i := if kind == Started then 0 else if kind == Final then 1 else 2;
        assert KINDS[i] == kind && y in KindProblems(x, files, KINDS[i]);
      }
      if i :| 0 <= i < |KINDS| && y in KindProblems(x, files, KINDS[i]) {
        assert Names(x, KINDS[i], y.path);
      }
    }
  }

  predicate EntryOk(x: Slot, files: Folder, kind: Kind) {
    kind in x.events ==> x.events[kind].AttemptEvent? && FileOk(files, x.events[kind])
  }

  lemma EveryKind(x: Slot, files: Folder)
    ensures (forall i | 0 <= i < |KINDS| :: EntryOk(x, files, KINDS[i])) <==>
              forall kind: Kind :: EntryOk(x, files, kind)
    ensures (forall kind: Kind :: EntryOk(x, files, kind)) && Started in x.events <==> SlotClean(x, files)
  {
    if forall i | 0 <= i < |KINDS| :: EntryOk(x, files, KINDS[i]) {
      assert EntryOk(x, files, KINDS[0]) && EntryOk(x, files, KINDS[1]) && EntryOk(x, files, KINDS[2]);
      forall kind: Kind ensures EntryOk(x, files, kind) {
        assert kind == Started || kind == Final || kind == Abandoned;
      }
    }
    if SlotClean(x, files) {
      forall kind: Kind ensures EntryOk(x, files, kind) {}
    }
    if (forall kind: Kind :: EntryOk(x, files, kind)) && Started in x.events {
      forall kind | kind in x.events ensures x.events[kind].AttemptEvent? && FileOk(files, x.events[kind]) {
        assert EntryOk(x, files, kind);
      }
    }
  }

  method ReplayLog(log: seq<Event>) returns (slots: seq<Slot>)
    ensures slots == Slots(log)
  {
    slots := [];
    for i := 0 to |log|
      invariant slots == Slots(log[..i])
    {
      Replay(log[..i], log[i]);
      assert log[..i + 1] == log[..i] + [log[i]];
      if log[i].AttemptEvent? {
        slots := Enter(slots, log[i]);
      }
    }
    assert log[..|log|] == log;
  }

  method CheckFiles(slots: seq<Slot>, files: Folder) returns (problems: seq<Problem>, referenced: set<Path>)
    requires forall i | 0 <= i < |slots| :: HoldsAttemptEvents(slots[i])
    ensures problems == [] <==> AllClean(slots, files)
    ensures forall y :: y in problems <==> exists i | 0 <= i < |slots| :: IsSlotProblem(slots[i], files, y)
    ensures forall path :: path in referenced <==> Referenced(slots, path)
  {
    problems, referenced := [], {};
    for i := 0 to |slots|
      invariant problems == [] <==> forall j | 0 <= j < i :: CleanAt(slots, files, j)
      invariant forall y :: y in problems <==> exists j | 0 <= j < i :: IsSlotProblem(slots[j], files, y)
      invariant forall path :: path in referenced <==> exists j | 0 <= j < i :: path in FilesOf(slots[j])
    {
      var found := CheckSlot(slots[i], files);
      assert found == [] <==> CleanAt(slots, files, i);
      problems, referenced := problems + found, referenced + FilesOf(slots[i]);
    }
  }

  method CheckNumbers(slots: seq<Slot>) returns (problems: seq<Problem>)
    ensures problems == [] <==> forall i | 0 <= i < |slots| :: Numbered(slots, i)
    ensures forall y :: y in problems <==>
                          exists i | 0 <= i < |slots| :: !Numbered(slots, i) && y == NotNumbered(slots[i].scenario)
  {
    problems := [];
    for i := 0 to |slots|
      invariant problems == [] <==> forall j | 0 <= j < i :: Numbered(slots, j)
      invariant forall y :: y in problems <==>
                              exists j | 0 <= j < i :: !Numbered(slots, j) && y == NotNumbered(slots[j].scenario)
    {
      var s := slots[i].scenario;
      if NumbersOf(slots, s) != UpTo(CountOf(slots, s)) {
        problems := problems + [NotNumbered(s)];
        assert !Numbered(slots, i);
      } else {
        assert Numbered(slots, i);
      }
    }
  }

  /** Everything `read_ledger` reports, and nothing else. */
  ghost predicate IsLedgerProblem(slots: seq<Slot>, files: Folder, y: Problem) {
    match y
    case NotNumbered(s) => exists i | 0 <= i < |slots| :: !Numbered(slots, i) && slots[i].scenario == s
    case NotInTheLog(path) => path in files && InAttempts(path) && !Referenced(slots, path)
    case _ => exists i | 0 <= i < |slots| :: IsSlotProblem(slots[i], files, y)
  }

  method ListUnknown(files: Folder, referenced: set<Path>) returns (problems: seq<Problem>)
    ensures forall y :: y in problems <==>
                          y.NotInTheLog? && y.path in files && InAttempts(y.path) && y.path !in referenced
  {
    var unknown := set path | path in files && InAttempts(path) && path !in referenced;
    ghost var all := unknown;
    problems := [];
    while unknown != {}
      invariant unknown <= all
      invariant forall y :: y in problems <==> y.NotInTheLog? && y.path in all - unknown
      decreases |unknown|
    {
      var path :| path in unknown;
      problems, unknown := problems + [NotInTheLog(path)], unknown - {path};
    }
  }

  /** Every attempt the log knows, each with its final record if it is on disk, and every mismatch. */
  method ReadLedger(log: seq<Event>, files: Folder)
    returns (slots: seq<Slot>, records: seq<Option<Record>>, problems: seq<Problem>)
    ensures slots == Slots(log) && |records| == |slots|
    ensures forall y :: y in problems <==> IsLedgerProblem(slots, files, y)
    ensures problems == [] <==> LedgerClean(slots, files)
    ensures problems == [] ==> records == Records(slots)
    ensures forall i | 0 <= i < |slots| :: records[i] == RecordOnDisk(slots[i], files)
  {
    slots := ReplayLog(log);
    SlotsHoldAttemptEvents(log);
    var changed, referenced := CheckFiles(slots, files);
    var misnumbered := CheckNumbers(slots);
    var unknown := ListUnknown(files, referenced);
    problems := changed + misnumbered + unknown;
    assert unknown == [] <==> forall path | path in files && InAttempts(path) :: Referenced(slots, path) by {
      if unknown == [] {
        forall path | path in files && InAttempts(path) ensures Referenced(slots, path) {
          assert NotInTheLog(path) !in unknown;
        }
      } else {
        assert unknown[0] in unknown;
      }
    }
    ProblemsByKind(slots, files, changed, misnumbered, unknown);
    records := seq(|slots|, i requires 0 <= i < |slots| => RecordOnDisk(slots[i], files));
    if problems == [] {
      CleanRecords(slots, files);
    }
  }

  lemma ProblemsByKind(slots: seq<Slot>, files: Folder, changed: seq<Problem>, misnumbered: seq<Problem>,
                       unknown: seq<Problem>)
    requires forall y :: y in changed <==> exists i | 0 <= i < |slots| :: IsSlotProblem(slots[i], files, y)
    requires forall y :: y in misnumbered <==>
                           exists i | 0 <= i < |slots| :: !Numbered(slots, i) && y == NotNumbered(slots[i].scenario)
    requires forall y :: y in unknown <==>
                           y.NotInTheLog? && y.path in files && InAttempts(y.path) && !Referenced(slots, y.path)
    ensures forall y :: y in changed + misnumbered + unknown <==> IsLedgerProblem(slots, files, y)
  {
    forall y ensures y in changed + misnumbered + unknown <==> IsLedgerProblem(slots, files, y) {
      match y {
        case NotNumbered(s) =>
          assert y in misnumbered <==> exists i | 0 <= i < |slots| :: !Numbered(slots, i) && slots[i].scenario == s;
        case _ =>
      }
    }
  }

  // -- the stored scenario records against the attempts ------------------------------------------------------

  function LoadRecord(files: Folder, s: ScenarioId): Option<Stored> {
    if ScenarioRecord(s) in files && files[ScenarioRecord(s)].StoredRecord?
       && files[ScenarioRecord(s)].stored.id == s
    then Some(files[ScenarioRecord(s)].stored)
    else None
  }

  predicate HasStoredResult(files: Folder, s: ScenarioId) {
    LoadRecord(files, s).Some? && !IsNotResult(LoadRecord(files, s).value.failure)
  }

  predicate IsResultOf(r: Option<Record>, x: Slot, s: ScenarioId) {
    x.scenario == s && r.Some? && r.value.outcome != Interrupted
  }

  function ResultCount(slots: seq<Slot>, records: seq<Option<Record>>, s: ScenarioId): nat
    requires |slots| == |records|
  {
    if slots == [] then 0
    else ResultCount(slots[1..], records[1..], s) + (if IsResultOf(records[0], slots[0], s) then 1 else 0)
  }

  lemma {:induction false} CountIsZero(slots: seq<Slot>, s: ScenarioId)
    ensures ResultCount(slots, Records(slots), s) == 0 <==> !HasResult(slots, s)
  {
    if slots != [] {
      CountIsZero(slots[1..], s);
      assert Records(slots)[1..] == Records(slots[1..]);
      if HasResult(slots, s) {
        var i :| 0 <= i < |slots| && slots[i].scenario == s && Settled(slots[i]);
        assert i > 0 ==> slots[1..][i - 1] == slots[i];
      }
      if HasResult(slots[1..], s) {
        var i :| 0 <= i < |slots| - 1 && slots[1..][i].scenario == s && Settled(slots[1..][i]);
        assert slots[i + 1] == slots[1..][i];
      }
      if IsResultOf(Records(slots)[0], slots[0], s) {
        assert Settled(slots[0]);
      }
    }
  }

  /** A result is recorded by exactly one finished attempt, and exactly those results are stored. */
  ghost predicate Agrees(slots: seq<Slot>, files: Folder, all: seq<ScenarioId>) {
    forall s | s in all ::
      && ResultCount(slots, Records(slots), s) <= 1
      && (HasResult(slots, s) <==> HasStoredResult(files, s))
  }

  /** Everything `ledger_problems` reports, and nothing else. */
  ghost predicate IsStoreProblem(slots: seq<Slot>, records: seq<Option<Record>>, files: Folder, all: seq<ScenarioId>,
                                 y: Problem)
    requires |slots| == |records|
  {
    match y
    case ManyResults(s) => s in all && ResultCount(slots, records, s) > 1
    case ResultNotStored(s) => s in all && ResultCount(slots, records, s) > 0 && !HasStoredResult(files, s)
    case StoredWithoutAttempt(s) => s in all && HasStoredResult(files, s) && ResultCount(slots, records, s) == 0
    case _ => false
  }

  /** With the records the log commits to, there is none exactly when store and attempts agree. */
  lemma AgreesExactly(slots: seq<Slot>, files: Folder, all: seq<ScenarioId>)
    ensures Agrees(slots, files, all) <==>
              forall y: Problem :: !IsStoreProblem(slots, Records(slots), files, all, y)
  {
    forall s ensures ResultCount(slots, Records(slots), s) == 0 <==> !HasResult(slots, s) {
      CountIsZero(slots, s);
    }
    if forall y: Problem :: !IsStoreProblem(slots, Records(slots), files, all, y) {
      forall s | s in all
        ensures ResultCount(slots, Records(slots), s) <= 1 && (HasResult(slots, s) <==> HasStoredResult(files, s))
      {
        assert !IsStoreProblem(slots, Records(slots), files, all, ManyResults(s));
        assert !IsStoreProblem(slots, Records(slots), files, all, ResultNotStored(s));
        assert !IsStoreProblem(slots, Records(slots), files, all, StoredWithoutAttempt(s));
      }
    }
  }

  method LedgerProblems(slots: seq<Slot>, records: seq<Option<Record>>, files: Folder, all: seq<ScenarioId>)
    returns (problems: seq<Problem>)
    requires |records| == |slots|
    ensures forall y :: y in problems <==> IsStoreProblem(slots, records, files, all, y)
    ensures records == Records(slots) ==> (problems == [] <==> Agrees(slots, files, all))
  {
    problems := [];
    for i := 0 to |all|
      invariant forall y :: y in problems <==> IsStoreProblem(slots, records, files, all[..i], y)
    {
      var s := all[i];
      assert all[..i + 1] == all[..i] + [s];
      var finals := ResultCount(slots, records, s);
      var stored := HasStoredResult(files, s);
      if finals > 1 {
        problems := problems + [ManyResults(s)];
      }
      if finals > 0 && !stored {
        problems := problems + [ResultNotStored(s)];
      }
      if stored && finals == 0 {
        problems := problems + [StoredWithoutAttempt(s)];
      }
    }
    assert all[..|all|] == all;
    AgreesExactly(slots, files, all);
    assert problems != [] ==> problems[0] in problems;
  }

  /** `not_result_ids`: the scenarios with no stored result, in order. */
  function NotResultIds(files: Folder, all: seq<ScenarioId>): seq<ScenarioId> {
    if all == [] then []
    else (if HasStoredResult(files, all[0]) then [] else [all[0]]) + NotResultIds(files, all[1..])
  }

  lemma {:induction false} NotResultsAgree(slots: seq<Slot>, files: Folder, all: seq<ScenarioId>)
    requires Agrees(slots, files, all)
    ensures NotResultIds(files, all) == WithoutResult(all, slots)
  {
    if all != [] {
      assert all[0] in all;
      forall s | s in all[1..] ensures s in all {}
      NotResultsAgree(slots, files, all[1..]);
    }
  }

  // -- the files a legal log refers to -------------------------------------------------------------------------

  function Files(log: seq<Event>): Folder {
    if log == [] then map[]
    else
      var before, e := Files(log[..|log| - 1]), log[|log| - 1];
      if e.AttemptEvent? then before[e.file := e.sha.of] else before
  }

  function AttemptPart(files: Folder): Folder {
    map path | path in files && InAttempts(path) :: files[path]
  }

  /** The files a log refers to are those of its attempts' entries. */
  ghost predicate Backed(slots: seq<Slot>, files: Folder) {
    && AllClean(slots, files)
    && (forall path | path in files :: InAttempts(path) && Referenced(slots, path))
  }

  /** An attempt's entries refer only to its own files. */
  lemma OwnFiles(p: Protocol, slots: seq<Slot>, k: nat, i: nat, path: Path)
    requires SlotsOk(p, slots, k) && i < |slots| && path in FilesOf(slots[i])
    ensures path.AttemptFile? && path.scenario == slots[i].scenario && path.number == slots[i].number
    ensures path.kind in slots[i].events
  {
    assert SlotOk(p, slots, k, i);
    var kind :| kind in slots[i].events && slots[i].events[kind].AttemptEvent? && slots[i].events[kind].file == path;
    assert WellEntered(slots[i], kind);
  }

  lemma OtherFilesStay(x: Slot, files: Folder, path: Path, c: Content)
    requires SlotClean(x, files) && path !in FilesOf(x)
    ensures SlotClean(x, files[path := c])
  {
    forall kind | kind in x.events ensures x.events[kind].AttemptEvent? && FileOk(files[path := c], x.events[kind]) {
      assert x.events[kind].file in FilesOf(x);
    }
  }

  lemma StartedFileIsNew(p: Protocol, slots: seq<Slot>, k: nat, e: Event, i: nat)
    requires SlotsOk(p, slots, k) && e.AttemptEvent? && i < |slots|
    requires e.file == AttemptFile(e.scenario, e.attempt, e.kind) && e.attempt == CountOf(slots, e.scenario) + 1
    ensures e.file !in FilesOf(slots[i])
  {
    NextNumberIsFree(p, slots, k, e.scenario);
    if e.file in FilesOf(slots[i]) {
      OwnFiles(p, slots, k, i, e.file);
      assert false;
    }
  }

  lemma AmendedFileIsNew(p: Protocol, slots: seq<Slot>, k: nat, e: Event, i: nat)
    requires SlotsOk(p, slots, k) && e.AttemptEvent? && e.kind != Started && i < |slots|
    requires e.file == AttemptFile(e.scenario, e.attempt, e.kind) && Notable(slots, e.scenario, e.attempt)
    ensures e.file !in FilesOf(slots[i])
  {
    KeysAreDistinct(p, slots, k, |slots| - 1);
    assert e.kind !in slots[|slots| - 1].events.Keys;
    if e.file in FilesOf(slots[i]) {
      OwnFiles(p, slots, k, i, e.file);
      assert false;
    }
  }

  /** One new file, referred to by a new last slot, leaves the rest as it was. */
  lemma BackedByNewSlot(slots: seq<Slot>, files: Folder, x: Slot, path: Path, c: Content)
    requires Backed(slots, files) && InAttempts(path)
    requires forall i | 0 <= i < |slots| :: path !in FilesOf(slots[i])
    requires path in FilesOf(x) && SlotClean(x, files[path := c])
    ensures path !in files
    ensures Backed(slots + [x], files[path := c])
  {
    var after, more, n := slots + [x], files[path := c], |slots|;
    assert path in files ==> Referenced(slots, path);
    forall i | 0 <= i <= n ensures CleanAt(after, more, i) {
      if i < n {
        assert CleanAt(slots, files, i);
        OtherFilesStay(slots[i], files, path, c);
      }
    }
    forall q | q in more ensures InAttempts(q) && Referenced(after, q) {
      if q == path {
        assert q in FilesOf(after[n]);
      } else {
        var i :| 0 <= i < n && q in FilesOf(slots[i]);
        assert q in FilesOf(after[i]);
      }
    }
  }

  /** The same when the new file is a further entry of the last slot. */
  lemma BackedByAmendment(slots: seq<Slot>, files: Folder, x: Slot, path: Path, c: Content)
    requires Backed(slots, files) && InAttempts(path) && slots != []
    requires forall i | 0 <= i < |slots| :: path !in FilesOf(slots[i])
    requires FilesOf(x) == FilesOf(slots[|slots| - 1]) + {path} && SlotClean(x, files[path := c])
    ensures path !in files
    ensures Backed(slots[|slots| - 1 := x], files[path := c])
  {
    var n := |slots| - 1;
    var after, more := slots[n := x], files[path := c];
    assert path in files ==> Referenced(slots, path);
    forall i | 0 <= i <= n ensures CleanAt(after, more, i) {
      if i < n {
        assert CleanAt(slots, files, i);
        OtherFilesStay(slots[i], files, path, c);
      }
    }
    forall q | q in more ensures InAttempts(q) && Referenced(after, q) {
      if q == path {
        assert q in FilesOf(after[n]);
      } else {
        var i :| 0 <= i <= n && q in FilesOf(slots[i]);
        assert q in FilesOf(after[i]);
      }
    }
  }

  lemma StartKeepsBacked(p: Protocol, slots: seq<Slot>, k: nat, files: Folder, e: Event)
    requires SlotsOk(p, slots, k) && Backed(slots, files) && e.AttemptEvent? && e.kind == Started
    requires e.file == AttemptFile(e.scenario, e.attempt, Started) && e.attempt == CountOf(slots, e.scenario) + 1
    ensures e.file !in files
    ensures Backed(slots + [NewSlot(e)], files[e.file := e.sha.of])
  {
    forall i | 0 <= i < |slots| ensures e.file !in FilesOf(slots[i]) {
      StartedFileIsNew(p, slots, k, e, i);
    }
    assert Started in NewSlot(e).events;
    BackedByNewSlot(slots, files, NewSlot(e), e.file, e.sha.of);
  }

  lemma AmendKeepsBacked(p: Protocol, slots: seq<Slot>, k: nat, files: Folder, e: Event)
    requires SlotsOk(p, slots, k) && Backed(slots, files) && e.AttemptEvent? && e.kind != Started
    requires e.file == AttemptFile(e.scenario, e.attempt, e.kind) && Notable(slots, e.scenario, e.attempt)
    ensures e.file !in files
    ensures Backed(Amended(slots, e), files[e.file := e.sha.of])
  {
    var n := |slots| - 1;
    forall i | 0 <= i <= n ensures e.file !in FilesOf(slots[i]) {
      AmendedFileIsNew(p, slots, k, e, i);
    }
    assert e.kind !in slots[n].events.Keys;
    assert CleanAt(slots, files, n);
    OtherFilesStay(slots[n], files, e.file, e.sha.of);
    AmendedFiles(slots[n], e);
    AmendedIsClean(slots[n], files[e.file := e.sha.of], e);
    BackedByAmendment(slots, files, slots[n].(events := slots[n].events[e.kind := e]), e.file, e.sha.of);
  }

  lemma AmendedIsClean(x: Slot, files: Folder, e: Event)
    requires SlotClean(x, files) && e.AttemptEvent? && FileOk(files, e)
    ensures SlotClean(x.(events := x.events[e.kind := e]), files)
  {}

  lemma AmendedFiles(x: Slot, e: Event)
    requires e.AttemptEvent? && e.kind !in x.events
    ensures FilesOf(x.(events := x.events[e.kind := e])) == FilesOf(x) + {e.file}
  {
    var y := x.(events := x.events[e.kind := e]);
    assert e.kind in y.events && y.events[e.kind] == e;
    forall path | path in FilesOf(x) ensures path in FilesOf(y) {
      var kind :| kind in x.events && x.events[kind].AttemptEvent? && x.events[kind].file == path;
      assert kind in y.events && y.events[kind] == x.events[kind];
    }
  }

  lemma {:induction false} LegalIsBacked(p: Protocol, log: seq<Event>)
    requires Legal(p, log)
    ensures Backed(Slots(log), Files(log))
  {
    if log != [] {
      var n := |log| - 1;
      var before, e := log[..n], log[n];
      LegalPrefix(p, log, n);
      LegalIsBacked(p, before);
      LegalIsOk(p, before);
      assert log == before + [e];
      if !e.AttemptEvent? {
        OtherKeepsLogOk(p, before, e);
      } else if e.kind == Started {
        StartKeepsLogOk(p, before, e);
        StartKeepsBacked(p, Slots(before), Sessions(before), Files(before), e);
      } else {
        AmendKeepsLogOk(p, before, e);
        AmendKeepsBacked(p, Slots(before), Sessions(before), Files(before), e);
      }
    }
  }

  lemma LegalNumbers(p: Protocol, slots: seq<Slot>, k: nat, s: ScenarioId)
    requires SlotsOk(p, slots, k)
    ensures NumbersOf(slots, s) == UpTo(CountOf(slots, s))
  {
    NumbersOfPrefix(p, slots, k, |slots|, s);
    assert slots[..|slots|] == slots;
  }

  lemma {:induction false} NumbersOfPrefix(p: Protocol, slots: seq<Slot>, k: nat, i: nat, s: ScenarioId)
    requires SlotsOk(p, slots, k) && i <= |slots|
    ensures NumbersOf(slots[..i], s) == UpTo(CountOf(slots[..i], s))
  {
    if i > 0 {
      NumbersOfPrefix(p, slots, k, i - 1, s);
      assert SlotOk(p, slots, k, i - 1);
      assert slots[..i][..i - 1] == slots[..i - 1];
    }
  }

  /** For a legal log the check comes down to one equation: the attempt files on disk are exactly the
      files the log refers to, with exactly the contents it committed to. */
  lemma CleanExactly(p: Protocol, log: seq<Event>, files: Folder)
    requires Legal(p, log)
    ensures LedgerClean(Slots(log), files) <==> AttemptPart(files) == Files(log)
  {
    var slots, k := Slots(log), Sessions(log);
    LegalIsOk(p, log);
    LegalIsBacked(p, log);
    if AttemptPart(files) == Files(log) {
      EqualIsClean(p, log, files);
    }
    if LedgerClean(slots, files) {
      forall path | path in Files(log) || path in AttemptPart(files)
        ensures path in Files(log) && path in AttemptPart(files) && AttemptPart(files)[path] == Files(log)[path]
      {
        assert Referenced(slots, path);
        var i :| 0 <= i < |slots| && path in FilesOf(slots[i]);
        assert CleanAt(slots, files, i) && CleanAt(slots, Files(log), i);
        OwnFiles(p, slots, k, i, path);
      }
    }
  }

  lemma EqualIsClean(p: Protocol, log: seq<Event>, files: Folder)
    requires SlotsOk(p, Slots(log), Sessions(log)) && Backed(Slots(log), Files(log))
    requires AttemptPart(files) == Files(log)
    ensures LedgerClean(Slots(log), files)
  {
    var slots, k := Slots(log), Sessions(log);
    forall i | 0 <= i < |slots| ensures CleanAt(slots, files, i) && Numbered(slots, i) {
      assert CleanAt(slots, Files(log), i);
      forall kind | kind in slots[i].events
        ensures slots[i].events[kind].AttemptEvent? && FileOk(files, slots[i].events[kind])
      {
        assert FileOk(Files(log), slots[i].events[kind]);
      }
      LegalNumbers(p, slots, k, slots[i].scenario);
    }
    forall path | path in files && InAttempts(path) ensures Referenced(slots, path) {
      assert path in AttemptPart(files);
    }
  }
}
