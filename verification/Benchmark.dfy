/** The result directory of `benchmark_quality.py`: batches of scenarios run into it one after another, and the
    summary that says whether what it holds may be read as one run. */
module Benchmark {
  import opened Wrappers

  type Id = string

  // -- provenance --------------------------------------------------------------------------------------------------

  /** An empty text is as good as none. */
  predicate Given(text: Option<string>) {
    text.Some? && text.value != ""
  }

  datatype Configuration = Configuration(sha256: Option<string>, settings: set<string>)

  datatype Source = Source(gitHead: Option<string>, fingerprint: Option<string>)

  datatype Captured = Captured(configuration: Option<Configuration>, source: Option<Source>)

  datatype Problem = NothingRecorded | NoConfiguration | AbsentSettings(names: set<string>) | NoSource

  /** `problems`: why a provenance is not a complete capture. `required` are the names every capture records. */
  function Problems(c: Option<Captured>, required: set<string>): set<Problem> {
    if c.None? then {NothingRecorded}
    else
      (if c.value.configuration.None? || !Given(c.value.configuration.value.sha256) then {NoConfiguration}
       else
         var absent := required - c.value.configuration.value.settings;
         if absent == {} then {} else {AbsentSettings(absent)})
      + (if c.value.source.None? || !Given(c.value.source.value.gitHead) || !Given(c.value.source.value.fingerprint)
         then {NoSource} else {})
  }

  function ConfigurationId(c: Option<Captured>): Option<string> {
    if c.None? || c.value.configuration.None? then None else c.value.configuration.value.sha256
  }

  function SourceId(c: Option<Captured>): Option<string> {
    if c.None? || c.value.source.None? then None else c.value.source.value.fingerprint
  }

  // -- records -----------------------------------------------------------------------------------------------------

  datatype Metrics = Measured | ExtractionFailed | GenerationFailed

  datatype Record = Record(id: Id, completed: bool, metrics: Metrics, passed: bool, provenance: Option<Captured>,
                           sourceUnchanged: Option<bool>)

  /** What the canary run gave back. The acceptance says whether its outcome begins with PASS. */
  datatype Report = Report(technicalFailure: bool, acceptance: Option<bool>, hasFigures: bool)

  /** A scenario either raises, which is recorded, or gives a report. */
  datatype Attempted = Raised | Reported(report: Report)

  /** The source fingerprint taken again when the scenario finished. */
  datatype Recheck = NotAsked | Unreadable | Taken(fingerprint: string)

  function ReportOf(a: Attempted): Report {
    if a.Raised? then Report(true, None, false) else a.report
  }

  function BuildRecord(id: Id, report: Report, provenance: Option<Captured>, confirmed: Option<bool>): Record {
    var failed := report.technicalFailure || report.acceptance.None?;
    Record(
      id, !failed,
      if failed then GenerationFailed else if report.hasFigures then Measured else ExtractionFailed,
      !failed && report.acceptance.value, provenance, confirmed)
  }

  function UnchangedSince(r: Recheck, startedFrom: Option<string>): Option<bool> {
    match r
    case NotAsked => None
    case Unreadable => Some(false)
    case Taken(f) => Some(Some(f) == startedFrom)
  }

  predicate IsMeasured(r: Record) {
    r.completed && r.metrics == Measured
  }

  // -- one run -----------------------------------------------------------------------------------------------------

  datatype Reason = Incomplete(id: Id, problem: Problem) | SourceChanged(id: Id) | MixedConfigurations | MixedSources

  /** Whether the records can be read as one run: every provenance complete and confirmed, and all of them
      the same. */
  ghost predicate OneRun(records: seq<Record>, required: set<string>) {
    && (forall r | r in records :: Problems(r.provenance, required) == {} && r.sourceUnchanged != Some(false))
    && (forall r, t | r in records && t in records ::
          ConfigurationId(r.provenance) == ConfigurationId(t.provenance)
          && SourceId(r.provenance) == SourceId(t.provenance))
  }

  lemma TwoOfThem<T>(s: set<T>, x: T, y: T)
    requires x in s && y in s && x != y
    ensures |s| > 1
  {
    assert |s - {x}| >= 1 by {
      assert y in s - {x};
    }
  }

  lemma OneOfThem<T>(s: set<T>, x: T)
    requires x in s && forall y | y in s :: y == x
    ensures |s| == 1
  {
    assert s == {x};
  }

  /** The reasons there are. */
  ghost predicate IsReason(x: Reason, records: seq<Record>, required: set<string>) {
    match x
    case Incomplete(id, problem) =>
      exists r :: r in records && r.id == id && problem in Problems(r.provenance, required)
    case SourceChanged(id) => exists r :: r in records && r.id == id && r.sourceUnchanged == Some(false)
    case MixedConfigurations =>
      exists r, t | r in records && t in records :: ConfigurationId(r.provenance) != ConfigurationId(t.provenance)
    case MixedSources => exists r, t | r in records && t in records :: SourceId(r.provenance) != SourceId(t.provenance)
  }

  /** There is none exactly when the records are one run. */
  lemma NoReasonExactly(records: seq<Record>, required: set<string>)
    ensures OneRun(records, required) <==> forall x: Reason :: !IsReason(x, records, required)
  {
    if forall x: Reason :: !IsReason(x, records, required) {
      assert !IsReason(MixedConfigurations, records, required) && !IsReason(MixedSources, records, required);
      forall r | r in records ensures Problems(r.provenance, required) == {} && r.sourceUnchanged != Some(false) {
        assert !IsReason(SourceChanged(r.id), records, required);
        forall problem ensures problem !in Problems(r.provenance, required) {
          assert !IsReason(Incomplete(r.id, problem), records, required);
        }
      }
    }
  }

  /** The reasons one record gives by itself. */
  function ReasonsOf(r: Record, required: set<string>): set<Reason> {
    (set p | p in Problems(r.provenance, required) :: Incomplete(r.id, p))
    + (if r.sourceUnchanged == Some(false) then {SourceChanged(r.id)} else {})
  }

  /** Other reasons than a mixture are those of the single records. */
  lemma ReasonsAreOfRecords(x: Reason, records: seq<Record>, required: set<string>)
    requires !x.MixedConfigurations? && !x.MixedSources?
    ensures IsReason(x, records, required) <==> exists r :: r in records && x in ReasonsOf(r, required)
  {
    if r :| r in records && x in ReasonsOf(r, required) {
      assert IsReason(x, records, required);
    }
    match x {
      case Incomplete(id, problem) =>
        if IsReason(x, records, required) {
          var r :| r in records && r.id == id && problem in Problems(r.provenance, required);
          assert x in ReasonsOf(r, required);
        }
      case SourceChanged(id) =>
        if IsReason(x, records, required) {
          var r :| r in records && r.id == id && r.sourceUnchanged == Some(false);
          assert x in ReasonsOf(r, required);
        }
      case _ =>
    }
  }

  function Mixtures(configurations: set<Option<string>>, sources: set<Option<string>>): set<Reason> {
    (if |configurations| > 1 then {MixedConfigurations} else {}) + (if |sources| > 1 then {MixedSources} else {})
  }

  lemma ReasonsAreAll(records: seq<Record>, required: set<string>, single: set<Reason>,
                      configurations: set<Option<string>>, sources: set<Option<string>>, x: Reason)
    requires x in single <==> exists r :: r in records && x in ReasonsOf(r, required)
    requires configurations == set r | r in records :: ConfigurationId(r.provenance)
    requires sources == set r | r in records :: SourceId(r.provenance)
    ensures x in single + Mixtures(configurations, sources) <==> IsReason(x, records, required)
  {
    MixedExactly(records, configurations, sources);
    if !x.MixedConfigurations? && !x.MixedSources? {
      ReasonsAreOfRecords(x, records, required);
    }
  }

  /** `run_invalid_reasons`: exactly the reasons there are. */
  method RunInvalidReasons(records: seq<Record>, required: set<string>) returns (reasons: set<Reason>)
    ensures forall x :: x in reasons <==> IsReason(x, records, required)
    ensures reasons == {} <==> OneRun(records, required)
  {
    var single: set<Reason> := {};
    for i := 0 to |records|
      invariant forall x :: x in single <==> exists r :: r in records[..i] && x in ReasonsOf(r, required)
    {
      assert forall r :: r in records[..i + 1] <==> r in records[..i] || r == records[i];
      single := single + ReasonsOf(records[i], required);
    }
    assert records[..|records|] == records;
    var configurations := set r | r in records :: ConfigurationId(r.provenance);
    var sources := set r | r in records :: SourceId(r.provenance);
    reasons := single + Mixtures(configurations, sources);
    forall x: Reason ensures x in reasons <==> IsReason(x, records, required) {
      ReasonsAreAll(records, required, single, configurations, sources, x);
    }
    NoReasonExactly(records, required);
  }

  lemma MoreThanOne<T>(s: set<T>)
    ensures |s| > 1 <==> exists x, y :: x in s && y in s && x != y
  {
    if x, y :| x in s && y in s && x != y {
      TwoOfThem(s, x, y);
    } else if x :| x in s {
      OneOfThem(s, x);
    }
  }

  lemma MixedExactly(records: seq<Record>, configurations: set<Option<string>>, sources: set<Option<string>>)
    requires configurations == set r | r in records :: ConfigurationId(r.provenance)
    requires sources == set r | r in records :: SourceId(r.provenance)
    ensures |configurations| > 1 <==>
            exists r, t | r in records && t in records :: ConfigurationId(r.provenance) != ConfigurationId(t.provenance)
    ensures |sources| > 1 <==>
            exists r, t | r in records && t in records :: SourceId(r.provenance) != SourceId(t.provenance)
  {
    MoreThanOne(configurations);
    MoreThanOne(sources);
    forall r, t | r in records && t in records
      ensures ConfigurationId(r.provenance) in configurations && ConfigurationId(t.provenance) in configurations
      ensures SourceId(r.provenance) in sources && SourceId(t.provenance) in sources
    {}
  }

  // -- the summary -------------------------------------------------------------------------------------------------

  datatype Summary = Summary(
    runValid: bool,
    notRun: seq<Id>,
    generationFailures: seq<Id>,
    extractionFailures: seq<Id>,
    measured: seq<Id>,
    baselinePassed: seq<Id>,
    baselineFailed: seq<Id>,
    records: seq<Record>)

  function Stored(ids: seq<Id>, files: map<Id, Record>): (r: seq<Record>)
    ensures forall x :: x in r <==> exists s :: s in ids && s in files && files[s] == x
  {
    if ids == [] then []
    else
      assert ids == [ids[0]] + ids[1..];
      (if ids[0] in files then [files[ids[0]]] else []) + Stored(ids[1..], files)
  }

  function Ids(records: seq<Record>, keep: Record -> bool): seq<Id> {
    if records == [] then []
    else (if keep(records[0]) then [records[0].id] else []) + Ids(records[1..], keep)
  }

  function NotRun(ids: seq<Id>, files: map<Id, Record>): seq<Id> {
    if ids == [] then []
    else (if ids[0] in files then [] else [ids[0]]) + NotRun(ids[1..], files)
  }

  function SummaryOf(ids: seq<Id>, files: map<Id, Record>, valid: bool): Summary {
    var records := Stored(ids, files);
    Summary(
      valid,
      NotRun(ids, files),
      Ids(records, (r: Record) => !r.completed),
      Ids(records, (r: Record) => r.completed && !IsMeasured(r)),
      Ids(records, (r: Record) => r.completed && IsMeasured(r)),
      Ids(records, (r: Record) => r.completed && r.passed),
      Ids(records, (r: Record) => r.completed && !r.passed),
      records)
  }

  /** Every file names the scenario it belongs to; `load_record` gives nothing for any other. */
  ghost predicate FilesNamed(files: map<Id, Record>) {
    forall s | s in files :: files[s].id == s
  }

  lemma {:induction false} IdsAreThoseKept(ids: seq<Id>, files: map<Id, Record>, keep: Record -> bool)
    requires FilesNamed(files)
    ensures Ids(Stored(ids, files), keep) == Kept(ids, s => s in files && keep(files[s]))
  {
    if ids != [] {
      IdsAreThoseKept(ids[1..], files, keep);
      var rest := Stored(ids[1..], files);
      assert ids[0] in files ==> ([files[ids[0]]] + rest)[1..] == rest;
      assert ids[0] !in files ==> [] + rest == rest;
    }
  }

  lemma {:induction false} NotRunAreThoseKept(ids: seq<Id>, files: map<Id, Record>)
    ensures NotRun(ids, files) == Kept(ids, s => s !in files)
  {
    if ids != [] {
      NotRunAreThoseKept(ids[1..], files);
    }
  }

  /** The ids that satisfy `p`, in order. */
  function Kept(ids: seq<Id>, p: Id -> bool): seq<Id> {
    if ids == [] then [] else (if p(ids[0]) then [ids[0]] else []) + Kept(ids[1..], p)
  }

  lemma {:induction false} KeptCount(ids: seq<Id>, p: Id -> bool, x: Id)
    ensures multiset(Kept(ids, p))[x] == if p(x) then multiset(ids)[x] else 0
  {
    if ids != [] {
      KeptCount(ids[1..], p, x);
      assert ids == [ids[0]] + ids[1..];
    }
  }

  /** Four conditions of which each id meets exactly one split the list into four, losing nothing. */
  lemma FourWaySplit(ids: seq<Id>, p: Id -> bool, q: Id -> bool, r: Id -> bool, t: Id -> bool)
    requires forall s | s in ids ::
               (if p(s) then 1 else 0) + (if q(s) then 1 else 0) + (if r(s) then 1 else 0)
               + (if t(s) then 1 else 0) == 1
    ensures multiset(Kept(ids, p)) + multiset(Kept(ids, q)) + multiset(Kept(ids, r)) + multiset(Kept(ids, t))
            == multiset(ids)
  {
    var parts := multiset(Kept(ids, p)) + multiset(Kept(ids, q)) + multiset(Kept(ids, r)) + multiset(Kept(ids, t));
    forall x ensures parts[x] == multiset(ids)[x] {
      KeptCount(ids, p, x);
      KeptCount(ids, q, x);
      KeptCount(ids, r, x);
      KeptCount(ids, t, x);
      assert x in ids <==> multiset(ids)[x] > 0;
    }
  }

  /** Whatever batches were run, the set is partitioned: every scenario of it is in exactly one of not run,
      generation failures, extraction failures and measured. */
  lemma SetIsPartitioned(ids: seq<Id>, files: map<Id, Record>, valid: bool)
    requires FilesNamed(files)
    ensures var s := SummaryOf(ids, files, valid);
            multiset(s.notRun) + multiset(s.generationFailures) + multiset(s.extractionFailures) + multiset(s.measured)
            == multiset(ids)
  {
    var failed := (r: Record) => !r.completed;
    var unread := (r: Record) => r.completed && !IsMeasured(r);
    var measured := (r: Record) => r.completed && IsMeasured(r);
    NotRunAreThoseKept(ids, files);
    IdsAreThoseKept(ids, files, failed);
    IdsAreThoseKept(ids, files, unread);
    IdsAreThoseKept(ids, files, measured);
    FourWaySplit(ids, s => s !in files, s => s in files && failed(files[s]), s => s in files && unread(files[s]),
                 s => s in files && measured(files[s]));
  }

  // -- batches -----------------------------------------------------------------------------------------------------

  /** One invocation: the scenarios it selected and what would happen to each of them. */
  datatype Batch = Batch(selected: seq<Id>, provenance: Option<Captured>, resume: bool,
                         outcomes: map<Id, Attempted>, rechecks: map<Id, Recheck>)
  {
    predicate WellFormed() {
      forall s | s in selected :: s in outcomes && s in rechecks
    }

    function RecordOf(s: Id): Record
      requires s in outcomes && s in rechecks
    {
      BuildRecord(s, ReportOf(outcomes[s]), provenance, UnchangedSince(rechecks[s], SourceId(provenance)))
    }

    /** Whether the batch runs `s` into a directory holding `files`. */
    predicate Runs(s: Id, files: map<Id, Record>) {
      s in selected && !(resume && s in files && IsMeasured(files[s]))
    }
  }

  /** A batch and the life of its process: `dies` is after how many results it dies, if it does, and `unsummarized`
      says that it dies before the summary is rebuilt after the last of them. */
  datatype Invocation = Invocation(batch: Batch, dies: Option<nat>, unsummarized: bool) {
    /** How many of `n` pending results it lives to write. */
    function Done(n: nat): (k: nat)
      ensures k <= n
    {
      if dies.Some? && dies.value < n then dies.value else n
    }

    /** How many of them the last summary it writes has seen. */
    function Summarized(n: nat): (k: nat)
      ensures k == Done(n) || k + 1 == Done(n)
    {
      if dies.Some? && dies.value <= n && unsummarized && dies.value > 0 then dies.value - 1 else Done(n)
    }

    predicate Finishes(n: nat) {
      dies.None? || dies.value > n
    }
  }

  /** The scenarios a batch has still to run, taken before the first of them is. */
  function Pending(batch: Batch, files: map<Id, Record>): seq<Id> {
    Kept(batch.selected, s => batch.Runs(s, files))
  }

  lemma {:induction false} KeptExactly(ids: seq<Id>, p: Id -> bool)
    ensures forall s :: s in Kept(ids, p) <==> s in ids && p(s)
  {
    if ids != [] {
      KeptExactly(ids[1..], p);
      assert ids == [ids[0]] + ids[1..];
    }
  }

  lemma PendingExactly(batch: Batch, files: map<Id, Record>)
    ensures forall s :: s in Pending(batch, files) <==> batch.Runs(s, files)
  {
    KeptExactly(batch.selected, s => batch.Runs(s, files));
  }

  /** The files after the results of `ids`, in turn. */
  function Filled(files: map<Id, Record>, batch: Batch, ids: seq<Id>): (r: map<Id, Record>)
    requires forall s | s in ids :: s in batch.outcomes && s in batch.rechecks
    ensures FilesNamed(files) ==> FilesNamed(r)
  {
    if ids == [] then files
    else Filled(files, batch, ids[..|ids| - 1])[ids[|ids| - 1] := batch.RecordOf(ids[|ids| - 1])]
  }

  /** The files after the first `k` results of a batch. */
  function AfterResults(files: map<Id, Record>, batch: Batch, k: nat): (r: map<Id, Record>)
    requires batch.WellFormed() && k <= |Pending(batch, files)|
    ensures FilesNamed(files) ==> FilesNamed(r)
  {
    PendingExactly(batch, files);
    assert forall s | s in Pending(batch, files)[..k] :: s in Pending(batch, files);
    Filled(files, batch, Pending(batch, files)[..k])
  }

  lemma NextResult(files: map<Id, Record>, batch: Batch, k: nat)
    requires batch.WellFormed() && k < |Pending(batch, files)|
    ensures var s := Pending(batch, files)[k];
            && s in batch.outcomes && s in batch.rechecks
            && AfterResults(files, batch, k + 1) == AfterResults(files, batch, k)[s := batch.RecordOf(s)]
  {
    var pending := Pending(batch, files);
    PendingExactly(batch, files);
    assert pending[k] in pending && pending[..k + 1][..k] == pending[..k];
  }

  /** The files after one invocation: without a complete provenance nothing is run. */
  function After(files: map<Id, Record>, run: Invocation, required: set<string>): (r: map<Id, Record>)
    requires run.batch.WellFormed()
    ensures FilesNamed(files) ==> FilesNamed(r)
  {
    if Problems(run.batch.provenance, required) != {} then files
    else AfterResults(files, run.batch, run.Done(|Pending(run.batch, files)|))
  }

  function AfterAll(files: map<Id, Record>, runs: seq<Invocation>, required: set<string>): (r: map<Id, Record>)
    requires forall run | run in runs :: run.batch.WellFormed()
    ensures FilesNamed(files) ==> FilesNamed(r)
  {
    if runs == [] then files else After(AfterAll(files, runs[..|runs| - 1], required), runs[|runs| - 1], required)
  }

  /** Each result written replaces the file it had, and no other file changes. */
  lemma {:induction false} FilledExactly(files: map<Id, Record>, batch: Batch, ids: seq<Id>)
    requires forall s | s in ids :: s in batch.outcomes && s in batch.rechecks
    ensures forall s :: s in Filled(files, batch, ids) <==> s in files || s in ids
    ensures forall s | s in ids :: Filled(files, batch, ids)[s] == batch.RecordOf(s)
    ensures forall s | s in files && s !in ids :: Filled(files, batch, ids)[s] == files[s]
  {
    if ids != [] {
      var n := |ids| - 1;
      FilledExactly(files, batch, ids[..n]);
      assert ids == ids[..n] + [ids[n]];
    }
  }

  /** A batch that lives to its end runs exactly the selected scenarios, less those a resume finds measured. */
  lemma AfterExactly(files: map<Id, Record>, run: Invocation, required: set<string>)
    requires run.batch.WellFormed() && Problems(run.batch.provenance, required) == {} && run.dies.None?
    ensures forall s :: s in After(files, run, required) <==> s in files || run.batch.Runs(s, files)
    ensures forall s | run.batch.Runs(s, files) :: After(files, run, required)[s] == run.batch.RecordOf(s)
    ensures forall s | s in files && !run.batch.Runs(s, files) :: After(files, run, required)[s] == files[s]
  {
    var pending := Pending(run.batch, files);
    PendingExactly(run.batch, files);
    assert pending[..|pending|] == pending;
    FilledExactly(files, run.batch, pending);
  }

  /** Wherever its process dies, a batch leaves every file it does not run as it was. */
  lemma OthersStay(files: map<Id, Record>, run: Invocation, required: set<string>)
    requires run.batch.WellFormed()
    ensures forall s | s in files :: s in After(files, run, required)
    ensures forall s | s in files && !run.batch.Runs(s, files) :: After(files, run, required)[s] == files[s]
  {
    if Problems(run.batch.provenance, required) == {} {
      var pending := Pending(run.batch, files);
      PendingExactly(run.batch, files);
      var done := pending[..run.Done(|pending|)];
      assert forall s | s in done :: s in pending;
      FilledExactly(files, run.batch, done);
    }
  }

  /** The summary of a directory that holds `files`. */
  ghost function Current(all: seq<Id>, files: map<Id, Record>, required: set<string>): Summary {
    SummaryOf(all, files, OneRun(Stored(all, files), required))
  }

  /** The last summary written, if any, when the summary has seen the first `k` results of a batch. */
  ghost function SummaryAfter(was: Option<Summary>, all: seq<Id>, before: map<Id, Record>, batch: Batch, k: nat,
                              required: set<string>): Option<Summary>
    requires batch.WellFormed() && k <= |Pending(batch, before)|
  {
    if k == 0 then was else Some(Current(all, AfterResults(before, batch, k), required))
  }

  class ResultDirectory {
    var files: map<Id, Record>
    var summary: Option<Summary>

    constructor ()
      ensures files == map[] && summary == None
    {
      files, summary := map[], None;
    }

    /** `write_summary`: rebuilt from the files. */
    method WriteSummary(all: seq<Id>, required: set<string>)
      modifies this`summary
      ensures summary == Some(Current(all, files, required))
    {
      var reasons := RunInvalidReasons(Stored(all, files), required);
      summary := Some(SummaryOf(all, files, reasons == {}));
    }

    /** One pending scenario's result, and the summary rebuilt after it, unless the process dies in between. */
    method RunNext(batch: Batch, k: nat, cut: bool, all: seq<Id>, required: set<string>, ghost before: map<Id, Record>,
                   s: Id)
      requires batch.WellFormed() && k < |Pending(batch, before)| && s == Pending(batch, before)[k]
      requires files == AfterResults(before, batch, k)
      modifies this
      ensures files == AfterResults(before, batch, k + 1)
      ensures summary == if cut then old(summary) else Some(Current(all, files, required))
    {
      NextResult(before, batch, k);
      files := files[s := batch.RecordOf(s)];
      if !cut {
        WriteSummary(all, required);
      }
    }

    /** The pending scenarios, strictly one after another, as far as the process lives. */
    method RunPending(run: Invocation, all: seq<Id>, required: set<string>) returns (alive: bool)
      requires run.batch.WellFormed() && Problems(run.batch.provenance, required) == {}
      modifies this
      ensures files == After(old(files), run, required)
      ensures alive <==> run.Finishes(|Pending(run.batch, old(files))|)
      ensures summary == SummaryAfter(old(summary), all, old(files), run.batch,
                                      run.Summarized(|Pending(run.batch, old(files))|), required)
    {
      ghost var before := files;
      var pending := Pending(run.batch, files);
      var i := 0;
      while i < run.Done(|pending|)
        invariant 0 <= i <= run.Done(|pending|) && files == AfterResults(before, run.batch, i)
        invariant summary == SummaryAfter(old(summary), all, before, run.batch,
                                          if i == run.Done(|pending|) then run.Summarized(|pending|) else i, required)
      {
        var cut := run.Summarized(|pending|) == i;
        assert i + 1 == run.Done(|pending|) || !cut;
        RunNext(run.batch, i, cut, all, required, before, pending[i]);
        i := i + 1;
      }
      return run.Finishes(|pending|);
    }

    /** `run_benchmark`. The files are those `After` says; at its end a batch that lived has rebuilt the
        summary, whatever it ran. */
    method RunBatch(run: Invocation, all: seq<Id>, required: set<string>) returns (finished: bool)
      requires run.batch.WellFormed()
      modifies this
      ensures files == After(old(files), run, required)
      ensures finished <==>
                Problems(run.batch.provenance, required) == {} && run.Finishes(|Pending(run.batch, old(files))|)
      ensures Problems(run.batch.provenance, required) != {} ==> summary == old(summary)
      ensures finished ==> summary == Some(Current(all, files, required))
    {
      if Problems(run.batch.provenance, required) != {} {
        return false;
      }
      finished := RunPending(run, all, required);
      if finished {
        WriteSummary(all, required);
      }
    }

    /** Any invocations, one after another, into the same directory. */
    method RunBatches(runs: seq<Invocation>, all: seq<Id>, required: set<string>)
      requires forall run | run in runs :: run.batch.WellFormed()
      modifies this
      ensures files == AfterAll(old(files), runs, required)
    {
      for i := 0 to |runs|
        invariant files == AfterAll(old(files), runs[..i], required)
      {
        assert runs[i] in runs && runs[..i + 1] == runs[..i] + [runs[i]];
        assert runs[..i + 1][..i] == runs[..i];
        var finished := RunBatch(runs[i], all, required);
      }
      assert runs[..|runs|] == runs;
    }
  }

  // -- what resuming can and cannot do -----------------------------------------------------------------------------

  predicate Resumes(runs: seq<Invocation>) {
    forall run | run in runs :: run.batch.WellFormed() && run.batch.resume
  }

  function MeasuredIn(files: map<Id, Record>): map<Id, Record> {
    map s | s in files && IsMeasured(files[s]) :: files[s]
  }

  /** Every scenario measured, and all of them one run. */
  ghost predicate WholeRun(files: map<Id, Record>, all: seq<Id>, required: set<string>) {
    && (forall s | s in all :: s in files && IsMeasured(files[s]))
    && OneRun(Stored(all, files), required)
  }

  /** No resumed invocation, wherever its process dies, changes a measured record or loses any record. */
  lemma {:induction false} MeasuredStay(files: map<Id, Record>, runs: seq<Invocation>, required: set<string>)
    requires Resumes(runs)
    ensures forall s | s in files :: s in AfterAll(files, runs, required)
    ensures forall s | s in files && IsMeasured(files[s]) :: AfterAll(files, runs, required)[s] == files[s]
  {
    if runs != [] {
      var n := |runs| - 1;
      MeasuredStay(files, runs[..n], required);
      assert runs[n] in runs;
      OthersStay(AfterAll(files, runs[..n], required), runs[n], required);
    }
  }

  lemma FewerAreOneRun(some: seq<Record>, more: seq<Record>, required: set<string>)
    requires OneRun(more, required) && forall r | r in some :: r in more
    ensures OneRun(some, required)
  {}

  /** If the results can be one run after some resumed invocations, the measured ones already are. */
  lemma WhatIsMeasuredDecides(files: map<Id, Record>, runs: seq<Invocation>, all: seq<Id>, required: set<string>)
    requires Resumes(runs) && OneRun(Stored(all, AfterAll(files, runs, required)), required)
    ensures OneRun(Stored(all, MeasuredIn(files)), required)
  {
    MeasuredStay(files, runs, required);
    var after := AfterAll(files, runs, required);
    forall r | r in Stored(all, MeasuredIn(files)) ensures r in Stored(all, after) {
      var s :| s in all && s in MeasuredIn(files) && MeasuredIn(files)[s] == r;
      assert s in after && after[s] == r;
    }
    FewerAreOneRun(Stored(all, MeasuredIn(files)), Stored(all, after), required);
  }

  /** A complete provenance: that of a measured record of the set, if there is one. */
  function RepairProvenance(measured: seq<Record>, required: set<string>): Option<Captured> {
    if measured != [] then measured[0].provenance
    else Some(Captured(Some(Configuration(Some("c"), required)), Some(Source(Some("h"), Some("f")))))
  }

  /** What is missing, run again under that provenance, each to a measured result. */
  function Repair(files: map<Id, Record>, all: seq<Id>, required: set<string>): Batch {
    Batch(all, RepairProvenance(Stored(all, MeasuredIn(files)), required), true,
          map s | s in all :: Reported(Report(false, Some(true), true)), map s | s in all :: NotAsked)
  }

  lemma RepairProvenanceIsComplete(measured: seq<Record>, required: set<string>)
    requires OneRun(measured, required)
    ensures Problems(RepairProvenance(measured, required), required) == {}
    ensures forall r | r in measured ::
              ConfigurationId(r.provenance) == ConfigurationId(RepairProvenance(measured, required))
              && SourceId(r.provenance) == SourceId(RepairProvenance(measured, required))
  {
    if measured != [] {
      assert measured[0] in measured;
    } else {
      assert required - required == {};
    }
  }

  lemma RepairIsMeasured(files: map<Id, Record>, all: seq<Id>, required: set<string>)
    requires OneRun(Stored(all, MeasuredIn(files)), required)
    ensures var batch := Repair(files, all, required);
            var after := After(files, Invocation(batch, None, false), required);
            forall s | s in all ::
              && s in after && IsMeasured(after[s])
              && (after[s] in Stored(all, MeasuredIn(files)) || after[s] == batch.RecordOf(s))
  {
    var batch := Repair(files, all, required);
    var after := After(files, Invocation(batch, None, false), required);
    RepairProvenanceIsComplete(Stored(all, MeasuredIn(files)), required);
    AfterExactly(files, Invocation(batch, None, false), required);
    forall s | s in all
      ensures s in after && IsMeasured(after[s])
      ensures after[s] in Stored(all, MeasuredIn(files)) || after[s] == batch.RecordOf(s)
    {
      if !batch.Runs(s, files) {
        assert s in MeasuredIn(files) && after[s] == MeasuredIn(files)[s];
      }
    }
  }

  /** Records of one run, and new ones under its provenance, are one run. */
  lemma StillOneRun(measured: seq<Record>, more: seq<Record>, required: set<string>)
    requires OneRun(measured, required)
    requires forall r | r in more ::
               r in measured || (r.provenance == RepairProvenance(measured, required) && r.sourceUnchanged == None)
    ensures OneRun(more, required)
  {
    RepairProvenanceIsComplete(measured, required);
  }

  /** Running what is missing under the provenance of what is measured completes the run. */
  lemma RepairWorks(files: map<Id, Record>, all: seq<Id>, required: set<string>)
    requires OneRun(Stored(all, MeasuredIn(files)), required)
    ensures WholeRun(After(files, Invocation(Repair(files, all, required), None, false), required), all, required)
  {
    var batch, measured := Repair(files, all, required), Stored(all, MeasuredIn(files));
    var after := After(files, Invocation(batch, None, false), required);
    RepairIsMeasured(files, all, required);
    forall r | r in Stored(all, after)
      ensures r in measured || (r.provenance == batch.provenance && r.sourceUnchanged == None)
    {
      var s :| s in all && s in after && after[s] == r;
    }
    StillOneRun(measured, Stored(all, after), required);
  }

  ghost predicate Repairs(runs: seq<Invocation>, files: map<Id, Record>, all: seq<Id>, required: set<string>) {
    Resumes(runs) && WholeRun(AfterAll(files, runs, required), all, required)
  }

  ghost predicate RepairsAtOnce(run: Invocation, files: map<Id, Record>, all: seq<Id>, required: set<string>) {
    run.batch.WellFormed() && run.batch.resume && WholeRun(After(files, run, required), all, required)
  }

  /** Resuming can complete a directory, by any number of invocations or even by a single one, exactly when
      what is measured in it is one complete run already. */
  lemma ResumingRepairsExactly(files: map<Id, Record>, all: seq<Id>, required: set<string>)
    requires FilesNamed(files)
    ensures OneRun(Stored(all, MeasuredIn(files)), required) <==> exists runs :: Repairs(runs, files, all, required)
    ensures OneRun(Stored(all, MeasuredIn(files)), required) <==> exists run :: RepairsAtOnce(run, files, all, required)
  {
    if OneRun(Stored(all, MeasuredIn(files)), required) {
      var run := Invocation(Repair(files, all, required), None, false);
      RepairWorks(files, all, required);
      assert RepairsAtOnce(run, files, all, required);
    }
    forall run | RepairsAtOnce(run, files, all, required) ensures Repairs([run], files, all, required) {
      OnlyOne(files, run, required);
    }
    forall runs | Repairs(runs, files, all, required) ensures OneRun(Stored(all, MeasuredIn(files)), required) {
      WhatIsMeasuredDecides(files, runs, all, required);
    }
  }

  lemma OnlyOne(files: map<Id, Record>, run: Invocation, required: set<string>)
    requires run.batch.WellFormed()
    ensures forall x | x in [run] :: x.batch.WellFormed()
    ensures AfterAll(files, [run], required) == After(files, run, required)
  {
    assert [run][..0] == [];
    assert AfterAll(files, [], required) == files;
  }

  /** Otherwise no resuming makes the directory valid, whatever it adds: a measured record that spoils the run,
      for whichever reason, is never run again. */
  method ResumingCannotRepair(dir: ResultDirectory, runs: seq<Invocation>, all: seq<Id>, required: set<string>)
    requires Resumes(runs) && !OneRun(Stored(all, MeasuredIn(dir.files)), required)
    modifies dir
    ensures dir.summary.Some? && !dir.summary.value.runValid
    ensures MeasuredIn(old(dir.files)).Items <= dir.files.Items
  {
    ghost var files := dir.files;
    dir.RunBatches(runs, all, required);
    dir.WriteSummary(all, required);
    if OneRun(Stored(all, dir.files), required) {
      WhatIsMeasuredDecides(files, runs, all, required);
    }
    MeasuredStay(files, runs, required);
  }

  /** A directory that is one run shares one complete configuration and one source. */
  lemma OneRunSharesItsIdentity(records: seq<Record>, required: set<string>)
    requires records != [] && OneRun(records, required)
    ensures exists configuration: string, source: string ::
              configuration != "" && source != "" &&
              forall r | r in records ::
                ConfigurationId(r.provenance) == Some(configuration) && SourceId(r.provenance) == Some(source)
                && required <= r.provenance.value.configuration.value.settings
  {
    var first := records[0];
    assert first in records;
    var configuration, source := ConfigurationId(first.provenance).value, SourceId(first.provenance).value;
    forall r | r in records
      ensures ConfigurationId(r.provenance) == Some(configuration) && SourceId(r.provenance) == Some(source)
      ensures required <= r.provenance.value.configuration.value.settings
    {
      Complete(r.provenance, required);
    }
    Complete(first.provenance, required);
    assert configuration != "" && source != "";
  }

  lemma Complete(c: Option<Captured>, required: set<string>)
    requires Problems(c, required) == {}
    ensures Given(ConfigurationId(c)) && Given(SourceId(c)) && required <= c.value.configuration.value.settings
  {
    var absent := required - c.value.configuration.value.settings;
    assert AbsentSettings(absent) !in Problems(c, required);
    assert NoConfiguration !in Problems(c, required) && NoSource !in Problems(c, required);
    forall x | x in required ensures x in c.value.configuration.value.settings {
      assert x !in absent;
    }
  }
}
