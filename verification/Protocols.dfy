/** The values the acceptance run works on: the frozen protocol, the files of its folders and the
    entries of its audit log. SHA-256 is a datatype that wraps what it is the digest of. */
module Protocols {
  import opened Wrappers

  type ScenarioId = string

  datatype Service = Geoapify | OpenMeteo | NagerDate | Frankfurter | Kiwi | Groq | Gemini

  predicate IsLlm(s: Service) {
    s == Groq || s == Gemini
  }

  /** Python's `Counter`: a missing key counts zero. */
  type Counter = map<Service, nat>

  function Count(c: Counter, s: Service): nat {
    if s in c then c[s] else 0
  }

  function LlmCount(c: Counter): nat {
    Count(c, Groq) + Count(c, Gemini)
  }

  /** How often `x` occurs in `xs`. */
  function Times<T(==)>(xs: seq<T>, x: T): nat {
    if xs == [] then 0 else (if xs[0] == x then 1 else 0) + Times(xs[1..], x)
  }

  lemma {:induction false} TimesConcat<T>(xs: seq<T>, ys: seq<T>, x: T)
    ensures Times(xs + ys, x) == Times(xs, x) + Times(ys, x)
  {
    if xs == [] {
      assert xs + ys == ys;
    } else {
      assert (xs + ys)[1..] == xs[1..] + ys;
      TimesConcat(xs[1..], ys, x);
    }
  }

  /** 1, 2, ..., n. */
  function UpTo(n: nat): set<nat> {
    if n == 0 then {} else UpTo(n - 1) + {n}
  }

  lemma {:induction false} UpToHolds(n: nat)
    ensures |UpTo(n)| == n
    ensures forall k: nat :: k in UpTo(n) <==> 1 <= k <= n
  {
    if n > 0 {
      UpToHolds(n - 1);
    }
  }

  /** The parts of `protocol.json` the run reads: the frozen set, the per-attempt limits, the
      cumulative totals and the bounds on attempts and resumes. `sortKeys` stands for the presentation
      seed: the digest of seed and id by which the packets are ordered, ties included. */
  datatype Protocol = Protocol(
    scenarios: seq<ScenarioId>,
    caps: map<Service, nat>,
    llmCap: nat,
    creditCap: nat,
    totals: map<Service, nat>,
    llmTotal: nat,
    creditTotal: nat,
    maxPerScenario: nat,
    maxAttempts: nat,
    maxResumes: nat,
    sortKeys: map<ScenarioId, int>)
  {
    /** Scenario ids are unique, and every capped data service has a cumulative total. */
    predicate WellFormed() {
      && Distinct(scenarios)
      && forall s | s in caps && !IsLlm(s) && caps[s] > 0 :: s in totals
    }
  }

  // -- files ---------------------------------------------------------------------------------------

  datatype Kind = Started | Final | Abandoned

  /** A file of a result folder, named by its role; distinct scenario ids have distinct slugs.
      `ManifestIn(dir)` is any file whose last name is MANIFEST.sha256. */
  datatype Path =
    | AttemptFile(scenario: ScenarioId, number: nat, kind: Kind)
    | ScenarioRecord(scenario: ScenarioId)
    | TravelerView(scenario: ScenarioId)
    | UsageFile
    | SummaryFile
    | Packet(code: nat)
    | Unblinding
    | Scoresheet
    | ManifestIn(dir: seq<string>)
    | Other(dir: seq<string>, name: string)

  datatype Outcome = Result | TechnicalFailure | Interrupted

  /** A recorded failure: the type of an exception. The first three mean "no result yet". */
  datatype Failure = InterruptedByGuard | NotStarted | BudgetExhaustion | OtherFailure(name: string)

  predicate IsNotResult(f: Option<Failure>) {
    f.Some? && !f.value.OtherFailure?
  }

  /** The final record of one attempt. */
  datatype Record = Record(
    scenario: ScenarioId, attempt: nat, session: nat, outcome: Outcome,
    requests: Counter, llm: nat, credits: int)

  /** The identity a process ran under: its configuration digest and its source fingerprint. */
  datatype Origin = Origin(configuration: string, source: string)

  /** A stored scenario record: what `load_record` gives back. `confirmed`: the source fingerprint was the same
      when the scenario finished. */
  datatype Stored = Stored(id: ScenarioId, completed: bool, failure: Option<Failure>, passed: bool,
                           origin: Origin, confirmed: bool)

  /** A row of the completed scoresheet: the two columns the acceptance rule reads. */
  datatype Score = Score(overall: int, factualErrors: nat)

  /** The acceptance result. Twice the median, so that the mean of two middle scores stays whole. */
  datatype Verdict = Verdict(
    runValid: bool,
    doubledMedian: Option<int>, medianMet: bool,
    belowThree: set<ScenarioId>, noneBelowThree: bool,
    automatedFailures: set<ScenarioId>, factualErrors: map<ScenarioId, nat>, noHardFailure: bool,
    byScenario: map<ScenarioId, Score>)
  {
    predicate TargetMet() {
      medianMet && noneBelowThree && noHardFailure
    }
  }

  datatype Content =
    | StartMarker(scenario: ScenarioId, attempt: nat, session: nat)
    | FinalRecord(record: Record)
    | AbandonedNote(scenario: ScenarioId, attempt: nat, session: nat)
    | StoredRecord(stored: Stored)
    | Summary(runValid: bool, notRun: seq<ScenarioId>)
    | Manifest(listing: map<Path, Sha>)
    | Mapping(codes: seq<ScenarioId>)
    | Scores(rows: map<nat, Score>)
    | Acceptance(verdict: Verdict)
    | Text(text: string)

  datatype Sha = Sha(of: Content)

  type Folder = map<Path, Content>

  // -- the cumulative budget's vocabulary ----------------------------------------------------------

  datatype Meter = Requests(service: Service) | LlmCombined | GeoapifyCredits | Attempts

  type Usage = map<Meter, int>

  datatype Short = Over(meter: Meter) | AttemptsPerScenario

  // -- log entries ---------------------------------------------------------------------------------

  datatype Event =
    | SessionStarted(session: nat, protocol: Protocol, resume: bool, pending: seq<ScenarioId>,
                     usage: Usage)
    | AttemptEvent(kind: Kind, session: nat, scenario: ScenarioId, attempt: nat, file: Path, sha: Sha)
    | BudgetExhausted(session: nat, scenario: ScenarioId, short: set<Short>)
    | SessionEnded(session: nat)
    | RunVoid
    | RunManifest(session: nat, sha: Sha, usage: Usage)
    | DeclarationLocked(sha: Sha)
    | ReviewManifest(sha: Sha, unblinding: Sha)
    | SubmissionLocked(manifest: Sha, scoresheet: Sha)
    | AcceptanceRecorded(sha: Sha)
}
