# Verification of the acceptance run, the mailbox challenge and their supports

The quality acceptance run is a protocol that may be started, interrupted, killed and resumed, that spends a fixed
budget of provider requests, and whose evidence must still be worth something afterwards. This project models it and
proves what holds of it over every history, together with the mailbox challenge behind locked-out account deletion and
four smaller parts of the evaluation tooling.

## What is modelled

**The run** (`Protocols` to `History`). A `World` is what the run leaves behind: the hash-chained log, the result
folder, the folders of the later phases, and `wire`, every request that really went out. `wire` is the world's own
record; no program step reads it. `Workspaces.Workspace` holds that state, and every durable effect of the program is
one method of it which may be the last thing the process does. `Runner`, `Batches`, `Sessions` and `Review` are the
program on top: `run_one` effect by effect, `run_benchmark`, `run_session`, `declare`, `build_packets`, `submit`,
`score`. `History.AnyHistory` runs any list of commands, with any behaviour of the providers, each process free to die
anywhere. A workspace that is not `mortal` holds processes that never die, and for those every method is proved to
reach its end.

The proof has two layers. `Grammar.Allowed` says from the log alone which entry may come next, and a *legal* log is one
built entry by entry that way; `LegalLogs` and `RunTheorems` prove what every legal log obeys. `Worlds.Inv` ties the
folders and the wire to a legal log; the program, which decides from counters in memory, is proved to keep `Inv` at
every moment, a crash at any moment included. So everything proved of legal logs holds of every reachable one. The
checks of a resume and the four locked phases are proved on any disk, whatever was done to it: what does not verify is
refused with nothing changed.

**The challenge** (`Challenges`). A state machine with one move per durable or observable effect, a safety invariant of
every run, and `Desk`, whose methods are the tool's commands and whose every effect is recorded as an enabled move. A
run may stop after any move, so a death between the deletion and saving the used mark is among them.

**The supports.** `Provenance` (the source fingerprint and the reading of git's status), `Benchmark` (batches of
scenarios into one result directory), `ItineraryDiff` (what a regenerated plan adds, removes and moves).

## What was found

- *Credits.* The code adds any integer a provider reports, so the cumulative credit check cannot hold by itself:
  one session with one attempt can pass the total (`Credits.UncheckedReportPassesTheTotal`). Under the frozen figures
  the total is kept in every run whose reports are at most a given bound exactly if that bound is at most the
  per-generation cap (`Credits.CreditTotalHoldsExactly`). Request and attempt totals need no such assumption.
- *Twelve attempts.* The documentation's argument is right, and slightly more is true: the interruption rule alone
  keeps every run within scenarios + resumes attempts (`WhyTwelve`), and with the frozen figures, and no credit report
  above its cap, the cumulative limits never refuse an attempt that is otherwise due (`FrozenBudgetNeverRefuses`).
- *Manifests.* `docs/37_final_quality_acceptance_v3.md` and the docstring speak of every file of a folder. The code
  compares the last name of the path, so a file called `MANIFEST.sha256` in a subfolder is neither listed nor checked
  (`Manifests.NestedManifestIsNotSeen`); folders that verify under one digest are equal exactly when those files are
  (`ManifestPinsTheFolder`).
- *Scoring.* If the process dies between writing the acceptance result and entering it in the log, scoring again
  accepts the file but never enters it: after an answer the entry is there exactly if there was no result file before,
  or the entry was there already (`Review.ScoreSubmission`, `ScoringNeverCatchesUp`). The answer itself cannot differ:
  the head of the log decides it (`HeadDecidesTheVerdict`).
- *Truncation.* The chain alone cannot show that final entries were removed; the head recorded elsewhere does
  (`AuditLogs.TruncationChangesOnlyTheHead`).
- *Status.* A rename that git shows in the second column has its original path read as one more entry. Entries are
  read where the reported changes begin, all of them and nowhere else, exactly when there is no such rename with an
  original path of four characters or more (`Provenance.StatusIsReadRightExactly`, whatever the paths are). If that
  original path begins with R or C, as in README.md, the entry after it is swallowed as well: a change can be lost
  (`MisreadLosesAChange`), or the lists come out right by chance (`MisreadByLuckRight`); otherwise each misreading
  adds one path. Whether the tree is dirty is never misjudged (`DirtyExactly`), but whether a fingerprinted path is
  can be: `ScopeIsCleanExactly` says for every output when none is flagged, and `ScopeIsMissed` is a changed file of the
  application that goes unflagged.
- *Resuming a benchmark.* Resuming, once or many times, can make a directory one complete run exactly when what is
  measured in it is one complete run already (`Benchmark.ResumingRepairsExactly`). A measured record that spoils the
  run, because the source changed under it, because it is of another configuration or source, or because its
  provenance is incomplete, is never run again.
- *Reserved failures.* When the guard has not stopped, every attempt is entered as a result or a technical failure.
  If the generation itself throws or reports one of the three failures that mean "no result yet", the record beside it
  says there is none: exactly then the evidence of a session stops matching and the run is void
  (`Sessions.EvidenceMatchesExactly`).
- *Dead ends.* Once an attempt file that the log does not know is on disk, no command ever extends the log again, but
  for the void of a run whose resumes are used up; and a later phase that was begun after its predecessor's entry, and
  died before its own, allows nothing at all (`History.AnyHistory`, `ResumesExactly`). The documentation says so of
  attempt files only.
- *Diff.* A plan owns a day if it lists the ids of that day once, and on no later day. Against every plan that owns the
  day a change of it has something to show for it exactly when the first plan owns it too (`ItineraryDiff.OwnsExactly`,
  `OwnsExactlyAfter`); `RepeatedIdHidesAChange` is a small case in which it has not.

## Assumptions

- SHA-256, HMAC and scrypt are injective: a digest is a datatype that wraps what it is the digest of.
- Each durable effect is atomic (written whole or not at all) and durable; a storage error is the death of the process.
  `Guard.admit` is one step. Making a parent directory is not a separate effect.
- One process at a time works on a run; the challenge store is used under its lock.
- Log lines and file names contain no line terminators. Scenario ids are distinct and so are their slugs.
- Time does not run backwards from one challenge command to the next. User ids and request ids are never given out
  twice.
- Addresses and typed codes are ASCII.

## Model

| member | source | states |
|---|---|---|
| AuditLogs.AuditLog.Read | backend/scripts/quality_acceptance_v3.py:191-211 | the entries and head of an unbroken chain; otherwise the first line that fails, with everything before it accepted and the reason |
| AuditLogs.AuditLog.Append | backend/scripts/quality_acceptance_v3.py:213-222 | refuses a broken log unchanged; otherwise exactly the new entry is added, the chain stays unbroken and the new head is returned |
| AuditLogs.AppendedIsAccepted | backend/scripts/quality_acceptance_v3.py:213-222 | appending keeps acceptance and extends the entries by exactly the new one |
| AuditLogs.HeadCommits | backend/scripts/quality_acceptance_v3.py:184-205 | two accepted logs with one head are equal line by line |
| AuditLogs.TamperingIsRejected | backend/scripts/quality_acceptance_v3.py:184-205 | any change, removal, insertion or reordering that leaves the last line standing is rejected |
| AuditLogs.TruncationChangesOnlyTheHead | backend/scripts/quality_acceptance_v3.py:191-205 | a log with final lines removed is still accepted, and its head differs from the recorded one |
| RequestGuards.Guard.Admit | backend/scripts/verify_m2_phase2.py:179-193 | the guard's whole new state and its answer, counters of refusals and packages included |
| RequestGuards.Guard.Observe | backend/scripts/verify_m2_phase2.py:195-198 | the status is counted, and the first 401, 403 or data-provider 429 stops the guard for good |
| RequestGuards.Guard.Rearm | backend/scripts/quality_acceptance_v3.py:575-578 | before an attempt the caps are set and the counters cleared, while a stop survives; the caps then hold |
| RequestGuards.CapsAlwaysHold | backend/scripts/verify_m2_phase2.py:179-193 | over any requests and answers no service passes its cap and the models together do not pass theirs, and the counters are exactly what went out |
| RequestGuards.StopSticks | backend/scripts/verify_m2_phase2.py:179-198 | after the first stop nothing goes out and the recorded reason never changes, whatever is asked or answered |
| RequestGuards.FirstStop | backend/scripts/verify_m2_phase2.py:179-198 | a guard that stops does so at one step, and everything it lets out went out before that step |
| Budgets.UsageOf | backend/scripts/quality_acceptance_v3.py:453-457 | the loop gives the sum over all attempts, unfinished ones at their full caps |
| Budgets.ChargeAtMostCap | backend/scripts/quality_acceptance_v3.py:433-450 | a recorded attempt within its caps, its credit report included, never costs more than an unfinished one, so a later record only lowers what was counted |
| Budgets.SpentAtMostCaps | backend/scripts/quality_acceptance_v3.py:433-457 | any number of attempts within the caps, credit reports included, spends at most that many times the cap |
| Budgets.ShortfallIsExact | backend/scripts/quality_acceptance_v3.py:460-477 | whatever was used so far, nothing is short if and only if one more attempt at full caps stays within every total the check looks at and within the scenario's own limit |
| LegalLogs.LegalIsOk | backend/scripts/quality_acceptance_v3.py:552-613 | every legal log keeps its attempts numbered, owned by their sessions, separated by results and within all totals |
| LegalLogs.ResultStays | backend/scripts/quality_acceptance_v3.py:586-611 | a result, once entered, is never lost by any later entry |
| Ledger.ReadLedger | backend/scripts/quality_acceptance_v3.py:375-409 | the attempts are the replay of the log, each with its final record if that is on disk unchanged; what is reported is exactly every missing start, missing or changed file, wrong numbering and file the log does not know; and with nothing to report the records are those the log commits to |
| Ledger.CheckSlot | backend/scripts/quality_acceptance_v3.py:387-401 | one attempt's problems: exactly a missing start and each file it refers to that is missing or changed |
| Ledger.CheckNumbers | backend/scripts/quality_acceptance_v3.py:402-405 | a problem for exactly the scenarios whose attempt numbers are not 1 to their count |
| Ledger.CheckFiles | backend/scripts/quality_acceptance_v3.py:386-401 | exactly the problems of every attempt, and exactly the files they refer to |
| Ledger.LedgerProblems | backend/scripts/quality_acceptance_v3.py:412-426 | for any records: exactly the scenarios with more than one finished result, with a result that is not stored, and with a stored result that no attempt produced; with the log's own records there is none if and only if store and attempts agree |
| Ledger.EvidenceIsPinned | backend/scripts/quality_acceptance_v3.py:375-409 | two folders that one log finds clean hold the same attempt files with the same contents |
| Ledger.CleanExactly | backend/scripts/quality_acceptance_v3.py:375-409 | for a legal log the check is one equation: the attempt files on disk are the files the log refers to, with the contents it commits to |
| Ledger.NotResultsAgree | backend/scripts/quality_acceptance_v3.py:480-493 | when ledger and store agree, the scenarios a resume takes are exactly those without a result in the log, in order |
| RunTheorems.TotalsAreNeverPassed | backend/scripts/quality_acceptance_v3.py:460-477 | at every point of every run each cumulative total holds with all unfinished attempts at full caps; for credits, provided each report is at most its cap |
| Credits.UncheckedReportPassesTheTotal | backend/scripts/quality_acceptance_v3.py:599-601 | under the frozen figures, for any ten scenarios, there is a run of one session and one attempt whose reported figure passes the credit total |
| Credits.CreditTotalHoldsExactly | backend/scripts/quality_acceptance_v3.py:433-477 | under the frozen figures the credit total is kept in every run whose reports are at most a bound if and only if the bound is at most the per-generation cap |
| Credits.TwelveAttempts | backend/scripts/quality_acceptance_v3.py:552-613 | for any figure from the cap up there is a run of three sessions and twelve attempts, eleven reports at the cap and the twelfth at that figure, and what it spends |
| RunTheorems.ShortStaysShort | backend/scripts/quality_acceptance_v3.py:552-559 | once a cumulative label is short with no attempt under way, no attempt entry ever follows |
| RunTheorems.OneResultPerScenario | backend/scripts/quality_acceptance_v3.py:412-426 | after an attempt of a scenario is entered as a result or technical failure, no attempt of it starts and no second result of it is entered, in any session |
| RunTheorems.NoSecondResult | backend/scripts/quality_acceptance_v3.py:412-426 | with a result entered, the next entry is neither a start nor a result of that scenario |
| RunTheorems.AttemptsAreNumbered | backend/scripts/quality_acceptance_v3.py:555-573 | the attempts of each scenario are numbered 1, 2, 3 and so on in the order they started, within the limit, and no number is used twice |
| RunTheorems.SessionsAreBounded | backend/scripts/quality_acceptance_v3.py:680-683 | at most one run and the permitted resumes, and every attempt belongs to one of these sessions |
| RunTheorems.OnlyTheLastIsLost | backend/scripts/quality_acceptance_v3.py:552-554 | sessions do not overlap, and in each only the last attempt can be other than a result |
| RunTheorems.ResultsAndLosses | docs/37_final_quality_acceptance_v3.md:142-146 | the attempts are exactly the results, one per scenario, and the losses, one per session |
| RunTheorems.RoomBeforeStart | evaluation/quality_v3/protocol.json:142-147 | whenever an attempt may start, fewer than scenarios + resumes have started, and of its scenario at most as many as there are resumes |
| RunTheorems.WhyTwelve | docs/37_final_quality_acceptance_v3.md:142-146 | no run has more than scenarios + resumes attempts, whatever the cumulative limits are |
| RunTheorems.FrozenBudgetNeverRefuses | evaluation/quality_v3/protocol.json:109-167 | with the frozen figures, as long as no credit report was above its cap, nothing is ever short for an attempt that is otherwise due |
| RunTheorems.PhasesInOrder | backend/scripts/quality_acceptance_v3.py:663-753 | the terminal entry and the locked phases come at most once and in order, nothing of the run follows the terminal entry, and nothing at all follows a void |
| RunTheorems.PhasesNeedTheirPredecessor | backend/scripts/quality_acceptance_v3.py:935-1175 | each phase entry has its predecessor in the log, back to the run's manifest |
| Worlds.CleanUnlessOrphaned | backend/scripts/quality_acceptance_v3.py:375-409 | in every reachable state the ledger reports no problem if and only if no attempt file is on disk that the log does not know |
| Worlds.AttemptLogged | backend/scripts/quality_acceptance_v3.py:570-571 | entering an attempt file that was just written restores the exact match of folder and log and keeps everything else |
| Worlds.PhaseLogged | backend/scripts/quality_acceptance_v3.py:935-1175 | a phase entry for an artifact already in place keeps every earlier artifact verified and adds its own |
| Workspaces.Workspace.WriteOnce | backend/scripts/quality_acceptance_v3.py:172-181 | a file that was not there is created with its content, one that is there is never replaced and the write is refused, or the process is dead and nothing happened |
| Workspaces.Workspace.Log | backend/scripts/quality_acceptance_v3.py:213-222 | one entry is added to the log, or the process is dead and nothing happened |
| Runner.BeginKeeps | backend/scripts/quality_acceptance_v3.py:561-573 | the start file never collides with an earlier one, and both its writing and its entry keep the invariant |
| Runner.WireDuringAttempt | backend/scripts/quality_acceptance_v3.py:572-584 | while an attempt is open, its full caps cover whatever the guard has let out so far |
| Runner.WireAfterAttempt | backend/scripts/quality_acceptance_v3.py:586-611 | with its record entered an attempt counts at exactly what went out |
| Runner.ScenarioRunner.SendAll | backend/scripts/quality_acceptance_v3.py:579-584 | the generation's requests go through the guard in order; whenever the process dies, what went out is what the guard lets out of the first steps, and what the counters say |
| Runner.ScenarioRunner.Attempt | backend/scripts/quality_acceptance_v3.py:561-628 | an attempt that is not cut short adds one start and one final entry, sends what the guard admits of it and nothing else, is a result exactly if the guard has not stopped, and leaves usage and counts equal to the replayed ledger |
| Runner.ScenarioRunner.RunOne | backend/scripts/quality_acceptance_v3.py:552-628 | after a stop nothing is started or sent; an attempt that might not fit is refused with nothing sent and the first refusal entered; otherwise it runs to its end; only this scenario's standing changes; the counters in memory stay the replay of log and disk; wherever it dies, what went out is what the guard lets out of the generation's first steps |
| Runner.TurnResults | backend/scripts/quality_acceptance_v3.py:552-628 | a turn changes no other scenario's standing, what it reports as a result is one in the log, and only an attempt that was not interrupted makes one |
| Sessions.CheckResume | backend/scripts/quality_acceptance_v3.py:659-688 | on any disk, altered or not, a resume goes on if and only if the chain is intact, the protocol is the first session's, nothing terminal is entered, a resume is left, and evidence and stored results match the log |
| Sessions.NoteAbandoned | backend/scripts/quality_acceptance_v3.py:631-643 | an attempt left open gets one write-once note; records, numbers and usage are unchanged and no attempt is open afterwards |
| Batches.StoreResult | backend/scripts/benchmark_quality.py:395-409 | the text report, then the record that marks the scenario as done, then the summary; unless the process dies the record is stored and the summary is that of the records; no other scenario's record changes, and log and requests are untouched |
| Batches.RunScenario | backend/scripts/benchmark_quality.py:366-409 | after a stop the scenario is stored as never started, with nothing sent or entered; when the budget is short, as refused, with nothing sent; otherwise its attempt ran to its end and what is stored is what came of it; no other scenario's record changes |
| Batches.RunBenchmark | backend/scripts/benchmark_quality.py:354-411 | without a complete provenance nothing is run or written; otherwise at the end, also of an empty batch, the summary is that of the records, every pending scenario has one, and what is said of the turns so far holds of all of them; without a death the batch reaches its end; and wherever it ends, what went out is what its turns let out, one after another |
| Batches.SoFarGrows | backend/scripts/benchmark_quality.py:366-409 | turn by turn: no other scenario's record or result changes; each scenario done has a record, and only a stop of the guard or a refusal by the budget, which is then on record, leaves one without a result; a result is stored for an attempt that was one if and only if it ended ordinarily; and under the frozen figures with reports within the cap nothing is refused |
| Batches.NothingAfterTheStop | backend/scripts/benchmark_quality.py:366-409 | over the turns of a whole session: the guard first stops at one step of one turn, everything ever sent went out before that step, and the reason stays |
| Batches.SilentOnceStopped | backend/scripts/benchmark_quality.py:366-409 | so the requests on the wire after a stopped session, a death included, are those before the stop |
| Sessions.PendingIsDue | backend/scripts/quality_acceptance_v3.py:480-493 | what is pending is exactly what has no result, each once |
| Sessions.WriteRunManifest | backend/scripts/quality_acceptance_v3.py:742-747 | the manifest and its entry lock a run in which every scenario has its one result, stored and recorded, and whose summary is that of the records |
| Sessions.CloseSession | backend/scripts/quality_acceptance_v3.py:716-753 | the run is locked only if evidence and results match and none is missing; otherwise exactly one entry is added, a void if the evidence does not match, the budget refused a scenario or no resume is left, and an end of session in every other case; after that end of session the run may be resumed, and under the frozen figures, with reports within the cap, the next session will start |
| Sessions.EndMeansStopped | backend/scripts/quality_acceptance_v3.py:730-741 | a session that ends resumable, neither complete nor void, ends so because the guard stopped |
| Sessions.EndedMayResume | backend/scripts/quality_acceptance_v3.py:732-741 | a session that ends resumable leaves a run that passes every check of a resume |
| Sessions.NextSessionFits | backend/scripts/quality_acceptance_v3.py:699-703 | under the frozen figures, with reports within the cap, one more attempt fits while a resume is left and a scenario is due |
| Sessions.EvidenceMatchesExactly | backend/scripts/quality_acceptance_v3.py:716-731 | after a session evidence, attempts and stored results match if and only if no attempt of it that was a result claimed one of the failures that mean no result yet |
| Sessions.UnstoppedCompletes | backend/scripts/quality_acceptance_v3.py:716-742 | after a session under the frozen figures, with reports within the cap, in which the guard did not stop, the evidence matches if and only if every generation that was due ended ordinarily, and then no scenario is left without a result |
| Sessions.OpenSession | backend/scripts/quality_acceptance_v3.py:659-703 | unless the process dies a session opens if and only if it may start and nothing is pending or one more attempt fits; a refusal before that changes nothing, and one for the resume limit or the budget voids the run |
| Sessions.CarryOut | backend/scripts/quality_acceptance_v3.py:704-753 | what follows once a session has opened: an incomplete provenance ends it with nothing sent; complete is said only of a locked run; otherwise the run is void, or the guard has stopped it and it may be resumed; under the frozen figures, with reports within the cap, a session that is not stopped completes the run if and only if every generation due ended ordinarily |
| Sessions.RunSession | backend/scripts/quality_acceptance_v3.py:646-753 | a session, fresh or resumed, keeps the invariant wherever it dies, only extends the log and never changes a stored result or another phase's folder; what it sends is what its turns let out; unless it dies it runs if and only if it may start, one more attempt fits and its provenance is complete, and otherwise sends nothing; it says complete only of a locked run, a run that is not complete is void or was stopped by the guard and may be resumed; under the frozen figures, with reports within the cap, a session that is not stopped completes the run if and only if every generation due ends ordinarily; a process that never dies always gets there |
| Sessions.SentNeverPassesTotals | backend/scripts/quality_acceptance_v3.py:433-477 | the requests really sent, by every process together, are at least what the final records say, at most what the ledger counts, and never pass a total |
| Sessions.LedgerIsExact | backend/scripts/quality_acceptance_v3.py:453-457 | when every attempt has its final record, the ledger counts exactly what was sent |
| Manifests.VerifiedExactly | backend/scripts/quality_acceptance_v3.py:508-520 | no problem if and only if the manifest is the listing of the folder as it now is |
| Manifests.WriteThenVerify | backend/scripts/quality_acceptance_v3.py:496-520 | what was just written verifies, whatever the folder held, and no other file changed |
| Manifests.ManifestPinsTheFolder | backend/scripts/quality_acceptance_v3.py:827-834 | two folders that verify under one recorded digest hold the same covered files and contents, and are equal if and only if their nested manifests are |
| Manifests.NestedManifestIsNotSeen | backend/scripts/quality_acceptance_v3.py:496-520 | a file named like the manifest can be added in a subfolder and the folder still verifies under the same digest |
| Packets.OrderIsSorted | backend/scripts/quality_review_packets.py:214-216 | the presentation order is sorted by the keys |
| Packets.PacketCodesAreABijection | backend/scripts/quality_review_packets.py:214-221 | for every seed, ties included, the codes 1 to n and the scenarios are in one-to-one correspondence, in the order of the keys |
| Packets.SortedAscends | backend/scripts/quality_acceptance_v3.py:1111-1112 | the values the median is taken of are in ascending order |
| Packets.MedianOfPermutation | backend/scripts/quality_acceptance_v3.py:1111-1112 | the median does not depend on the order the scores are listed in |
| Packets.FoldByScenario | backend/scripts/quality_acceptance_v3.py:1133 | the scores gathered by scenario under any truthful coding are the scenarios' own |
| Packets.FoldErrors | backend/scripts/quality_acceptance_v3.py:1117-1118 | the factual errors gathered by scenario are exactly the scenarios' own nonzero counts |
| Packets.LowScenarios | backend/scripts/quality_acceptance_v3.py:1121-1124 | the scenarios reported below three are exactly those scored below three |
| Packets.VerdictIsUnblinded | backend/scripts/quality_acceptance_v3.py:1104-1135 | the verdict computed from packets is the verdict of the scenarios' own scores, criterion by criterion |
| Packets.BlindingCannotChangeTheVerdict | backend/scripts/quality_acceptance_v3.py:1104-1135 | any two one-to-one codings that carry the same scores give the same criteria, verdict and scores by scenario |
| Review.VerifyRun | backend/scripts/quality_acceptance_v3.py:837-848 | no problem if and only if the folder verifies under the recorded manifest, the protocol is the first session's, no void is entered, and ledger and store are clean |
| Review.LockedStaysLocked | backend/scripts/quality_acceptance_v3.py:827-885 | on a disk only the program has written, from the moment of its entry every locked artifact verifies in every later state |
| Review.NoVoidOnceLocked | backend/scripts/quality_acceptance_v3.py:844-845 | a log whose phase is not void holds no void entry anywhere |
| Review.Declare | backend/scripts/quality_acceptance_v3.py:935-965 | on any disk: locks the declaration if and only if the chain is unbroken, the run stands, the text is accepted and neither a declaration nor review material exists; then exactly its file and its entry are added; in every other case it is refused with nothing changed |
| Review.BuildPackets | backend/scripts/quality_acceptance_v3.py:971-1012 | on any disk: locks the packets and the frozen seed's mapping under a manifest if and only if run and declaration stand, the locked summary says the run is valid and complete, every scenario has its result and there is no review material; otherwise refused with nothing changed |
| Review.Submit | backend/scripts/quality_acceptance_v3.py:1060-1101 | on any disk: locks the complete sheet and the returned packets in their own folder if and only if run, declaration and review stand, sheet and packets are as they must be and nothing was submitted; otherwise refused with nothing changed |
| Review.CheckScorable | backend/scripts/quality_acceptance_v3.py:1147-1160 | on any disk: scoring goes on if and only if everything locked still stands and the locked sheet is complete |
| Review.VerdictIsOfTheScenarios | backend/scripts/quality_acceptance_v3.py:1104-1175 | the recorded verdict is the acceptance rule on the scenarios' own scores |
| Review.ScoreSubmission | backend/scripts/quality_acceptance_v3.py:1138-1175 | on any disk: an answer is given only if everything locked stands, and it is the release target of the locked scores, records and summary; the result is recorded once and never replaced; after an answer its entry is in the log if and only if there was no result file before or the entry was there; a different result on disk is refused with nothing changed |
| Review.LockedFilesArePinned | backend/scripts/quality_acceptance_v3.py:827-885 | two disks under one log on which everything locked stands hold the same covered files in the run, review and submission folders, and the same declaration |
| Review.OneLogOneVerdict | backend/scripts/quality_acceptance_v3.py:1147-1175 | two such disks give one verdict |
| Review.HeadDecidesTheVerdict | docs/37_final_quality_acceptance_v3.md:429-431 | the head recorded elsewhere decides the verdict: two accepted logs with one head, on disks on which everything locked stands, give the same |
| Review.ScoreAgain | backend/scripts/quality_acceptance_v3.py:1164-1175 | scoring again, also after a death at any point of the first time, is never refused as different, and an answer once given is given again |
| Review.ScoringNeverCatchesUp | backend/scripts/quality_acceptance_v3.py:1165-1171 | with a result file and no entry, nothing changes and the entry stays missing, however often scoring is run |
| History.ResumesExactly | backend/scripts/quality_acceptance_v3.py:659-688 | a run under way may be resumed if and only if there is no attempt file the log does not know, every result is stored as it was entered, and a resume is left |
| History.OrphanedStandsStill | backend/scripts/quality_acceptance_v3.py:375-409 | with an attempt file the log does not know, no session may start and nothing verifies, under any protocol |
| History.StrandedStandsStill | backend/scripts/quality_acceptance_v3.py:935-1175 | with a later phase begun after its predecessor's entry and without its own, no session, declaration, packets or submission is possible, and scoring only repeats an answer |
| History.NothingElseMoves | backend/scripts/quality_acceptance_v3.py:646-1101 | once everything is locked no session starts and nothing can be declared, packed or submitted again, under any protocol |
| History.NeverRefusedAsDifferent | backend/scripts/quality_acceptance_v3.py:1165-1168 | where the result on disk is that of what is locked, scoring is not refused as different |
| History.AnyHistory | backend/scripts/quality_acceptance_v3.py:646-1175 | any commands in any order, each free to die anywhere, only extend a legal log, keep the requests really sent within the totals, keep a locked run verified, and keep any result on disk that of what is locked; and they never leave a dead end, but for the void of a run whose resumes are used up |
| History.WholeHistory | backend/scripts/quality_acceptance_v3.py:646-1175 | the same from the beginning, when nothing is there, with nothing assumed of the state |
| Challenges.TypedBackExactly | backend/scripts/locked_out_account_deletion.py:106-107 | a typed text normalizes to a code if and only if it is the code in any letter case with any other characters in between |
| Challenges.DisplayedCode | backend/scripts/locked_out_account_deletion.py:106-112 | the displayed form normalizes to the ten characters drawn |
| Challenges.IssuedCode | backend/scripts/locked_out_account_deletion.py:110-116 | the stored hash is matched by the issued code, however typed, and by nothing else |
| Challenges.StepKeepsSafe | backend/scripts/locked_out_account_deletion.py:186-323 | every single effect of the tool and of the world keeps the safety invariant |
| Challenges.RunIsSafe | backend/scripts/locked_out_account_deletion.py:186-323 | every state of every run is safe |
| Challenges.OneDeletionPerRequest | backend/scripts/locked_out_account_deletion.py:292-323 | no request ever deletes two accounts and no account is deleted twice, also if the process died before the used mark was saved and the address was registered again |
| Challenges.DeletionIsEarned | backend/scripts/locked_out_account_deletion.py:245-258 | what was deleted is the account the request was created for, after the right code was compared, both before expiry, at most 72 hours after creation |
| Challenges.OneLiveRequest | backend/scripts/locked_out_account_deletion.py:191-198 | at no time does an account have two pending or verified unexpired requests |
| Challenges.GuessesAreBounded | backend/scripts/locked_out_account_deletion.py:209-231 | the comparisons ever made for a request are at most its saved attempts, which are at most five |
| Challenges.RequestsMoveForward | backend/scripts/locked_out_account_deletion.py:209-242 | statuses move only along the allowed edges, attempts only grow, and account, address, code and expiry never change |
| Challenges.ClosedForGood | backend/scripts/locked_out_account_deletion.py:234-242 | a used, locked, expired or superseded request is never changed again |
| Challenges.Desk.RefuseIfClosed | backend/scripts/locked_out_account_deletion.py:234-242 | passes exactly a live request; an overdue one is closed as expired, a closed one is left alone |
| Challenges.Desk.Try | backend/scripts/locked_out_account_deletion.py:220-231 | the attempt is saved before the comparison; the right code verifies; the fifth wrong one locks |
| Challenges.Desk.VerifyCode | backend/scripts/locked_out_account_deletion.py:209-231 | verifies if and only if the request is pending, unexpired, has an attempt left and the code is the issued one; otherwise the stated refusal, with every other request untouched |
| Challenges.Desk.SupersedeAll | backend/scripts/locked_out_account_deletion.py:193-200 | exactly the account's open requests are closed as superseded |
| Challenges.Desk.IssueNew | backend/scripts/locked_out_account_deletion.py:199-206 | the new request, and no other change: pending with no attempts, expiring after the hours asked for, and answering to the code drawn, however typed, and no other |
| Challenges.Desk.CreateChallenge | backend/scripts/locked_out_account_deletion.py:186-206 | what was open for the account is superseded and nothing else is touched; the new request is the account's only open one, pending with no attempts, expiring after the hours asked for, and answers to the code shown and no other; refused for bad hours or an open request |
| Challenges.Desk.Authorize | backend/scripts/locked_out_account_deletion.py:245-258 | passes if and only if the request is verified and unexpired and account, address and fingerprint all agree |
| Challenges.Desk.DeleteAndClose | backend/scripts/locked_out_account_deletion.py:306-319 | the deletion and the used mark, with only the first if the process dies between |
| Challenges.Desk.RunDelete | backend/scripts/locked_out_account_deletion.py:292-323 | the account goes exactly when every check passes, the confirmation was typed and the service deleted it; in every other case this tool deletes nothing; a refusal changes no request but an overdue one, and no other request is ever touched |
| Challenges.Desk.Perform | backend/scripts/locked_out_account_deletion.py:304-319 | each answer of the service leads to its own outcome: deleted and used, gone and closed, or nothing changed |
| Provenance.DecodeEncode | backend/scripts/run_provenance.py:266-277 | the hashed text decodes to exactly the list of paths and stamps it was made from, newlines in paths included |
| Provenance.FilesAreTheRelevantOnes | backend/scripts/run_provenance.py:241-254 | the files fingerprinted are exactly the relevant ones git lists, sorted and each once |
| Provenance.OrderOfListingDoesNotMatter | backend/scripts/run_provenance.py:250-254 | two listings with the same relevant files give the same list, whatever their order and repeats |
| Provenance.SourceFingerprint | backend/scripts/run_provenance.py:257-277 | the loop hashes exactly one line per relevant file in path order; it refuses if and only if there is no such file or one that cannot be read |
| Provenance.SameFingerprintSameSource | backend/scripts/run_provenance.py:257-277 | equal fingerprints mean the same paths in the same order with the same contents or deletions |
| Provenance.ReadStatus | backend/scripts/run_provenance.py:289-302 | the index-driven loop ends and gives the reading that the other lemmas are about |
| Provenance.StatusIsReadRight | backend/scripts/run_provenance.py:289-302 | without a second-column rename of an original path of four characters or more, every reported path lands once in its own list, in order, and no original path in any |
| Provenance.ListsComeFromThePlaces | backend/scripts/run_provenance.py:289-302 | the two lists are exactly what stands at the places the loop reads as entries, in order |
| Provenance.StatusIsReadRightExactly | backend/scripts/run_provenance.py:289-302 | for every output git documents: the places read as entries are exactly where the reported changes begin if and only if there is no second-column rename with an original path of four characters or more |
| Provenance.ListsAreRightExactly | backend/scripts/run_provenance.py:289-302 | where no original path begins with R or C, the same of the lists themselves: they are right if and only if nothing is misread |
| Provenance.EachMisreadAddsAPath | backend/scripts/run_provenance.py:289-302 | where no original path begins with R or C, each misread rename adds exactly one path to the lists |
| Provenance.SecondColumnRenameIsMisread | backend/scripts/run_provenance.py:297-302 | a concrete output that is misread |
| Provenance.MisreadLosesAChange | backend/scripts/run_provenance.py:297-302 | a concrete output, a second-column rename of README.md, in which the change after it is in neither list |
| Provenance.MisreadByLuckRight | backend/scripts/run_provenance.py:297-302 | a concrete output with a misread rename whose reading is nevertheless right, because the entry it swallows is restored by chance |
| Provenance.DirtyExactly | backend/scripts/run_provenance.py:306 | the tree is called dirty if and only if git reports anything |
| Provenance.ListsShow | backend/scripts/run_provenance.py:289-302 | for every output git documents, exactly which paths the two lists hold: of each item its own path unless it is swallowed, and what is read of its original path if that is read as an entry |
| Provenance.ScopeIsCleanExactly | backend/scripts/run_provenance.py:302-307 | for every output git documents, no fingerprinted path is flagged if and only if every item with such a path is swallowed and nothing that is read of an original path lies in scope |
| Provenance.NoChangeIsMissed | backend/scripts/run_provenance.py:302-307 | where no original path begins with R or C, a changed fingerprinted path is always flagged |
| Provenance.ScopeIsMissed | backend/scripts/run_provenance.py:302-307 | a concrete output with a changed file of the application and nothing flagged |
| Benchmark.RunInvalidReasons | backend/scripts/benchmark_quality.py:264-279 | exactly the reasons there are: every problem of every provenance, every source that changed, and a mixture of configurations or of sources; and none if and only if the records are one complete confirmed run |
| Benchmark.OneRunSharesItsIdentity | backend/scripts/benchmark_quality.py:264-279 | a directory with records that is valid has one configuration digest and one fingerprint, both given, in every record, with every required setting |
| Benchmark.SetIsPartitioned | backend/scripts/benchmark_quality.py:287-324 | every scenario of the set is in exactly one of not run, generation failures, extraction failures and measured |
| Benchmark.ResultDirectory.WriteSummary | backend/scripts/benchmark_quality.py:282-330 | the summary of the files as they are, valid exactly if they are one run |
| Benchmark.AfterExactly | backend/scripts/benchmark_quality.py:352-411 | a batch that lives to its end replaces exactly the records of the selected scenarios, less those a resume finds measured, by those of its own results |
| Benchmark.OthersStay | backend/scripts/benchmark_quality.py:362-401 | wherever the process dies, no file is lost and a scenario the batch does not run keeps its record |
| Benchmark.ResultDirectory.RunPending | backend/scripts/benchmark_quality.py:366-410 | however many results it lives to write, the files are those after that many, and the last summary is that of the files it saw, one result behind if the process died between a result and its summary |
| Benchmark.ResultDirectory.RunBatch | backend/scripts/benchmark_quality.py:333-411 | without a complete provenance nothing is run; otherwise the files are those after the results it lived to write, and at its end the summary is that of the files, whatever was run |
| Benchmark.ResultDirectory.RunBatches | backend/scripts/benchmark_quality.py:362-411 | any invocations one after another leave the files that the single steps lead to |
| Benchmark.MeasuredStay | backend/scripts/benchmark_quality.py:258-261 | over any resumed invocations, wherever they die, no record disappears and no measured one changes |
| Benchmark.ResumingRepairsExactly | backend/scripts/benchmark_quality.py:258-279 | some resumed invocations, or even a single one, leave every scenario measured and the directory one valid run if and only if the measured records of the set are one complete confirmed run already |
| Benchmark.ResumingCannotRepair | backend/scripts/benchmark_quality.py:258-330 | otherwise the summary stays invalid over any resumed invocations, and every measured record stays |
| ItineraryDiff.LastDayWins | evaluation/run_regeneration_qa.py:74-75 | an id listed on several days is placed on the last of them |
| ItineraryDiff.UniqueExactly | evaluation/run_regeneration_qa.py:74-75 | a plan has as many placed ids as entries if and only if no id is listed twice |
| ItineraryDiff.EntriesAreConserved | evaluation/run_regeneration_qa.py:73-84 | with unique ids the entries after are those before, plus the added, less the removed |
| ItineraryDiff.Undone | evaluation/run_regeneration_qa.py:73-84 | swapping the plans swaps added and removed and keeps moved, reordered and changed |
| ItineraryDiff.NoChangeExactly | evaluation/run_regeneration_qa.py:83 | no day is reported if and only if the plans list the same; and then, if the first plan has unique ids, nothing else is reported either |
| ItineraryDiff.ListedOnceIsOwned | evaluation/run_regeneration_qa.py:74-75 | a day that repeats none of its ids and shares none with another day is the day they are all placed on |
| ItineraryDiff.ChangedExactly | evaluation/run_regeneration_qa.py:73-84 | for a day whose ids both plans list once, on that day: it is reported if and only if it lists an added, removed or moved id, is reordered, or is an empty day of one plan only |
| ItineraryDiff.OwnsExactly | evaluation/run_regeneration_qa.py:73-84 | a plan owns a day, listing its ids once and on no later day, if and only if against every later plan that owns it a change of that day has an added, removed or moved id, a new order or an empty day to show for it |
| ItineraryDiff.OwnsExactlyAfter | evaluation/run_regeneration_qa.py:73-84 | and so for the later plan, against every earlier one |
| ItineraryDiff.RepeatedIdHidesAChange | evaluation/run_regeneration_qa.py:73-84 | a concrete pair of plans with a repeated id whose changed day has nothing to show for it |

## Left out

- RunTheorems.TotalsAreNeverPassed: for credits it assumes that no report exceeds the per-generation cap, because the code does not check it; `Credits.CreditTotalHoldsExactly` shows that this is what is needed.
- Ledger.ReadLedger: lists the attempts in log order where the code sorts them.
- Budgets.ShortfallIsExact: the labels are a set where the code keeps a list in a fixed order.
- Provenance.ListsAreRightExactly: the direction from a misread rename to wrong lists is stated where no original path begins with R or C, because `MisreadByLuckRight` refutes it elsewhere; `StatusIsReadRightExactly` has no such condition.
- Challenges.TypedBackExactly: text is ASCII, where the code's upper-casing and letter test go over all of Unicode.
- Challenges.IssuedCode: the alphabet is any upper-case letters and digits, of which the code uses thirty-one.
- Challenges.Desk.RunDelete: what the application's deletion does to trips, states and jobs is the service's answer here; an account found by its address exists until the service says it is gone.
- Benchmark.RunInvalidReasons: the reasons are a set where the code keeps a list; their order and repeats decide nothing.
- Benchmark.ResultDirectory.RunBatch: the detailed text report beside each record is not modelled.
- Review.BuildPackets: of the summary it reads whether the run is valid and what was not run; a missing or unreadable summary, on which the code raises, is a refusal here, and so it is in `Review.ScoreSubmission`.
- ItineraryDiff.Undone: the sorted lists are sets.
- Live generation, provider and model calls, `preflight_checks` and environment handling: an attempt is any sequence of requests and answers through the guard and any ending.
- Text handling: declaration matching, scoresheet columns, returned packets, packet rendering and the contents of traveller views; they enter as the parameters `accepted`, `suitable` and `unaltered`.
- The fields of records, markers, notes and summaries that decide nothing later: times, latencies, reasons, refusal counters in the file, partial output.
- File permissions, locking, flushing and two processes at work on one run.
- The command lines, `quality_metrics.py`, `canary_city.py` and the tuning extraction: flat copying, or resting on services that are not part of this model.
- SQL, backup, server start-up, smoke and operations scripts, and all of the frontend.
