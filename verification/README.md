# Operator tooling, modelled and proved

The scripts under `scripts/` decide whether a release may ship: they load-test two backends, compare gateways, run a
twenty-step release drill, digest attestations, and close out a decommission. Several of them re-check what another one
wrote. This project models their logic in Dafny and proves that the pieces agree.

| modules | what they model |
|---|---|
| `WorkerPool`, `LatencySummary` | The benchmark's concurrent workers as turns between two `await`s under an arbitrary scheduler, and the nearest-rank summary of what they collect. |
| `CanonicalJson`, `JsonParser`, `CanonicalJsonLaws`, `Attestation` | The normaliser and printer of canonical JSON over UTF-16 code units, a parser for the grammar of RFC 8259 (sections 4 to 7, without insignificant white space), the laws that connect them, and the attestation digest. |
| `Numbers`, `Documents`, `SoundWorlds` | The JSON documents the scripts exchange: every JSON value is one value of the model, numbers are the finite binary64 numbers; and a platform on which parsing undoes printing. |
| `DrillFiles`, `DrillManifest`, `DrillCheck`, `DrillLedger`, `DrillRun`, `DrillLaws`, `DrillExample` | The release drill: a fail-stop machine over a file map. Child scripts are arbitrary functions; what they promise is stated in `DrillLaws.Promises`, and `DrillExample` shows that the promises can be kept. |
| `DrillRunMeaning`, `DirectoryMeaning` | What a drill needs to succeed and leaves behind, and what the strict check and the ledger say about a directory, in terms of the children's output and the texts of the files alone. |
| `ReadinessArtifacts`, `ReadinessMeaning`, `DrillToReadiness` | The second reading of the drill's artifacts by the decommission readiness check, its blockers one by one, and what a finished drill leaves of them. |
| `AoGate`, `ManualProofCheck`, `Closeout`, `CloseoutValidator`, `ProductionReadiness` | The closeout: gate checkers, proof links, the seven closeout steps with their flags and blocker lists, the validator of the printed artifact, and the GO/NO-GO summary. |
| `AoGateMeaning`, `CloseoutMeaning`, `CloseoutReports`, `ValidatorMeaning`, `ProductionMeaning` | The same verdicts said on the values of the documents: every issue, blocker, count and state by its condition; and the closeout over the documents the repository's own checks print. |
| `GatewayMatrix` | Pairwise and all-at-once comparison of gateways. |
| `EvidenceIndex`, `CommandLine`, `RateLimitOverrides` | Printers with their readers: CSV, the displayed command line, the override string; and the choice of the newest bundle. |
| `TreeWalk` | The stack-based file walk and the grouping of findings. |
| `Strings`, `Sorting` | Text and sequence facts used above. |

Scripts that update state step by step are classes or methods with loops here (`WorkerPool.LoadPool`, `DrillRun.Runner`,
`Closeout.Runner`, and the checkers that push issues in loops); each is proved equal to a specification function, and the
properties are lemmas about that function. The modules named `...Meaning` characterise the specification functions
independently, with quantifiers over the input values (`Documents.Reads`: a value is a text that reads a word without its
outer white space), so that the words, tables and branches of the scripts are fixed twice. The platform (`JSON.parse`, `JSON.stringify`, SHA-256, byte lengths) is the
parameter `Documents.World`; `Documents.Sound` states what is assumed of it (parsing undoes printing, a digest is 64 hex
digits), and `SoundWorlds.PlatformIsSound` shows that this can be had. Messages are values of datatypes, so that two
different complaints cannot be confused; the texts that other scripts search for are kept as texts.

## Results that differ from what one would expect

Each of these is a lemma; where the code meets the property only sometimes, the exact condition is proved.

- Canonical JSON loses every own `__proto__` member (`scripts/lib/attestation-json.js:8-11` assigns it): the text is
  faithful exactly when there is none (`CanonicalJsonLaws.FaithfulIffProtoFree`, `CanonicalJsonLaws.ProtoIsLost`).
- The report that a manifest is *invalid* contains the phrase that confirms a valid one
  (`DrillManifest.EveryReportConfirms`), so the text test alone would accept it.
- Documents that are `null` are not compared: replacing the embedded check results of any accepted directory by `null`
  leaves it accepted (`DrillCheck.NullChecksAccepted`).
- A closeout's verdict and its blocker list can disagree when the summary or sign-off check passes and still lists
  something, or when the proofs are pending without a missing label; `Closeout.VerdictExact` gives the exact inputs and
  `Closeout.ReadyWithBlocker` one of them. The repository's own summary, sign-off and proof checks never report like that
  (`CloseoutValidator.PromisesSuffice`).
- A pending closeout never validates (`CloseoutValidator.PendingIsMalformed`), and the production summary calls the same
  state blocked (`ProductionReadiness.MissingLinkIsBlocked`).
- A gate that requires nothing is accepted by the evidence check and blocked by the readiness check
  (`AoGate.NothingRequired`).
- A displayed command reads back exactly when no argument of the form `<...>` contains white space, a quotation mark or a
  backslash (`CommandLine.DisplayRoundTrip`).
- A suggested override string reads back exactly when every value is a safe integer (`RateLimitOverrides.OverridesRoundTrip`).

## Model

| member | source | states |
|---|---|---|
| `WorkerPool.ScheduleInv` | scripts/benchmark-ao-vs-gateway.js:283-327 | After every schedule each claimed index is completed once or in flight once, surplus increments of the counter are workers that left, and each sample went to exactly the list its status calls for, in completion order. |
| `WorkerPool.InFlightBounded` | scripts/benchmark-ao-vs-gateway.js:288-294 | Under every interleaving the requests in flight are distinct, below `requests`, not completed before, and at most `concurrency` many. |
| `WorkerPool.TurnsSpent` | scripts/benchmark-ao-vs-gateway.js:286-327 | Every turn either starts a worker or completes a request. |
| `WorkerPool.Terminates` | scripts/benchmark-ao-vs-gateway.js:283-327 | No schedule is longer than `requests + concurrency` turns, and a schedule can be extended exactly when the pool is unfinished. |
| `WorkerPool.FinalState` | scripts/benchmark-ao-vs-gateway.js:283-327 | When all workers are done each index below `requests` was run exactly once, successes plus failures are `requests`, and the counter is `requests + concurrency`. |
| `WorkerPool.ScheduleIndependent` | scripts/benchmark-ao-vs-gateway.js:283-327 | For servers whose answer depends on the request only, any two schedules collect the same latencies and failures up to order. |
| `WorkerPool.SuccessesExact` | scripts/benchmark-ao-vs-gateway.js:295-320 | When a pool is finished each latency is among the successes as often as there are requests answered ok with it, in strict mode only those with an expected status; each error text is among the failures as often as requests failed with it: `unexpected_status_` and the decimal status for an ok answer, otherwise the answer's error or `request_failed`. |
| `WorkerPool.LoadPool.constructor` | scripts/benchmark-ao-vs-gateway.js:283-286 | A new pool is the initial state: counter 0, no samples, no worker started. |
| `WorkerPool.LoadPool.TakeIndex` | scripts/benchmark-ao-vs-gateway.js:288-294 | A claim increments the counter and either starts the claimed request or ends the worker. |
| `WorkerPool.LoadPool.Launch` | scripts/benchmark-ao-vs-gateway.js:288-296 | The first turn of a worker is a turn of the state machine. |
| `WorkerPool.LoadPool.Resume` | scripts/benchmark-ao-vs-gateway.js:295-320 | Receiving a sample, recording it in one of the two lists and claiming again is one turn of the state machine; which list, and with what error text, is fixed by `WorkerPool.SuccessesExact` and `WorkerPool.RunLoad`. |
| `WorkerPool.RunLoad` | scripts/benchmark-ao-vs-gateway.js:283-327 | With an arbitrary scheduler the pool finishes in a state that some schedule explains; as multisets its successes are the latencies of exactly the requests answered ok (in strict mode with an expected status), its failures the error texts of the others. |
| `LatencySummary.PercentileIsNearestRank` | scripts/benchmark-ao-vs-gateway.js:110-114 | For any samples and 0 < p <= 100 at least p% of the samples are at most the result and fewer than p% are below it. |
| `LatencySummary.NearestRankUnique` | scripts/benchmark-ao-vs-gateway.js:110-114 | The nearest-rank definition determines the value. |
| `LatencySummary.SummaryOrdered` | scripts/benchmark-ao-vs-gateway.js:116-131 | min <= p50 <= p90 <= p95 <= p99 <= max, the mean lies between min and max, and these bound every sample. |
| `LatencySummary.SummaryOfPermutation` | scripts/benchmark-ao-vs-gateway.js:116-131 | The summary does not depend on the order of the samples. |
| `LatencySummary.SummaryExact` | scripts/benchmark-ao-vs-gateway.js:110-131 | Every reported figure by its definition: minimum, maximum, total over count, the nearest ranks of 50, 90, 95 and 99 percent, requests per second; all but count and rate absent without samples. |
| `LatencySummary.SummaryScheduleIndependent` | scripts/benchmark-ao-vs-gateway.js:283-327 | The reported latencies and the failure count do not depend on the scheduler. |
| `CanonicalJsonLaws.CanonicalRoundTrip` | scripts/lib/attestation-json.js:3-18 | An RFC 8259 parser recovers the canonical data of any value from its canonical text. |
| `CanonicalJsonLaws.SameTextIffSameData` | scripts/lib/attestation-json.js:3-18 | Two values print the same text exactly when they stand for the same data, ignoring key order. |
| `CanonicalJsonLaws.MemberOrderIrrelevant` | scripts/lib/attestation-json.js:6-12 | The creation order of properties does not change the text. |
| `CanonicalJsonLaws.CanonicalizeIdempotent` | scripts/lib/attestation-json.js:3-14 | Normalising twice is normalising once. |
| `CanonicalJsonLaws.PrintIsRender` | scripts/lib/attestation-json.js:16-18 | Printing the normalised value prints its data with sorted keys and nothing else; the order of the keys is `CanonicalJsonLaws.CanonicalPrintedOrder`. |
| `CanonicalJsonLaws.CanonicalKeysAscend` | scripts/lib/attestation-json.js:6-12 | Of any two keys of a normalised object, in the order of its members, the earlier is a proper prefix of the later or smaller at the first code unit where they differ. |
| `CanonicalJsonLaws.CanonicalPrintedOrder` | scripts/lib/attestation-json.js:6-18 | The order in which the keys of a normalised object are printed: array indices by number first, then all others in ascending code units. |
| `CanonicalJsonLaws.FaithfulIffProtoFree` | scripts/lib/attestation-json.js:6-12 | The canonical text and the text of `JSON.stringify` read as the same data exactly when no `__proto__` member is inside. |
| `CanonicalJsonLaws.StringifyReads` | scripts/lib/attestation-json.js:16-18 | What `JSON.stringify` prints of any value, in its own member order, reads as the data of the value. |
| `CanonicalJsonLaws.ProtoIsLost` | scripts/lib/attestation-json.js:6-12 | A concrete object whose `__proto__` member disappears. |
| `JsonParser.ParseRender` | scripts/lib/attestation-json.js:16-18 | The parser reads printed data back, whatever delimited text follows. |
| `Attestation.CanonicalizeByLoop` | scripts/lib/attestation-json.js:3-14 | Filling a new object key by key in sorted order computes the recursive normal form, with keys ascending by code units at every level. |
| `Attestation.SegmentsAgree` | scripts/lib/attestation-json.js:24-33 | The hashed segments of two artifacts hold the same data exactly when the six attested fields do. |
| `Attestation.DigestPinsFields` | scripts/lib/attestation-json.js:24-34 | Two digests are equal exactly when the six attested fields hold the same data, or the two hashed texts are a collision of the hash. |
| `DrillManifest.EnsureRequiredArtifacts` | scripts/build-release-drill-manifest.js:155-169 | Collects exactly the missing required files, in order. |
| `DrillManifest.BuildManifest` | scripts/build-release-drill-manifest.js:171-197 | Fails when a file is missing; otherwise gives the manifest of the directory, which lists for each file its name and the size and hash of its content. |
| `DrillManifest.ManifestRecords` | scripts/build-release-drill-manifest.js:115-197 | A manifest is built from a complete directory exactly when readiness report and pack parse and name release and status between them; it carries these, the time and the directory, and for each file name, byte length and digest of the content. |
| `DrillManifest.SameManifestSameFiles` | scripts/build-release-drill-manifest.js:115-124 | Two directories with one manifest have the same digest and size for every listed file. |
| `DrillManifest.BuiltManifestPasses` | scripts/build-release-drill-manifest.js:107-197 | Every manifest that is built passes the strict validator and the path check, and names release and status. |
| `DrillManifest.ValidateManifest` | scripts/validate-release-drill-manifest.js:81-136 | The loop pushes the specified issues, with path uniqueness over trimmed paths. |
| `DrillManifest.ManifestValidIff` | scripts/validate-release-drill-manifest.js:81-136 | No issue exactly for well-formed manifests: text fields, artifacts with distinct paths, whole sizes and hex digests (lower case when strict). |
| `DrillManifest.ValidateManifestArtifacts` | scripts/check-release-drill-artifacts.js:165-208 | The loop computes the specified path complaints of a manifest. |
| `DrillManifest.CheckPathList` | scripts/check-release-drill-artifacts.js:178-207 | Duplicates, missing, unexpected and misordered paths are complained about as specified. |
| `DrillManifest.PathListExact` | scripts/check-release-drill-artifacts.js:186-207 | The four separate complaints are all absent exactly when the two lists are equal element by element. |
| `DrillManifest.PathCheckExact` | scripts/check-release-drill-artifacts.js:165-208 | The path check of a manifest finds nothing exactly when its trimmed paths are the expected list. |
| `DrillManifest.EveryReportConfirms` | scripts/validate-release-drill-manifest.js:138-148 | Every report of the validator, also of an invalid manifest, contains the confirmation phrase. |
| `DrillCheck.ResolveRequiredArtifact` | scripts/check-release-drill-artifacts.js:138-159 | The loop over the names of a file returns the specified resolution. |
| `DrillCheck.ResolvesToFirst` | scripts/check-release-drill-artifacts.js:138-159 | A file resolves to its first existing name, preferred name before aliases, and to none when no name exists. |
| `DrillCheck.FindsPhrase` | scripts/check-release-drill-artifacts.js:263-274 | The lower-cased text contains the phrase. |
| `DrillCheck.ValidateStrict` | scripts/check-release-drill-artifacts.js:210-293 | The strict pass pushes the specified issues in order. |
| `DrillCheck.StrictExact` | scripts/check-release-drill-artifacts.js:210-293 | No strict issue exactly when the documents parse, the manifest lists the expected paths, all named releases are one, both texts confirm, and the six embedded results equal their files. |
| `DirectoryMeaning.AcceptsExactly` | scripts/check-release-drill-artifacts.js:138-339 | The check accepts a directory strictly exactly when all eighteen files are found under one of their names and the texts agree: which documents parse, whose fields are named, which paths and releases agree, which files equal their embedded copies, and where the confirmations stand. |
| `DrillCheck.CheckReleaseDrillArtifacts` | scripts/check-release-drill-artifacts.js:295-339 | Missing files, found files, alias count, strict issues and verdict of one check. |
| `DrillCheck.AcceptedRelease` | scripts/check-release-drill-artifacts.js:248-261 | In an accepted directory with object documents one release is named throughout. |
| `DrillCheck.NullChecksAccepted` | scripts/check-release-drill-artifacts.js:224-291 | Overwriting the embedded results of any accepted directory with `null` leaves it accepted. |
| `DrillLedger.BuildLedger` | scripts/build-release-evidence-ledger.js:199-320 | The ledger is built exactly for complete readable directories; its checks, status and file records are those of the directory. |
| `DirectoryMeaning.LedgerReadyExactly` | scripts/build-release-evidence-ledger.js:199-220 | The ledger is ready exactly when pack and readiness report say `ready`, the artifact check says `ok: true`, and both validation texts contain their confirmations. |
| `DrillRun.RunShape` | scripts/run-release-drill.js:961-1125 | Every run executes a prefix of the plan, returns 0, 3 or 64, and 0 exactly when every step succeeded. |
| `DrillRunMeaning.StepExact` | scripts/run-release-drill.js:963-1114 | A step succeeds exactly when its child exits with 0, prints JSON where the runner keeps JSON (with a bundle directory when it selects one), and leaves the files only the child can write; it returns 64 exactly for a child that exits with 64. |
| `DrillRunMeaning.RunExact` | scripts/run-release-drill.js:961-1125 | A drill returns 0 exactly when all steps pass, and 64 exactly when a child exits with 64 after steps that all passed. |
| `DrillRun.NothingFromLaterSteps` | scripts/run-release-drill.js:560-857 | A run leaves the files of steps it did not start alone; from an empty directory every file belongs to a started step. |
| `DrillRun.Undisturbed` | scripts/run-release-drill.js:560-857 | A file changes only at the step that owns it. |
| `DrillRun.FilesProduced` | scripts/run-release-drill.js:961-1125 | After n successful steps all files of these steps exist. |
| `DrillRunMeaning.RunLeaves` | scripts/run-release-drill.js:987-1114 | After n successful steps each of their files holds what its own child printed or wrote: documents as parsed, template checks laid over the runner's settings, confirmations with their fallback texts. |
| `DrillRunMeaning.RunEmbeds` | scripts/run-release-drill.js:1021-1073 | From step 13 on the embedded results name the settings of the run and hold the six check results as they are in their files. |
| `DrillRun.ReadsAreProduced` | scripts/run-release-drill.js:771-857 | Whatever a step reads was produced by an earlier step and exists when the step starts. |
| `DrillRun.Runner.constructor` | scripts/run-release-drill.js:936-949 | A new runner remembers nothing but the directory. |
| `DrillRun.Runner.KeepDocument` | scripts/run-release-drill.js:987-1073 | How the JSON document of a step is merged, written, remembered and embedded. |
| `DrillRun.Runner.Keep` | scripts/run-release-drill.js:987-1078 | What is kept of a successful child's output, and when this throws. |
| `DrillRun.Runner.RunStep` | scripts/run-release-drill.js:963-1114 | One step: start failure, exit code normalisation, keeping the output, insisting on the files. |
| `DrillRun.Runner.RunReleaseDrill` | scripts/run-release-drill.js:961-1125 | The loop stops at the first failing step and ends in the state of the run specification. |
| `DrillLaws.ManifestFresh` | scripts/build-release-drill-manifest.js:115-197 | At the end of a drill the manifest is the one that would be built from the final directory; what it records is `DrillLaws.ManifestMeasures`. |
| `DrillLaws.ManifestEntries` | scripts/build-release-drill-manifest.js:115-124 | Its entries are the current names, sizes and hashes of the files on the disk. |
| `DrillLaws.ManifestMeasures` | scripts/build-release-drill-manifest.js:115-197 | After a drill the parsed manifest has, entry by entry, the name, byte length and digest of the files as they are on the disk. |
| `DrillLaws.StrictCheckPasses` | scripts/run-release-drill.js:835-857 | A run that reaches step 19 over children that keep their promises passes the strict artifact check, whatever was in the directory before. |
| `DrillLaws.LedgerVerdict` | scripts/build-release-evidence-ledger.js:199-220 | At the end of a drill the ledger can be built and is ready exactly when the readiness report is, always in strict mode. |
| `DrillLaws.ReadyRunsFinish` | scripts/run-release-drill.js:961-1125 | Once step 16 has passed, steps 17 to 20 cannot fail. |
| `DrillExample.PromisesCanBeKept` | scripts/run-release-drill.js:519-879 | For every sound platform and valid configuration there are children that keep all promises, and with them the drill returns 0. |
| `SoundWorlds.PlatformIsSound` | scripts/run-release-drill.js:987-1073 | There is a platform whose parser undoes its printer on every document. |
| `Numbers.OneFormPerNumber` | scripts/check-release-drill-artifacts.js:286-288 | Equal numbers in documents are the same value of the model, so comparing documents is comparing values. |
| `DrillToReadiness.DrillSatisfiesReadiness` | scripts/check-decommission-readiness.js:340-517 | After a drill with exit code 0, strict or with a readiness report that says `ready`, the automation blockers of the readiness check are none when the gate names no other release, and the one release mismatch otherwise. |
| `ReadinessMeaning.AutomationExact` | scripts/check-decommission-readiness.js:340-517 | For every directory: which automation blockers the readiness check has, each by the words, lists and flags of the documents; it throws exactly when it asks the value `null` for an embedded result. |
| `AoGate.ValidateGate` | scripts/check-ao-gate-evidence.js:163-313 | The loops over required identifiers and checks produce the specified issues, warnings, counts and verdicts. |
| `AoGate.StrictOkIffCloseoutReady` | scripts/check-ao-gate-evidence.js:213-290 | Strict `ok` holds exactly when relaxed `closeoutReady` holds at the same clock value. |
| `AoGate.StrictOkIffClean` | scripts/check-ao-gate-evidence.js:163-313 | The strict check accepts exactly the gates with valid head, unique identifiers, every required check present and closed, every closed check with evidence. |
| `AoGateMeaning.IssuesExact` | scripts/check-ao-gate-evidence.js:163-313 | For every gate value and both modes: each issue is reported exactly when its condition holds on the values of the document. |
| `AoGateMeaning.CountsAndWarnings` | scripts/check-ao-gate-evidence.js:213-313 | Of several checks with one identifier the first counts: how many required checks are closed and open, which are warned about in relaxed mode, and that ready for closeout means no issue and no warning. |
| `AoGate.CollectGateChecks` | scripts/check-decommission-readiness.js:270-338 | The loop over required identifiers computes counts, lists, status and blockers as specified. |
| `AoGate.GateCounts` | scripts/check-decommission-readiness.js:299-337 | Closed, open and missing add up to the required count past the guards, each open or missing one is a blocker, complete exactly without blockers. |
| `AoGateMeaning.SummaryExact` | scripts/check-decommission-readiness.js:270-338 | Of several checks with one identifier the last counts: which required checks are missing or open, with which status word, which blockers follow, and the state they add up to. |
| `AoGate.EvidenceCheckImpliesComplete` | scripts/check-decommission-readiness.js:270-338 | A gate the strict evidence check accepts is complete for the readiness check, if it requires anything. |
| `AoGate.NothingRequired` | scripts/check-decommission-readiness.js:285-297 | An accepted gate that requires nothing is blocked for the readiness check. |
| `ManualProofCheck.AssessManualProofs` | scripts/check-decommission-manual-proofs.js:115-177 | The loops compute the assessment of a log as specified, the last proof of a key counting. |
| `ManualProofCheck.AssessmentConsistent` | scripts/check-decommission-manual-proofs.js:115-177 | For every log provided plus missing is 4, complete exactly when nothing is missing, and a pending log shows a blank link. |
| `ManualProofCheck.AssessedExact` | scripts/check-decommission-manual-proofs.js:115-177 | For every log object: which of the four proofs are missing, in order, by the last proof with the key and its link, and the title and link shown for each. |
| `Closeout.Runner.TakeGate` | scripts/run-decommission-closeout.js:701-712 | Flags and blockers added by the gate step; what each result word adds is part of `CloseoutMeaning.ClosesAs`. |
| `Closeout.Runner.TakeReadiness` | scripts/run-decommission-closeout.js:714-757 | Flags and blockers added by the readiness step. |
| `Closeout.Runner.TakeHosting` | scripts/run-decommission-closeout.js:759-774 | Flags and blockers added by the hosting step. |
| `Closeout.Runner.TakeSummary` | scripts/run-decommission-closeout.js:776-787 | Flags and blockers added by the summary step. |
| `Closeout.Runner.TakeSignoff` | scripts/run-decommission-closeout.js:789-797 | Flags and blockers added by the sign-off step. |
| `Closeout.Runner.TakeLog` | scripts/run-decommission-closeout.js:799-859 | Flags and blockers added by the evidence log step. |
| `Closeout.Runner.TakeProofs` | scripts/run-decommission-closeout.js:830-851 | Flags and blockers added by the proof step. |
| `Closeout.Runner.RunSteps` | scripts/run-decommission-closeout.js:665-860 | The seven steps in order leave the flags and lists of the specification, which `CloseoutMeaning.ClosesAs` gives for every word the children report. |
| `CloseoutMeaning.ClosesAs` | scripts/run-decommission-closeout.js:224-272 | For every closeout: run status, closeout state, both channel states and both blocker lists in order, from the result, status and state words, exit codes and lists that the children report. |
| `CloseoutReports.GateReports` | scripts/check-ao-gate-evidence.js:385-413 | The document of the evidence check (`ERROR`, `WARNING` or `OK`) makes the gate step fail exactly with issues and leaves it open exactly with warnings alone. |
| `CloseoutReports.ReadyNeedsGate` | scripts/run-decommission-closeout.js:701-712 | A closeout over the evidence check's document can be ready only when the check calls the gate ready for closeout. |
| `CloseoutReports.OnlyTheGate` | scripts/run-decommission-closeout.js:701-712 | A closeout that is ready over a clean gate ends `ao-manual-pending` with the one open-gate blocker over a gate with warnings alone, and blocked with the one failure blocker over a gate with issues. |
| `CloseoutReports.ReadyExactly` | scripts/run-decommission-closeout.js:665-878 | A closeout over the documents of the repository's own checks is ready exactly when the gate is ready for closeout and readiness, hosting, summary, sign-off, log and proofs are all content. |
| `Closeout.AlwaysPaired` | scripts/run-decommission-closeout.js:701-859 | Gate, readiness, hosting and log steps set a flag exactly when they push a blocker of its kind. |
| `Closeout.SometimesPaired` | scripts/run-decommission-closeout.js:776-851 | Summary, sign-off and proof steps do so exactly when they do not report silently. |
| `Closeout.ReadyIffNoBlockers` | scripts/run-decommission-closeout.js:665-878 | Without silent reports a closeout is ready exactly when its blocker list is empty, channel by channel. |
| `Closeout.VerdictExact` | scripts/run-decommission-closeout.js:665-878 | The exact inputs on which verdict and blocker list disagree. |
| `Closeout.ReadyWithBlocker` | scripts/run-decommission-closeout.js:776-787 | A concrete closeout that ends `ready` although a passed summary check listed an issue. |
| `Closeout.ExitCodes` | scripts/run-decommission-closeout.js:862-880 | A strict run exits with 0 exactly when it is ready, any other run exactly when the log step exited with 0 and left a readable log. |
| `ValidatorMeaning.ArtifactExact` | scripts/run-decommission-closeout.js:862-960 | The state words and the three blocker arrays of the printed artifact, from the words of the children. |
| `CloseoutValidator.InspectSteps` | scripts/validate-decommission-closeout.js:212-245 | The loop over the steps pushes the specified issues. |
| `CloseoutValidator.ValidateManualProofs` | scripts/validate-decommission-closeout.js:135-196 | The checks of the proof section push the specified issues. |
| `CloseoutValidator.EvaluateCloseout` | scripts/validate-decommission-closeout.js:247-366 | Verdict, issues and blockers of an artifact as specified. |
| `ValidatorMeaning.IssuesExact` | scripts/validate-decommission-closeout.js:135-300 | For every payload: each issue is reported exactly when its condition holds on the values of the payload, and malformed means that one does. |
| `ValidatorMeaning.EvaluationExact` | scripts/validate-decommission-closeout.js:247-347 | For every payload: ready, invalid and blocked by the four state words, the applicable issues and the texts in the four blocker lists. |
| `CloseoutValidator.ValidatorExact` | scripts/validate-decommission-closeout.js:247-347 | For every closeout the validator judges the printed artifact ready exactly when the run says ready, lists no blocker, and the proof check printed a well-formed section. |
| `CloseoutValidator.RunAndValidatorAgree` | scripts/validate-decommission-closeout.js:247-347 | Without silent reports, and when a passed proof check printed a well-formed section, the run is ready exactly when its blocker list is empty, and the validator judges the artifact ready in exactly that case. |
| `CloseoutValidator.PromisesSuffice` | scripts/run-decommission-closeout.js:493-583 | Children that report as the repository's own checks do, or die without output, meet the conditions of that agreement. |
| `CloseoutValidator.PendingIsMalformed` | scripts/validate-decommission-closeout.js:170-183 | The artifact of a closeout with pending proofs is malformed. |
| `ProductionReadiness.ChannelsMatch` | scripts/check-decommission-readiness.js:340-517 | Each channel is complete exactly when its blocker list is empty; ready exactly without blockers. |
| `ProductionReadiness.UniqueStrings` | scripts/check-production-readiness-summary.js:95-108 | The loop with a `seen` set returns the distinct trimmed texts. |
| `ProductionReadiness.UniqueAre` | scripts/check-production-readiness-summary.js:95-108 | These are exactly the trimmed non-empty values, without repeats. |
| `ProductionReadiness.UniqueEmpty` | scripts/check-production-readiness-summary.js:95-108 | De-duplicating non-blank texts gives nothing only for nothing. |
| `ProductionReadiness.BuildSummary` | scripts/check-production-readiness-summary.js:259-316 | The summary is the specified one without any fallback blocker. |
| `ProductionReadiness.FallbackNeverNeeded` | scripts/check-production-readiness-summary.js:197-284 | GO exactly when the rewritten, de-duplicated blocker list is empty, and the manual proofs are never reported pending. |
| `ProductionMeaning.SummaryExact` | scripts/check-production-readiness-summary.js:197-316 | For every gate file, evidence log and list of automation blockers: GO, the closeout state, and exactly which instructions the blocker list holds. |
| `ProductionReadiness.CloseoutReadyMeansGo` | scripts/check-production-readiness-summary.js:259-284 | A ready closeout over the same readiness report and log means GO. |
| `ProductionReadiness.MissingLinkIsBlocked` | scripts/check-production-readiness-summary.js:197-208 | Proofs the closeout calls pending are blocked in the summary. |
| `GatewayMatrix.BuildRunPlan` | scripts/compare-integrity-matrix.js:125-145 | The loop builds the adjacent pairs, or one run of all gateways. |
| `GatewayMatrix.BuildComparisonReport` | scripts/lib/compare-integrity-state-core.js:79-117 | Each field is invalid, consensus or mismatch as specified, and the counts follow. |
| `GatewayMatrix.FieldIsPath` | scripts/lib/compare-integrity-state-core.js:61-70 | A compared field is found exactly when following the names of its path from node to node leads to it. |
| `GatewayMatrix.SummarizeRun` | scripts/compare-integrity-matrix.js:174-220 | The outcome of a run: failure, mismatch or pass. |
| `GatewayMatrix.CompareMatrix` | scripts/compare-integrity-matrix.js:222-341 | The counts over all runs and the exit code. |
| `GatewayMatrix.TallyExact` | scripts/compare-integrity-matrix.js:263-319 | Passes, mismatches and failures add up to the number of runs, and each is positive exactly when some run has that outcome. |
| `GatewayMatrix.AllMeaning` | scripts/compare-integrity-matrix.js:125-145 | All mode returns 2 for incomplete answers, 3 for complete ones that differ, 0 for agreement. |
| `GatewayMatrix.PairwiseMeaning` | scripts/compare-integrity-matrix.js:125-145 | Comparing adjacent pairs returns the same verdict about all gateways. |
| `GatewayMatrix.ModesAgree` | scripts/compare-integrity-matrix.js:125-319 | For two or more gateways both modes return the same exit code. |
| `GatewayMatrix.ExitCodeExact` | scripts/compare-integrity-matrix.js:222-341 | The exit code of both modes on the answers: 2 when a gateway did not answer or lacks a compared value, otherwise 3 when two have different values under one path, otherwise 0. |
| `GatewayMatrix.PairCounts` | scripts/compare-integrity-matrix.js:263-319 | The counts of a pairwise comparison are the numbers of neighbouring pairs that lack a value, differ, or agree. |
| `EvidenceIndex.CsvRoundTrip` | scripts/index-evidence-bundles.js:63-74 | A reader following RFC 4180 section 2 with LF line ends gets back the header and every cell's text. |
| `EvidenceIndex.ReadCsvCell` | scripts/index-evidence-bundles.js:63-68 | A written cell reads back, whatever quotes, commas and line breaks it has. |
| `EvidenceIndex.QuotedIfNeeded` | scripts/index-evidence-bundles.js:63-68 | A cell is written unchanged exactly when it has no quotation mark, comma or line break. |
| `EvidenceIndex.CollectCandidates` | scripts/latest-evidence-bundle.js:113-128 | The loop collects the timestamped directories. |
| `EvidenceIndex.FindLatestTimestampedBundle` | scripts/latest-evidence-bundle.js:113-135 | The reduction computes the specified choice, the newest bundle of `EvidenceIndex.LatestIsNewest`. |
| `EvidenceIndex.LatestIsLastOfIndex` | scripts/index-evidence-bundles.js:265-284 | For any listing order the chosen bundle is the last row of the sorted index, and neither depends on the order of the listing. |
| `EvidenceIndex.LatestIsNewest` | scripts/latest-evidence-bundle.js:53-57 | No bundle directory has a later timestamp than the chosen one, none with the same timestamp a later modification time, and of those equal in both the chosen name is the greatest. |
| `EvidenceIndex.IndexRows` | scripts/index-evidence-bundles.js:265-284 | The rows of the index are exactly the directories with a timestamp in their names. |
| `EvidenceIndex.IndexAscends` | scripts/index-evidence-bundles.js:57-61 | From row to row timestamps never decrease, nor modification times within one timestamp. |
| `CommandLine.DisplayRoundTrip` | scripts/run-release-drill.js:338-361 | A displayed command reads back exactly when no placeholder argument holds white space, a quotation mark or a backslash. |
| `CommandLine.PlaceholderMisses` | scripts/run-release-drill.js:338-344 | Such a placeholder is never read back as itself, whatever follows. |
| `CommandLine.RedactTokenArgs` | scripts/run-release-drill.js:346-357 | The loop computes the specified redaction. |
| `CommandLine.RedactionExact` | scripts/run-release-drill.js:346-357 | Exactly the values of token options are hidden; every other argument stays in its place. |
| `CommandLine.ShownExact` | scripts/run-release-drill.js:346-357 | An argument is shown as `<value>` exactly when an odd number of `--token` arguments stands directly before it; every other one is shown as it is. |
| `CommandLine.TokenIndependent` | scripts/run-release-drill.js:346-361 | Two command lines that differ in token values only have the same display. |
| `RateLimitOverrides.ValidateRouteStats` | scripts/suggest-ratelimit-overrides.js:131-178 | The loop with its `seen` set accepts the specified route lists. |
| `RateLimitOverrides.RoutesExact` | scripts/suggest-ratelimit-overrides.js:131-178 | An input is accepted as a list of routes exactly when every entry describes its route (prefix characters, number ranges) and no prefix occurs twice. |
| `RateLimitOverrides.WithinBounds` | scripts/suggest-ratelimit-overrides.js:180-201 | Every suggestion is at least 1 and within consistent bounds. |
| `RateLimitOverrides.SuggestedExact` | scripts/suggest-ratelimit-overrides.js:180-214 | The suggestion is the weighted demand rounded up, moved to the nearer bound exactly when it lies outside. |
| `RateLimitOverrides.SuggestMonotone` | scripts/suggest-ratelimit-overrides.js:180-214 | A route with higher rate, burst factor or blocked rate is never suggested less. |
| `RateLimitOverrides.EntriesAscend` | scripts/suggest-ratelimit-overrides.js:187-191 | The suggestions are listed by prefix. |
| `RateLimitOverrides.ValidateOverrides` | scripts/validate-hosting-readiness.js:334-401 | The loop over the entries raises the specified first complaint. |
| `RateLimitOverrides.ComplaintExact` | scripts/validate-hosting-readiness.js:334-401 | No complaint exactly when the string is not blank, every item says a key and a positive safe integer, and the three required keys are among them; otherwise the first silent item is called malformed or invalid by its equal sign. |
| `RateLimitOverrides.OverridesRoundTrip` | scripts/validate-hosting-readiness.js:350-385 | The hosting check reads a suggested string back as exactly the suggested values if and only if all are safe integers; no entry is ever malformed. |
| `RateLimitOverrides.SuggestionReadBack` | scripts/suggest-ratelimit-overrides.js:187-214 | The same for the whole chain from the route statistics to the parsed map. |
| `TreeWalk.ReadDirectory` | scripts/check-legacy-no-import-evidence.js:176-191 | One directory's subdirectories go on the stack, its eligible files into the result. |
| `TreeWalk.WalkFiles` | scripts/check-legacy-no-import-evidence.js:171-195 | The stack walk ends and returns the sorted files of the recursive definition. |
| `TreeWalk.EachFileOnce` | scripts/check-legacy-no-import-evidence.js:171-195 | No file is returned twice. |
| `TreeWalk.FilesAreFound` | scripts/check-legacy-no-import-evidence.js:171-195 | A path is returned exactly when it leads to an eligible regular file through directories. |
| `TreeWalk.ListingOrderIrrelevant` | scripts/check-legacy-no-import-evidence.js:171-195 | Listing the directories in another order gives the same result. |
| `TreeWalk.GroupByModule` | scripts/check-legacy-no-import-evidence.js:333-350 | Each module maps to its findings, in order, and modules without findings are absent. |
| `TreeWalk.CountsAddUp` | scripts/check-legacy-no-import-evidence.js:333-350 | The counts per module add up to the number of findings. |

## Left out

- The child scripts of drill steps 1 to 16 and the child scripts of the closeout: they are functions with stated promises (`DrillLaws.Promises`, `DrillToReadiness.EvidencePromises`, `CloseoutValidator.Promises`).
- Rounding: latencies and rates are exact reals, `toFixed` is not modelled; numbers in exchanged documents are the finite binary64 numbers (texts that `JSON.parse` reads as infinite are left out), byte counts and exit codes are safe integers; in canonical JSON a number is identified with its printed text.
- `JSON.parse` and `JSON.stringify` of the drill's documents are assumed to be inverse (`Documents.Sound`), the member order and the final newline of a printed document are not modelled, and texts have no lone surrogates; only canonical JSON is modelled down to characters. SHA-256 and byte lengths are arbitrary functions.
- Lower-casing outside ASCII, and white space beyond the characters in `Strings.IsSpace`.
- `localeCompare` is an arbitrary total order on strings; timestamps in directory names, release patterns, clock comparisons, the test for AO-related messages and the rewriting of blockers are parameters.
- The wording of messages, human-readable reports, markdown, usage text, flag parsing, dry runs, progress output and step logs.
- The closeout's texts of blocker items that are not strings, and its conversion of them.
- Property lookups that reach `Object.prototype`; integer-like keys are covered in canonical JSON by sorting after the engine's own order.
- Directories, links and read errors inside the drill directory: the model has regular files only.
- HTTP, timers, warm-up requests and process spawning; the closeout's tolerance of crashed children beyond exit code and unparsable output.
- The hosting readiness rules other than the override string, and the fields of the bundle index other than order and CSV form.
- Import patterns and `process.env` finders: `TreeWalk` takes the eligibility of a file and the findings as given.
- BuildSummary: automation blockers are assumed to be non-blank messages, and the message texts of `ProductionReadiness.Wording` likewise, because the scripts write them as literals.
- CsvRoundTrip: the header is assumed to need no quoting, as the constant field names do not.
