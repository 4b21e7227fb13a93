/** Whole drill runs whose children do what their scripts promise: the documents the steps leave behind agree,
    so the late steps, which re-check the early ones, cannot fail. */
module DrillLaws {
  import opened Strings
  import opened Sorting
  import opened Documents
  import opened DrillFiles
  import opened DrillManifest
  import opened DrillCheck
  import opened DrillLedger
  import opened DrillRun

  // ---------------------------------------------------------------- what the children promise

  function Ready(): Option<Json> { Some(Str("ready")) }
  function Warning(): Option<Json> { Some(Str("warning")) }

  /** The evidence pack of a pack step that exits with 0. */
  predicate IsPack(c: Config, pack: Json) {
    pack.Obj? && Field(pack, Release) == Some(Str(c.release)) && (Field(pack, Status) == Ready() || Field(pack, Status) == Warning())
  }

  /** The readiness report on a pack, when the step exits with 0. */
  predicate IsReadiness(c: Config, pack: Json, report: Json) {
    && report.Obj? && Field(report, Release) == Some(Str(ReleaseOf(pack)))
    && (Field(report, Status) == Ready() || Field(report, Status) == Warning())
    && (c.strict ==> Field(report, Status) == Ready())
    && (Field(report, Status) == Ready() ==> Field(pack, Status) == Ready())
  }

  function Parsed(w: World, disk: Disk, f: FileName): Option<Json> { if f in disk then w.parse(disk[f]) else None }

  ghost predicate PackPromise(w: World, c: Config, child: Child) {
    child.Exit? && child.status == Some(0) ==>
      Parsed(w, child.writes, PackJson).Some? && IsPack(c, Parsed(w, child.writes, PackJson).value)
  }

  ghost predicate ReadinessPromise(w: World, c: Config, disk: Disk, child: Child) {
    child.Exit? && child.status == Some(0) ==>
      && child.stdout != "" && w.parse(child.stdout).Some? && Parsed(w, disk, PackJson).Some?
      && IsReadiness(c, Parsed(w, disk, PackJson).value, w.parse(child.stdout).value)
  }

  ghost predicate GatePromise(c: Config, child: Child) {
    child.Exit? && child.status == Some(0) ==> child.stdout == GatePhrase() + ": " + c.gateFile + "\n"
  }

  ghost predicate ManifestPromise(w: World, c: Config, disk: Disk, child: Child) {
    child.Exit? &&
    if (forall f | f in Manifested() :: f in disk) && ManifestOf(w, disk, c.outDir, c.manifestTime).Built? then
      child.status == Some(0) && child.writes == map[Manifest := w.stringify(ManifestOf(w, disk, c.outDir, c.manifestTime).value)]
    else child.status == Some(3) && child.writes == map[]
  }

  ghost predicate ValidatorPromise(w: World, disk: Disk, child: Child) {
    && child.Exit? && child.writes == map[]
    && (Parsed(w, disk, Manifest).Some? ==>
          var issues := ManifestIssues(Parsed(w, disk, Manifest).value, true);
          && child.status == Some(if issues == [] then 0 else 3)
          && (issues == [] ==> exists file :: child.stdout == ManifestPhrase() + ": " + file + "\n"))
  }

  ghost predicate Accepted(w: World, disk: Disk) {
    MissingOf(disk, Required(), |Required()|) == [] && StrictIssues(w, disk) == []
  }

  ghost predicate CheckPromise(w: World, disk: Disk, child: Child) {
    && child.Exit? && child.writes == map[] && child.stdout != "" && w.parse(child.stdout).Some?
    && child.status == Some(if Accepted(w, disk) then 0 else 3)
    && (IsTrue(w.parse(child.stdout).value, Ok) <==> Accepted(w, disk))
  }

  ghost predicate LedgerReady(w: World, disk: Disk) { Buildable(w, disk) && OverallReady(LedgerChecks(w, disk)) }

  /** The JSON form of the ledger, as far as later scripts read it. */
  ghost predicate IsLedgerDocument(w: World, disk: Disk, ledger: Json)
    requires Buildable(w, disk)
  {
    && Field(ledger, OverallStatus) == Some(Str(if LedgerReady(w, disk) then "ready" else "blocked"))
    && Field(ledger, Release) == Some(Str(DeriveText(w.parse(disk[Readiness]).value, w.parse(disk[PackJson]).value, Release)))
  }

  ghost predicate LedgerPromise(w: World, c: Config, disk: Disk, child: Child) {
    child.Exit? &&
    if Buildable(w, disk) then
      && child.writes.Keys == {LedgerMarkdown, LedgerJson} && child.status == Some(if c.strict && !LedgerReady(w, disk) then 3 else 0)
      && Parsed(w, child.writes, LedgerJson).Some? && IsLedgerDocument(w, disk, Parsed(w, child.writes, LedgerJson).value)
    else child.writes == map[] && child.status == Some(3)
  }

  /** The scripts of steps 17 to 20 run to their end and do what `DrillManifest`, `DrillCheck` and `DrillLedger` say;
      the scripts of the earlier steps may fail in any way, but when they succeed their documents are as promised. */
  ghost predicate Promises(w: World, c: Config, children: Children) {
    && Tidy(children)
    && (forall d: Drill :: GatePromise(c, children(ValidateAoGate, d)))
    && (forall d: Drill :: PackPromise(w, c, children(BuildPack, d)))
    && (forall d: Drill :: ReadinessPromise(w, c, d.disk, children(CheckReadiness, d)))
    && (forall d: Drill :: ManifestPromise(w, c, d.disk, children(BuildDrillManifest, d)))
    && (forall d: Drill :: ValidatorPromise(w, d.disk, children(ValidateDrillManifest, d)))
    && (forall d: Drill :: CheckPromise(w, d.disk, children(CheckDrillArtifacts, d)))
    && (forall d: Drill :: LedgerPromise(w, c, d.disk, children(WriteLedger, d)))
  }

  /** What `parseArgs` guarantees of the options. */
  predicate ValidConfig(c: Config) { NonBlank(c.release) && NonBlank(c.profile) && NonBlank(c.mode) }

  // ---------------------------------------------------------------- what each step leaves behind

  ghost predicate GateFact(disk: Disk) { AoGateValidation in disk && Includes(Lower(disk[AoGateValidation]), GatePhrase()) }

  ghost predicate CheckFact(w: World, d: Drill, step: Step)
    requires IsCheck(step)
  {
    step in d.evidence && OutputFile(step) in d.disk && d.disk[OutputFile(step)] == w.stringify(d.evidence[step])
  }

  ghost predicate ChecksFact(w: World, c: Config, d: Drill) {
    DrillChecks in d.disk && d.disk[DrillChecks] == w.stringify(ChecksDocument(c, d.evidence))
  }

  ghost predicate PackFact(w: World, c: Config, disk: Disk) {
    Parsed(w, disk, PackJson).Some? && IsPack(c, Parsed(w, disk, PackJson).value)
  }

  ghost predicate ReadinessFact(w: World, c: Config, disk: Disk) {
    && Parsed(w, disk, PackJson).Some? && Parsed(w, disk, Readiness).Some?
    && IsReadiness(c, Parsed(w, disk, PackJson).value, Parsed(w, disk, Readiness).value)
  }

  /** The manifest on the disk is the one that would be built from the disk now: every size and hash is current. */
  ghost predicate ManifestFact(w: World, c: Config, disk: Disk) {
    && (forall f | f in Manifested() :: f in disk)
    && ManifestOf(w, disk, c.outDir, c.manifestTime).Built?
    && Manifest in disk && disk[Manifest] == w.stringify(ManifestOf(w, disk, c.outDir, c.manifestTime).value)
  }

  ghost predicate ValidationFact(disk: Disk) {
    ManifestValidation in disk && Includes(Lower(disk[ManifestValidation]), ManifestPhrase())
  }

  ghost predicate AcceptedFact(w: World, disk: Disk) {
    Parsed(w, disk, DrillCheck).Some? && IsTrue(Parsed(w, disk, DrillCheck).value, Ok)
  }

  lemma GateStep(w: World, c: Config, children: Children, d: Drill)
    requires GatePromise(c, children(ValidateAoGate, d)) && Perform(w, c, children, d, ValidateAoGate).exitCode == 0
    ensures GateFact(Perform(w, c, children, d, ValidateAoGate).drill.disk)
  {
    var text := GatePhrase() + ": " + c.gateFile + "\n";
    GateTextConfirms(c.gateFile);
    assert text != "";
    assert Record(w, c, d.(disk := d.disk + children(ValidateAoGate, d).writes), ValidateAoGate, text).drill.disk[AoGateValidation] == text;
  }

  lemma GateTextConfirms(file: string)
    ensures Includes(Lower(GatePhrase() + ": " + file + "\n"), GatePhrase())
  {
    var text := GatePhrase() + ": " + file + "\n";
    var l := Lower(text);
    forall k | 0 <= k < |GatePhrase()| ensures l[k] == GatePhrase()[k] { LowerGatePhrase(k); }
    assert l[0..|GatePhrase()|] == GatePhrase();
    assert OccursAt(l, GatePhrase(), 0);
  }

  lemma LowerGatePhrase(k: nat)
    requires k < |GatePhrase()|
    ensures LowerChar(GatePhrase()[k]) == GatePhrase()[k]
  {
  }

  lemma CheckStep(w: World, c: Config, children: Children, d: Drill, step: Step)
    requires IsCheck(step) && Perform(w, c, children, d, step).exitCode == 0
    ensures CheckFact(w, Perform(w, c, children, d, step).drill, step)
    ensures step == CheckVariants ==> ChecksFact(w, c, Perform(w, c, children, d, step).drill)
  {
    hide Perform, RecordDocument, OrElse, CheckFact, ChecksFact;
    Succeeded(w, c, children, d, step);
    var child := children(step, d);
    CheckKept(w, c, d.(disk := d.disk + child.writes), step, w.parse(OrElse(child.stdout, "{}")).value);
  }

  lemma CheckKept(w: World, c: Config, d: Drill, step: Step, payload: Json)
    requires IsCheck(step)
    ensures var r := RecordDocument(w, c, d, step, payload);
      && r.ok && CheckFact(w, r.drill, step) && r.drill.evidence[step] == Kept(c, step, payload)
      && (step == CheckVariants ==> ChecksFact(w, c, r.drill))
  {
    hide ChecksDocument, Kept, TextOr, OutputFile, Owner;
    OutputOwner(step);
    TextOwners();
    OneCheck(step);
  }

  lemma OneCheck(step: Step)
    requires IsCheck(step)
    ensures step != SelectBundle && OutputFile(step) != DrillChecks
  {
  }

  lemma PackStep(w: World, c: Config, children: Children, d: Drill)
    requires PackPromise(w, c, children(BuildPack, d)) && Perform(w, c, children, d, BuildPack).exitCode == 0
    ensures PackFact(w, c, Perform(w, c, children, d, BuildPack).drill.disk)
  {
    hide IsPack;
  }

  lemma ReadinessStep(w: World, c: Config, children: Children, d: Drill)
    requires Sound(w) && ReadinessPromise(w, c, d.disk, children(CheckReadiness, d)) && Tidy(children)
    requires Perform(w, c, children, d, CheckReadiness).exitCode == 0
    ensures ReadinessFact(w, c, Perform(w, c, children, d, CheckReadiness).drill.disk)
  {
    hide IsReadiness, Tidy, Perform;
    PerformFrame(w, c, children, d, CheckReadiness, PackJson);
    KeptReadiness(w, c, children, d);
  }

  lemma KeptReadiness(w: World, c: Config, children: Children, d: Drill)
    requires Sound(w) && ReadinessPromise(w, c, d.disk, children(CheckReadiness, d))
    requires Perform(w, c, children, d, CheckReadiness).exitCode == 0
    ensures children(CheckReadiness, d).Exit? && children(CheckReadiness, d).status == Some(0)
    ensures Parsed(w, Perform(w, c, children, d, CheckReadiness).drill.disk, Readiness) == w.parse(children(CheckReadiness, d).stdout)
  {
    hide IsReadiness;
  }

  // ---------------------------------------------------------------- from step to step

  lemma EvidenceRecorded(w: World, c: Config, d: Drill, step: Step, stdout: string, other: Step)
    ensures var after := Record(w, c, d, step, stdout).drill.evidence;
      && (!IsCheck(step) ==> after == d.evidence)
      && (other != step ==> (other in after <==> other in d.evidence) && (other in after && other in d.evidence ==> after[other] == d.evidence[other]))
  {
    hide ChecksDocument, Kept, TextOr, GatePhrase, ManifestPhrase, KeepsJson, OutputFile, OrElse, IsCheck;
    CheckKinds();
  }

  /** The steps change what they remember only at their own position. */
  lemma EvidenceFrame(w: World, c: Config, children: Children, d: Drill, step: Step, other: Step)
    requires other != step
    ensures var after := Perform(w, c, children, d, step).drill.evidence;
      (other in after <==> other in d.evidence) && (other in after && other in d.evidence ==> after[other] == d.evidence[other])
  {
    hide Record;
    var child := children(step, d);
    if child.Exit? { EvidenceRecorded(w, c, d.(disk := d.disk + child.writes), step, child.stdout, other); }
  }

  lemma EvidenceKept(w: World, c: Config, children: Children, d: Drill, step: Step)
    requires !IsCheck(step)
    ensures Perform(w, c, children, d, step).drill.evidence == d.evidence
  {
    hide Record;
    var child := children(step, d);
    if child.Exit? { EvidenceRecorded(w, c, d.(disk := d.disk + child.writes), step, child.stdout, step); }
  }

  lemma PositionsDiffer(a: Step, b: Step)
    ensures Position(a) == Position(b) <==> a == b
  {
  }

  lemma {:induction false} CheckFacts(w: World, c: Config, children: Children, start: Drill, n: nat, step: Step)
    requires Tidy(children) && n <= 20 && Run(w, c, children, start, n).exitCode == 0
    requires IsCheck(step) && Position(step) <= n
    ensures CheckFact(w, Run(w, c, children, start, n).drill, step)
  {
    hide Perform, Plan, Tidy, OutputFile, Position, Owner;
    var before := Run(w, c, children, start, n - 1).drill;
    PositionsDiffer(Plan()[n - 1], step);
    if Position(step) == n {
      CheckStep(w, c, children, before, step);
    } else {
      CheckFacts(w, c, children, start, n - 1, step);
      OutputOwner(step);
      PerformFrame(w, c, children, before, Plan()[n - 1], OutputFile(step));
      EvidenceFrame(w, c, children, before, Plan()[n - 1], step);
    }
  }

  lemma {:induction false} ChecksFacts(w: World, c: Config, children: Children, start: Drill, n: nat)
    requires Tidy(children) && 13 <= n <= 20 && Run(w, c, children, start, n).exitCode == 0
    ensures ChecksFact(w, c, Run(w, c, children, start, n).drill)
  {
    hide Perform, Plan, Tidy, ChecksDocument;
    var before := Run(w, c, children, start, n - 1).drill;
    if n == 13 {
      PositionsDiffer(Plan()[12], CheckVariants);
      CheckStep(w, c, children, before, CheckVariants);
    } else {
      ChecksFacts(w, c, children, start, n - 1);
      PerformFrame(w, c, children, before, Plan()[n - 1], DrillChecks);
      EvidenceKept(w, c, children, before, Plan()[n - 1]);
    }
  }

  /** The `k`-th step of a run whose first `n` steps succeed. */
  lemma StepAt(w: World, c: Config, children: Children, start: Drill, step: Step, n: nat)
    requires Position(step) <= n <= 20 && Run(w, c, children, start, n).exitCode == 0
    ensures var k := Position(step);
      && 1 <= k && Plan()[k - 1] == step
      && Run(w, c, children, start, k).exitCode == 0 && Run(w, c, children, start, k - 1).exitCode == 0
      && Perform(w, c, children, Run(w, c, children, start, k - 1).drill, step) == StepResult(0, Run(w, c, children, start, k).drill)
  {
    hide Perform, Plan;
    var k := Position(step);
    RunShape(w, c, children, start, n);
    PositionsDiffer(Plan()[k - 1], step);
    if k == n {} else { assert Run(w, c, children, start, k).exitCode == 0; }
  }

  lemma SameFacts(w: World, c: Config, gate: Disk, pack: Disk, report: Disk, disk: Disk)
    requires GateFact(gate) && PackFact(w, c, pack) && ReadinessFact(w, c, report)
    requires SameFile(gate, disk, AoGateValidation) && SameFile(pack, disk, PackJson)
    requires SameFile(report, disk, PackJson) && SameFile(report, disk, Readiness)
    ensures GateFact(disk) && PackFact(w, c, disk) && ReadinessFact(w, c, disk)
  {
    hide IsPack, IsReadiness, GatePhrase, Includes, Lower;
  }

  lemma ReleaseFacts(w: World, c: Config, children: Children, start: Drill, n: nat)
    requires Sound(w) && Promises(w, c, children) && 16 <= n <= 20 && Run(w, c, children, start, n).exitCode == 0
    ensures var disk := Run(w, c, children, start, n).drill.disk;
      GateFact(disk) && PackFact(w, c, disk) && ReadinessFact(w, c, disk)
  {
    hide Perform, Plan, Run, Tidy, Sound, PackFact, ReadinessFact, GateFact, SameFile;
    hide GatePromise, PackPromise, ReadinessPromise, ManifestPromise, ValidatorPromise, CheckPromise, LedgerPromise;
    StepAt(w, c, children, start, ValidateAoGate, n);
    StepAt(w, c, children, start, BuildPack, n);
    StepAt(w, c, children, start, CheckReadiness, n);
    GateStep(w, c, children, Run(w, c, children, start, 6).drill);
    PackStep(w, c, children, Run(w, c, children, start, 13).drill);
    ReadinessStep(w, c, children, Run(w, c, children, start, 15).drill);
    Undisturbed(w, c, children, start, 7, n, AoGateValidation);
    Undisturbed(w, c, children, start, 14, n, PackJson);
    Undisturbed(w, c, children, start, 16, n, PackJson);
    Undisturbed(w, c, children, start, 16, n, Readiness);
    var disk := Run(w, c, children, start, n).drill.disk;
    SameFacts(w, c, Run(w, c, children, start, 7).drill.disk, Run(w, c, children, start, 14).drill.disk, Run(w, c, children, start, 16).drill.disk, disk);
  }

  // ---------------------------------------------------------------- the manifest

  lemma ManifestDepends(w: World, a: Disk, b: Disk, dir: string, now: string)
    requires forall f | f in Manifested() :: f in a && f in b && a[f] == b[f]
    ensures ManifestOf(w, a, dir, now) == ManifestOf(w, b, dir, now)
  {
    hide Manifested, DeriveText, ReadArtifact;
    assert Readiness == Manifested()[8] && PackJson == Manifested()[6];
    assert ReadArtifacts(w, a) == ReadArtifacts(w, b);
  }

  lemma ManifestStep(w: World, c: Config, children: Children, d: Drill)
    requires ManifestPromise(w, c, d.disk, children(BuildDrillManifest, d)) && Tidy(children)
    requires Perform(w, c, children, d, BuildDrillManifest).exitCode == 0
    ensures ManifestFact(w, c, Perform(w, c, children, d, BuildDrillManifest).drill.disk)
  {
    hide Manifested, Tidy, Perform, ManifestOf;
    var after := Perform(w, c, children, d, BuildDrillManifest).drill.disk;
    ManifestWritten(w, c, children, d);
    forall f | f in Manifested() ensures f in d.disk && f in after && d.disk[f] == after[f] {
      ManifestOwners(f);
      PerformFrame(w, c, children, d, BuildDrillManifest, f);
    }
    ManifestDepends(w, d.disk, after, c.outDir, c.manifestTime);
  }

  lemma NothingRecorded(w: World, c: Config, d: Drill, stdout: string)
    ensures Record(w, c, d, BuildDrillManifest, stdout) == Recorded(true, d)
  {
    hide RecordDocument, OrElse, GatePhrase, ManifestPhrase;
  }

  lemma ManifestWritten(w: World, c: Config, children: Children, d: Drill)
    requires ManifestPromise(w, c, d.disk, children(BuildDrillManifest, d))
    requires Perform(w, c, children, d, BuildDrillManifest).exitCode == 0
    ensures (forall f | f in Manifested() :: f in d.disk) && ManifestOf(w, d.disk, c.outDir, c.manifestTime).Built?
    ensures Perform(w, c, children, d, BuildDrillManifest).drill.disk
         == d.disk[Manifest := w.stringify(ManifestOf(w, d.disk, c.outDir, c.manifestTime).value)]
  {
    hide ManifestOf, Manifested, Perform, RecordDocument, KeepsJson;
    Succeeded(w, c, children, d, BuildDrillManifest);
    NothingRecorded(w, c, d.(disk := d.disk + children(BuildDrillManifest, d).writes), children(BuildDrillManifest, d).stdout);
  }

  /** No later step writes a manifested file: whenever the run goes on, and when it ends with exit code 0,
      every path, size and hash in the manifest is that of the file on the disk. */
  lemma ManifestFresh(w: World, c: Config, children: Children, start: Drill, n: nat)
    requires Promises(w, c, children) && 17 <= n <= 20 && Run(w, c, children, start, n).exitCode == 0
    ensures ManifestFact(w, c, Run(w, c, children, start, n).drill.disk)
  {
    hide Perform, Plan, Run, Tidy, ManifestOf, Manifested, GatePromise, PackPromise, ReadinessPromise, ValidatorPromise, CheckPromise, LedgerPromise;
    var built, now := Run(w, c, children, start, 17).drill.disk, Run(w, c, children, start, n).drill.disk;
    StepAt(w, c, children, start, BuildDrillManifest, n);
    ManifestStep(w, c, children, Run(w, c, children, start, 16).drill);
    forall f | f in Manifested() ensures f in built && f in now && built[f] == now[f] {
      ManifestOwners(f);
      Undisturbed(w, c, children, start, 17, n, f);
    }
    Undisturbed(w, c, children, start, 17, n, Manifest);
    ManifestDepends(w, built, now, c.outDir, c.manifestTime);
  }

  lemma ManifestEntries(w: World, c: Config, disk: Disk)
    requires Sound(w) && ManifestFact(w, c, disk)
    ensures Parsed(w, disk, Manifest).Some? && (forall f | f in Manifested() :: f in disk)
    ensures Field(Parsed(w, disk, Manifest).value, Artifacts) == Some(Arr(ReadArtifacts(w, disk)))
  {
    hide Manifested, DeriveText, ReadArtifacts;
  }

  // ---------------------------------------------------------------- the strict check passes

  /** From step 17 on, and when the drill ends with exit code 0, the manifest that is read from the directory lists the
      manifested files in order, each with the name, the size and the hash it has on the disk at that moment. */
  lemma ManifestMeasures(w: World, c: Config, children: Children, start: Drill, n: nat)
    requires Sound(w) && Promises(w, c, children) && 17 <= n <= 20 && Run(w, c, children, start, n).exitCode == 0
    ensures var disk := Run(w, c, children, start, n).drill.disk;
      Parsed(w, disk, Manifest).Some? && Records(w, disk, Parsed(w, disk, Manifest).value)
  {
    hide Run, Promises, ManifestOf, Manifested, Records;
    var disk := Run(w, c, children, start, n).drill.disk;
    ManifestFresh(w, c, children, start, n);
    ManifestRecords(w, disk, c.outDir, c.manifestTime);
  }

  lemma NamedRelease(value: Json, release: string)
    requires Field(value, Release) == Some(Str(release)) && NonBlank(release)
    ensures ReleaseOf(value) == Trim(release) != ""
  {
    hide Trim;
  }

  lemma PackRelease(c: Config, pack: Json)
    requires ValidConfig(c) && IsPack(c, pack)
    ensures ReleaseOf(pack) == Trim(c.release) != "" && IsText(Field(pack, Status))
  {
    hide Trim, NonBlank, Ready, Warning, IsText, Field, ReleaseOf;
    NamedRelease(pack, c.release);
    StatusTexts();
  }

  lemma StatusTexts()
    ensures IsText(Ready()) && IsText(Warning()) && Lower(TextOr(Ready())) == "ready" && Lower(TextOr(Warning())) != "ready"
  {
    hide TextOr, IsText;
    PlainWord("ready");
    PlainWord("warning");
    assert Lower("ready") == "ready";
    assert |Lower("warning")| == 7;
  }

  lemma ReadinessRelease(c: Config, pack: Json, report: Json)
    requires ValidConfig(c) && IsPack(c, pack) && IsReadiness(c, pack, report)
    ensures ReleaseOf(report) == Trim(c.release) != "" && IsText(Field(report, Status))
  {
    hide Trim, NonBlank, Ready, Warning, IsText, Field, ReleaseOf;
    PackRelease(c, pack);
    TrimIdempotent(c.release);
    NamedRelease(report, Trim(c.release));
    StatusTexts();
  }

  /** From a pack and a readiness report as promised a manifest can be built, for the same release. */
  lemma ManifestBuilds(w: World, c: Config, disk: Disk)
    requires ValidConfig(c) && PackFact(w, c, disk) && ReadinessFact(w, c, disk) && forall f | f in Manifested() :: f in disk
    ensures ManifestOf(w, disk, c.outDir, c.manifestTime).Built?
    ensures var m := ManifestOf(w, disk, c.outDir, c.manifestTime).value; m.Obj? && ReleaseOf(m) == Trim(c.release)
  {
    hide IsPack, IsReadiness, Manifested, Trim, NonBlank, ReadArtifacts;
    var pack, report := Parsed(w, disk, PackJson).value, Parsed(w, disk, Readiness).value;
    ReadinessRelease(c, pack, report);
    TextOrTrimmed(Field(report, Release));
    assert DeriveText(report, pack, Release) == Trim(c.release);
    assert DeriveText(report, pack, Status) != "";
  }

  lemma AllFiles(w: World, c: Config, children: Children, start: Drill, n: nat)
    requires n <= 20 && Run(w, c, children, start, n).exitCode == 0
    ensures forall f | 1 <= Owner(f) <= n :: f in Run(w, c, children, start, n).drill.disk
  {
    hide Run, Owner;
    forall f | 1 <= Owner(f) <= n ensures f in Run(w, c, children, start, n).drill.disk {
      FilesProduced(w, c, children, start, n, f);
    }
  }

  lemma {:induction false} NothingMissingHere(disk: Disk, required: seq<FileName>, n: nat)
    requires n <= |required| && forall k | 0 <= k < n :: required[k] in disk
    ensures MissingOf(disk, required, n) == []
  {
    if n > 0 { NothingMissingHere(disk, required, n - 1); }
  }

  lemma ReadsDirectly(w: World, disk: Disk, f: FileName)
    requires f in disk
    ensures ReadText(disk, f) == Some(disk[f]) && ReadJson(w, disk, f) == Parsed(w, disk, f)
  {
  }

  ghost predicate SixCheckFacts(w: World, d: Drill) {
    && CheckFact(w, d, CheckLegacyCore) && CheckFact(w, d, CheckLegacyCrypto) && CheckFact(w, d, CheckWorkerMap)
    && CheckFact(w, d, CheckForgetForward) && CheckFact(w, d, CheckSignatureRefs) && CheckFact(w, d, CheckVariants)
  }

  /** The embedded results are the artifact files, document by document. */
  lemma EmbeddedMatch(w: World, c: Config, d: Drill, k: nat)
    requires Sound(w) && SixCheckFacts(w, d) && k < 6
    ensures EmbeddedAgrees(w, d.disk, ChecksDocument(c, d.evidence), Embedded()[k].0, Embedded()[k].1)
  {
    var steps := [CheckLegacyCore, CheckLegacyCrypto, CheckWorkerMap, CheckForgetForward, CheckSignatureRefs, CheckVariants];
    var step := steps[k];
    assert CheckFact(w, d, step) && OutputFile(step) == Embedded()[k].1;
    ReadsDirectly(w, d.disk, OutputFile(step));
    assert Field(ChecksDocument(c, d.evidence), Embedded()[k].0) == Some(d.evidence[step]);
  }

  lemma ChecksDocumentAgrees(w: World, c: Config, d: Drill)
    requires Sound(w) && ValidConfig(c) && SixCheckFacts(w, d) && ChecksFact(w, c, d)
    ensures Document(w, d.disk, DrillChecks) == ChecksDocument(c, d.evidence)
    ensures ReadJson(w, d.disk, DrillChecks).Some? && ChecksAgree(w, d.disk, ChecksDocument(c, d.evidence))
    ensures ReleaseOf(ChecksDocument(c, d.evidence)) == Trim(c.release)
  {
    hide CheckFact, EmbeddedAgrees, Embedded, Trim;
    ReadsDirectly(w, d.disk, DrillChecks);
    forall k | 0 <= k < 6 ensures EmbeddedAgrees(w, d.disk, ChecksDocument(c, d.evidence), Embedded()[k].0, Embedded()[k].1) {
      EmbeddedMatch(w, c, d, k);
    }
  }

  /** The manifest on the disk has the expected shape and the configured release. */
  lemma ManifestDocumentAgrees(w: World, c: Config, disk: Disk)
    requires Sound(w) && ValidConfig(c) && PackFact(w, c, disk) && ReadinessFact(w, c, disk) && ManifestFact(w, c, disk)
    ensures ReadJson(w, disk, Manifest).Some?
    ensures var m := Document(w, disk, Manifest); ManifestAgrees(m) && ReleaseOf(m) == Trim(c.release)
    ensures Parsed(w, disk, Manifest).Some? && ManifestIssues(Parsed(w, disk, Manifest).value, true) == []
  {
    hide ManifestIssues, ManifestPathIssues, ListsExpectedPaths, Manifested, ManifestOf, Trim, PackFact, ReadinessFact, IsText, ValidConfig, ReleaseOf, Field;
    ManifestBuilds(w, c, disk);
    BuiltManifestPasses(w, disk, c.outDir, c.manifestTime);
    PathCheckExact(ManifestOf(w, disk, c.outDir, c.manifestTime).value);
    ReadsDirectly(w, disk, Manifest);
  }

  lemma ReleaseDocumentsAgree(w: World, c: Config, disk: Disk)
    requires ValidConfig(c) && PackFact(w, c, disk) && ReadinessFact(w, c, disk)
    ensures ReadJson(w, disk, PackJson).Some? && ReleaseOf(Document(w, disk, PackJson)) == Trim(c.release)
    ensures ReadJson(w, disk, Readiness).Some? && ReleaseOf(Document(w, disk, Readiness)) == Trim(c.release)
  {
    hide IsPack, IsReadiness, Trim, ReleaseOf, ValidConfig, IsText, Field;
    var pack, report := Parsed(w, disk, PackJson).value, Parsed(w, disk, Readiness).value;
    PackRelease(c, pack);
    ReadinessRelease(c, pack, report);
    ReadsDirectly(w, disk, PackJson);
    ReadsDirectly(w, disk, Readiness);
  }

  lemma TextsAgree(disk: Disk)
    requires GateFact(disk) && ValidationFact(disk)
    ensures TextConfirms(disk, ManifestValidation, ManifestPhrase()) && TextConfirms(disk, AoGateValidation, GatePhrase())
  {
    hide Includes, GatePhrase, ManifestPhrase, Lower;
  }

  lemma SameRelease(r: string)
    ensures OneRelease(r, r, r, r)
  {
    assert Fits(r, r);
  }

  lemma FactsAgree(w: World, c: Config, d: Drill)
    requires Sound(w) && ValidConfig(c) && SixCheckFacts(w, d) && ChecksFact(w, c, d)
    requires GateFact(d.disk) && PackFact(w, c, d.disk) && ReadinessFact(w, c, d.disk)
    requires ManifestFact(w, c, d.disk) && ValidationFact(d.disk)
    ensures Agreement(w, d.disk)
  {
    hide Sound, ValidConfig, SixCheckFacts, ChecksFact, GateFact, PackFact, ReadinessFact, ManifestFact, ValidationFact;
    hide ChecksAgree, ManifestAgrees, TextConfirms, Document, ReadJson, ReleaseOf, ChecksDocument, Trim, OneRelease, ManifestPhrase, GatePhrase;
    ChecksDocumentAgrees(w, c, d);
    ManifestDocumentAgrees(w, c, d.disk);
    ReleaseDocumentsAgree(w, c, d.disk);
    TextsAgree(d.disk);
    SameRelease(Trim(c.release));
  }

  lemma ReportKept(w: World, c: Config, children: Children, d: Drill)
    requires ValidatorPromise(w, d.disk, children(ValidateDrillManifest, d))
    requires Parsed(w, d.disk, Manifest).Some? && ManifestIssues(Parsed(w, d.disk, Manifest).value, true) == []
    ensures Perform(w, c, children, d, ValidateDrillManifest).exitCode == 0
    ensures ValidationFact(Perform(w, c, children, d, ValidateDrillManifest).drill.disk)
  {
    hide Parsed, ManifestIssues, ManifestPhrase, Includes, Lower;
    var child := children(ValidateDrillManifest, d);
    var file :| child.stdout == ManifestPhrase() + ": " + file + "\n";
    EveryReportConfirms(file, [], i => "");
    assert child.stdout != "";
    assert d.disk + child.writes == d.disk;
  }

  lemma ValidatorStep(w: World, c: Config, children: Children, d: Drill)
    requires Sound(w) && ValidConfig(c) && ValidatorPromise(w, d.disk, children(ValidateDrillManifest, d))
    requires PackFact(w, c, d.disk) && ReadinessFact(w, c, d.disk) && ManifestFact(w, c, d.disk)
    ensures Perform(w, c, children, d, ValidateDrillManifest).exitCode == 0
    ensures ValidationFact(Perform(w, c, children, d, ValidateDrillManifest).drill.disk)
  {
    hide Sound, ValidConfig, ValidatorPromise, PackFact, ReadinessFact, ManifestFact, Perform, ValidationFact, Parsed, ManifestIssues;
    ManifestDocumentAgrees(w, c, d.disk);
    ReportKept(w, c, children, d);
  }

  lemma ValidationFacts(w: World, c: Config, children: Children, start: Drill, n: nat)
    requires Sound(w) && ValidConfig(c) && Promises(w, c, children) && 18 <= n <= 20 && Run(w, c, children, start, n).exitCode == 0
    ensures ValidationFact(Run(w, c, children, start, n).drill.disk)
  {
    hide Perform, Plan, Run, Tidy, ManifestPhrase, ManifestFact, PackFact, ReadinessFact, GateFact, ValidConfig, Sound, Includes, Lower, GatePromise, PackPromise, ReadinessPromise, ManifestPromise, CheckPromise, LedgerPromise;
    StepAt(w, c, children, start, ValidateDrillManifest, n);
    ManifestFresh(w, c, children, start, 17);
    ReleaseFacts(w, c, children, start, 17);
    ValidatorStep(w, c, children, Run(w, c, children, start, 17).drill);
    Undisturbed(w, c, children, start, 18, n, ManifestValidation);
  }

  lemma SixChecks(w: World, c: Config, children: Children, start: Drill, n: nat)
    requires Tidy(children) && 13 <= n <= 20 && Run(w, c, children, start, n).exitCode == 0
    ensures SixCheckFacts(w, Run(w, c, children, start, n).drill)
  {
    hide CheckFact, Tidy, Run;
    CheckFacts(w, c, children, start, n, CheckLegacyCore);
    CheckFacts(w, c, children, start, n, CheckLegacyCrypto);
    CheckFacts(w, c, children, start, n, CheckWorkerMap);
    CheckFacts(w, c, children, start, n, CheckForgetForward);
    CheckFacts(w, c, children, start, n, CheckSignatureRefs);
    CheckFacts(w, c, children, start, n, CheckVariants);
  }

  /** A run that reaches step 19 always passes the strict artifact check, whatever was in the directory before. */
  lemma StrictCheckPasses(w: World, c: Config, children: Children, start: Drill)
    requires Sound(w) && ValidConfig(c) && Promises(w, c, children) && Run(w, c, children, start, 18).exitCode == 0
    ensures Accepted(w, Run(w, c, children, start, 18).drill.disk)
  {
    hide Run, Promises, SixCheckFacts, ChecksFact, GateFact, PackFact, ReadinessFact, ManifestFact, ValidationFact, Agreement, StrictIssues, Required, ValidConfig, Sound, Owner;
    var d := Run(w, c, children, start, 18).drill;
    Promised(w, c, children, d);
    SixChecks(w, c, children, start, 18);
    ChecksFacts(w, c, children, start, 18);
    ReleaseFacts(w, c, children, start, 18);
    ManifestFresh(w, c, children, start, 18);
    ValidationFacts(w, c, children, start, 18);
    FactsAgree(w, c, d);
    StrictExact(w, d.disk);
    AllFiles(w, c, children, start, 18);
    forall k | 0 <= k < |Required()| ensures Required()[k] in d.disk { RequiredOwners(Required()[k]); }
    NothingMissingHere(d.disk, Required(), |Required()|);
  }

  // ---------------------------------------------------------------- nothing fails after the readiness check

  lemma NextStep(w: World, c: Config, children: Children, start: Drill, n: nat, step: Step)
    requires n < 20 && Run(w, c, children, start, n).exitCode == 0 && Position(step) == n + 1
    requires Perform(w, c, children, Run(w, c, children, start, n).drill, step).exitCode == 0
    ensures Run(w, c, children, start, n + 1).exitCode == 0
  {
    hide Perform, Plan;
    PositionsDiffer(Plan()[n], step);
  }

  lemma ManifestStepSucceeds(w: World, c: Config, children: Children, d: Drill)
    requires ManifestPromise(w, c, d.disk, children(BuildDrillManifest, d)) && (forall f | f in Manifested() :: f in d.disk)
    requires ValidConfig(c) && PackFact(w, c, d.disk) && ReadinessFact(w, c, d.disk)
    ensures Perform(w, c, children, d, BuildDrillManifest).exitCode == 0
  {
    hide ManifestOf, Manifested, PackFact, ReadinessFact, ValidConfig, Perform, ManifestPromise;
    ManifestBuildable(w, c, d.disk);
    BuiltStepSucceeds(w, c, children, d);
  }

  lemma ManifestBuildable(w: World, c: Config, disk: Disk)
    requires ValidConfig(c) && PackFact(w, c, disk) && ReadinessFact(w, c, disk) && forall f | f in Manifested() :: f in disk
    ensures ManifestOf(w, disk, c.outDir, c.manifestTime).Built?
  {
    ManifestBuilds(w, c, disk);
  }

  lemma BuiltStepSucceeds(w: World, c: Config, children: Children, d: Drill)
    requires ManifestPromise(w, c, d.disk, children(BuildDrillManifest, d)) && (forall f | f in Manifested() :: f in d.disk)
    requires ManifestOf(w, d.disk, c.outDir, c.manifestTime).Built?
    ensures Perform(w, c, children, d, BuildDrillManifest).exitCode == 0
  {
    hide ManifestOf, Manifested;
  }

  lemma CheckStepSucceeds(w: World, c: Config, children: Children, d: Drill)
    requires Sound(w) && CheckPromise(w, d.disk, children(CheckDrillArtifacts, d)) && Accepted(w, d.disk)
    ensures Perform(w, c, children, d, CheckDrillArtifacts).exitCode == 0
    ensures AcceptedFact(w, Perform(w, c, children, d, CheckDrillArtifacts).drill.disk)
  {
    hide Accepted, IsTrue;
  }

  lemma LedgerStepSucceeds(w: World, c: Config, children: Children, d: Drill)
    requires LedgerPromise(w, c, d.disk, children(WriteLedger, d)) && Buildable(w, d.disk)
    requires c.strict ==> LedgerReady(w, d.disk)
    ensures Perform(w, c, children, d, WriteLedger).exitCode == 0
  {
    hide Buildable, LedgerReady, IsLedgerDocument, Parsed;
  }

  lemma ReadyPack(c: Config, pack: Json, report: Json)
    requires IsPack(c, pack) && IsReadiness(c, pack, report)
    ensures IsReady(report) <==> Field(report, Status) == Ready()
    ensures IsReady(report) ==> IsReady(pack)
    ensures c.strict ==> IsReady(report)
  {
    StatusTexts();
  }

  ghost predicate FinalDisk(w: World, c: Config, disk: Disk) {
    && (forall f | f in LedgerFiles() :: f in disk)
    && GateFact(disk) && PackFact(w, c, disk) && ReadinessFact(w, c, disk) && ValidationFact(disk) && AcceptedFact(w, disk)
    && Parsed(w, disk, LatestBundle).Some?
  }

  lemma LedgerVerdict(w: World, c: Config, disk: Disk)
    requires FinalDisk(w, c, disk)
    ensures Buildable(w, disk)
    ensures LedgerReady(w, disk) <==> Field(Parsed(w, disk, Readiness).value, Status) == Ready()
    ensures c.strict ==> LedgerReady(w, disk)
  {
    hide LedgerFiles, IsReady, Includes, GatePhrase, ManifestPhrase, IsTrue;
    LedgerFilesInclude();
    ReadyPack(c, Parsed(w, disk, PackJson).value, Parsed(w, disk, Readiness).value);
  }

  lemma BundleStep(w: World, c: Config, children: Children, d: Drill)
    requires Sound(w) && Perform(w, c, children, d, SelectBundle).exitCode == 0
    ensures Parsed(w, Perform(w, c, children, d, SelectBundle).drill.disk, LatestBundle).Some?
  {
    hide TextOr;
  }

  lemma BundleFact(w: World, c: Config, children: Children, start: Drill, n: nat)
    requires Sound(w) && Tidy(children) && 5 <= n <= 20 && Run(w, c, children, start, n).exitCode == 0
    ensures Parsed(w, Run(w, c, children, start, n).drill.disk, LatestBundle).Some?
  {
    hide Run, Perform, Plan, Tidy;
    StepAt(w, c, children, start, SelectBundle, n);
    BundleStep(w, c, children, Run(w, c, children, start, 4).drill);
    Undisturbed(w, c, children, start, 5, n, LatestBundle);
  }

  lemma Promised(w: World, c: Config, children: Children, d: Drill)
    requires Promises(w, c, children)
    ensures Tidy(children)
    ensures ManifestPromise(w, c, d.disk, children(BuildDrillManifest, d))
    ensures ValidatorPromise(w, d.disk, children(ValidateDrillManifest, d))
    ensures CheckPromise(w, d.disk, children(CheckDrillArtifacts, d))
    ensures LedgerPromise(w, c, d.disk, children(WriteLedger, d))
  {
    hide Tidy, GatePromise, PackPromise, ReadinessPromise, ManifestPromise, ValidatorPromise, CheckPromise, LedgerPromise;
  }

  lemma ManifestedPresent(w: World, c: Config, children: Children, start: Drill)
    requires Run(w, c, children, start, 16).exitCode == 0
    ensures forall f | f in Manifested() :: f in Run(w, c, children, start, 16).drill.disk
  {
    hide Run, Manifested, Owner;
    forall f | f in Manifested() ensures f in Run(w, c, children, start, 16).drill.disk {
      ManifestOwners(f);
      FilesProduced(w, c, children, start, 16, f);
    }
  }

  lemma ManifestIsBuilt(w: World, c: Config, children: Children, start: Drill)
    requires Sound(w) && ValidConfig(c) && Promises(w, c, children) && Run(w, c, children, start, 16).exitCode == 0
    ensures Run(w, c, children, start, 17).exitCode == 0
  {
    hide Run, Promises, ManifestOf, Manifested, PackFact, ReadinessFact, GateFact, Owner, ValidConfig, Sound, Perform;
    hide ManifestPromise, ValidatorPromise, CheckPromise, LedgerPromise;
    var d := Run(w, c, children, start, 16).drill;
    ReleaseFacts(w, c, children, start, 16);
    ManifestedPresent(w, c, children, start);
    Promised(w, c, children, d);
    ManifestStepSucceeds(w, c, children, d);
    NextStep(w, c, children, start, 16, BuildDrillManifest);
  }

  lemma ManifestIsValidated(w: World, c: Config, children: Children, start: Drill)
    requires Sound(w) && ValidConfig(c) && Promises(w, c, children) && Run(w, c, children, start, 17).exitCode == 0
    ensures Run(w, c, children, start, 18).exitCode == 0
  {
    hide Run, Promises, ManifestFact, PackFact, ReadinessFact, GateFact, ValidationFact, ValidConfig, Sound, Perform;
    hide ManifestPromise, ValidatorPromise, CheckPromise, LedgerPromise;
    var d := Run(w, c, children, start, 17).drill;
    ManifestFresh(w, c, children, start, 17);
    ReleaseFacts(w, c, children, start, 17);
    Promised(w, c, children, d);
    ValidatorStep(w, c, children, d);
    NextStep(w, c, children, start, 17, ValidateDrillManifest);
  }

  lemma ThroughTheCheck(w: World, c: Config, children: Children, start: Drill)
    requires Sound(w) && ValidConfig(c) && Promises(w, c, children) && Run(w, c, children, start, 16).exitCode == 0
    ensures Run(w, c, children, start, 19).exitCode == 0
    ensures AcceptedFact(w, Run(w, c, children, start, 19).drill.disk)
  {
    hide Run, Promises, Accepted, AcceptedFact, ValidConfig, Sound, Perform;
    hide ManifestPromise, ValidatorPromise, CheckPromise, LedgerPromise;
    ManifestIsBuilt(w, c, children, start);
    ManifestIsValidated(w, c, children, start);
    StrictCheckPasses(w, c, children, start);
    var d := Run(w, c, children, start, 18).drill;
    Promised(w, c, children, d);
    CheckStepSucceeds(w, c, children, d);
    NextStep(w, c, children, start, 18, CheckDrillArtifacts);
    StepAt(w, c, children, start, CheckDrillArtifacts, 19);
  }

  /** Once the readiness check has passed, the drill cannot fail any more: steps 17 to 20 only confirm what the first
      sixteen produced. The ledger then says `ready` exactly when the readiness report does, and always in strict mode. */
  lemma ReadyRunsFinish(w: World, c: Config, children: Children, start: Drill)
    requires Sound(w) && ValidConfig(c) && Promises(w, c, children) && Run(w, c, children, start, 16).exitCode == 0
    ensures Run(w, c, children, start, 20).exitCode == 0
    ensures var disk := Run(w, c, children, start, 19).drill.disk;
      && Parsed(w, disk, Readiness).Some?
      && (LedgerReady(w, disk) <==> Field(Parsed(w, disk, Readiness).value, Status) == Ready())
      && (c.strict ==> LedgerReady(w, disk))
  {
    hide Run, Perform, Plan, Tidy, AcceptedFact, PackFact, GateFact, ValidationFact, Owner, GatePromise, PackPromise, ReadinessPromise, ManifestPromise, ValidatorPromise, CheckPromise, LedgerPromise, ValidConfig, Sound, LedgerReady, Buildable, LedgerFiles, IsReadiness;
    var d := Run(w, c, children, start, 19).drill;
    ThroughTheCheck(w, c, children, start);
    ReleaseFacts(w, c, children, start, 19);
    ValidationFacts(w, c, children, start, 19);
    BundleFact(w, c, children, start, 19);
    AllFiles(w, c, children, start, 19);
    forall f | f in LedgerFiles() ensures f in d.disk { LedgerOwners(f); }
    LedgerVerdict(w, c, d.disk);
    LedgerStepSucceeds(w, c, children, d);
    NextStep(w, c, children, start, 19, WriteLedger);
  }
}
