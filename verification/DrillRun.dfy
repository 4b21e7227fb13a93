/** The release drill: twenty steps, each a child script, over one directory; the first failing step ends the run. */
module DrillRun {
  import opened Strings
  import opened Documents
  import opened DrillFiles
  import opened DrillManifest
  import opened DrillCheck
  import opened DrillLedger

  datatype Step =
    | Preflight | Compare | ExportReport | ExportEvidence | SelectBundle | CheckEvidence | ValidateAoGate
    | CheckLegacyCore | CheckLegacyCrypto | CheckWorkerMap | CheckForgetForward | CheckSignatureRefs | CheckVariants
    | BuildPack | BuildChecklist | CheckReadiness | BuildDrillManifest | ValidateDrillManifest | CheckDrillArtifacts | WriteLedger

  function Position(step: Step): nat {
    match step
    case Preflight => 1 case Compare => 2 case ExportReport => 3 case ExportEvidence => 4 case SelectBundle => 5
    case CheckEvidence => 6 case ValidateAoGate => 7 case CheckLegacyCore => 8 case CheckLegacyCrypto => 9
    case CheckWorkerMap => 10 case CheckForgetForward => 11 case CheckSignatureRefs => 12 case CheckVariants => 13
    case BuildPack => 14 case BuildChecklist => 15 case CheckReadiness => 16 case BuildDrillManifest => 17
    case ValidateDrillManifest => 18 case CheckDrillArtifacts => 19 case WriteLedger => 20
  }

  /** The plan, in order. */
  function Plan(): (r: seq<Step>)
    ensures |r| == 20 && forall i | 0 <= i < 20 :: Position(r[i]) == i + 1
  {
    [Preflight, Compare, ExportReport, ExportEvidence, SelectBundle, CheckEvidence, ValidateAoGate,
     CheckLegacyCore, CheckLegacyCrypto, CheckWorkerMap, CheckForgetForward, CheckSignatureRefs, CheckVariants,
     BuildPack, BuildChecklist, CheckReadiness, BuildDrillManifest, ValidateDrillManifest, CheckDrillArtifacts, WriteLedger]
  }

  /** The position of the step that produces a file; 0 when no step does. */
  function Owner(f: FileName): nat {
    match f
    case Matrix => 2 case DriftReport => 3 case DriftSummary => 3 case LatestBundle => 5 case AoGateValidation => 7
    case LegacyCore => 8 case LegacyCrypto => 9 case WorkerMapCoherence => 10 case ForgetForward => 11
    case SignatureRefMap => 12 case VariantMap => 13 case DrillChecks => 13 case PackMarkdown => 14 case PackJson => 14
    case Checklist => 15 case Readiness => 16 case Manifest => 17 case ManifestValidation => 18 case DrillCheck => 19
    case LedgerMarkdown => 20 case LedgerJson => 20 case LegacyName(_, _) => 0 case OtherFile(_) => 0
  }

  // ---------------------------------------------------------------- the runner

  datatype Config = Config(outDir: string, release: string, profile: string, mode: string, strict: bool, createdAt: string, manifestTime: string,
                           gateFile: string, workerMapConfigured: bool, signatureConfigured: bool, signatureSites: seq<string>,
                           variantConfigured: bool, variantSites: seq<string>)

  /** The directory, and what the runner remembers from step to step. */
  datatype Drill = Drill(disk: Disk, latestBundleDir: string, evidence: map<Step, Json>)

  /** How a child script ended; `status` is absent when a signal killed it. */
  datatype Child = StartFailure | Exit(status: Option<int>, stdout: string, writes: Disk)
  type Children = (Step, Drill) -> Child

  function NormalizeChildExitCode(status: Option<int>): nat {
    if status == Some(64) then 64 else if status == Some(0) then 0 else 3
  }

  function OrElse(text: string, fallback: string): string { if text == "" then fallback else text }

  /** The steps whose standard output is a JSON document that the runner keeps. */
  predicate KeepsJson(step: Step) {
    step in {Compare, SelectBundle, CheckReadiness, CheckDrillArtifacts} || IsCheck(step)
  }

  /** The steps whose document is also embedded in `release-drill-checks.json`. */
  predicate IsCheck(step: Step) { 8 <= Position(step) <= 13 }

  function OutputFile(step: Step): FileName
    requires KeepsJson(step)
  {
    match step
    case Compare => Matrix
    case SelectBundle => LatestBundle
    case CheckLegacyCore => LegacyCore
    case CheckLegacyCrypto => LegacyCrypto
    case CheckWorkerMap => WorkerMapCoherence
    case CheckForgetForward => ForgetForward
    case CheckSignatureRefs => SignatureRefMap
    case CheckVariants => VariantMap
    case CheckReadiness => Readiness
    case CheckDrillArtifacts => DrillCheck
  }

  function Strs(items: seq<string>): Json { Arr(seq(|items|, i requires 0 <= i < |items| => Str(items[i]))) }

  /** What the runner puts in front of the document of a template check. */
  function Base(c: Config, step: Step): map<Key, Json> {
    match step
    case CheckWorkerMap => map[Configured := Bool(c.workerMapConfigured)]
    case CheckSignatureRefs => map[Configured := Bool(c.signatureConfigured), RequiredSites := Strs(c.signatureSites)]
    case CheckVariants => map[Configured := Bool(c.variantConfigured), RequiredSites := Strs(c.variantSites)]
    case _ => map[]
  }

  function Kept(c: Config, step: Step, payload: Json): Json {
    if step in {CheckWorkerMap, CheckSignatureRefs, CheckVariants} then Obj(Base(c, step) + Fields(payload)) else payload
  }

  function EvidenceOf(evidence: map<Step, Json>, step: Step): Json { if step in evidence then evidence[step] else Null }

  /** `release-drill-checks.json` */
  function ChecksDocument(c: Config, evidence: map<Step, Json>): Json {
    Obj(map[Release := Str(c.release), Profile := Str(c.profile), Mode := Str(c.mode), Strict := Bool(c.strict),
            CreatedAt := Str(c.createdAt),
            LegacyCoreExtractionEvidence := EvidenceOf(evidence, CheckLegacyCore),
            LegacyCryptoBoundaryEvidence := EvidenceOf(evidence, CheckLegacyCrypto),
            Key.TemplateWorkerMapCoherence := EvidenceOf(evidence, CheckWorkerMap),
            ForgetForwardConfig := EvidenceOf(evidence, CheckForgetForward),
            TemplateSignatureRefMap := EvidenceOf(evidence, CheckSignatureRefs),
            TemplateVariantMap := EvidenceOf(evidence, CheckVariants)])
  }

  /** What the runner does with the output of a child that succeeded; `ok` is false when it throws. */
  datatype Recorded = Recorded(ok: bool, drill: Drill)

  function RecordDocument(w: World, c: Config, d: Drill, step: Step, payload: Json): Recorded
    requires KeepsJson(step)
  {
    var kept := Kept(c, step, payload);
    var written := d.disk[OutputFile(step) := w.stringify(kept)];
    if step == SelectBundle then
      var dir := TextOr(Field(payload, BundleDir));
      if dir == "" then Recorded(false, d.(disk := written))
      else Recorded(true, d.(disk := written, latestBundleDir := dir))
    else if step == CheckVariants then
      var evidence := d.evidence[step := kept];
      Recorded(true, d.(disk := written[DrillChecks := w.stringify(ChecksDocument(c, evidence))], evidence := evidence))
    else if IsCheck(step) then Recorded(true, d.(disk := written, evidence := d.evidence[step := kept]))
    else Recorded(true, d.(disk := written))
  }

  function Record(w: World, c: Config, d: Drill, step: Step, stdout: string): Recorded {
    if KeepsJson(step) then
      match w.parse(OrElse(stdout, "{}"))
      case None => Recorded(false, d)
      case Some(payload) => RecordDocument(w, c, d, step, payload)
    else if step == ValidateAoGate then
      Recorded(true, d.(disk := d.disk[AoGateValidation := OrElse(stdout, GatePhrase() + ": " + c.gateFile + "\n")]))
    else if step == ValidateDrillManifest then
      Recorded(true, d.(disk := d.disk[ManifestValidation := OrElse(stdout, ManifestPhrase() + "\n")]))
    else Recorded(true, d)
  }

  /** The files `ensureFile` insists on after a step. */
  function Ensured(step: Step): set<FileName> {
    match step
    case ExportReport => {DriftReport, DriftSummary}
    case SelectBundle => {LatestBundle}
    case ValidateAoGate => {AoGateValidation}
    case CheckLegacyCore => {LegacyCore}
    case CheckLegacyCrypto => {LegacyCrypto}
    case CheckWorkerMap => {WorkerMapCoherence}
    case CheckForgetForward => {ForgetForward}
    case CheckSignatureRefs => {SignatureRefMap}
    case CheckVariants => {VariantMap, DrillChecks}
    case BuildPack => {PackMarkdown, PackJson}
    case BuildChecklist => {Checklist}
    case CheckReadiness => {Readiness}
    case BuildDrillManifest => {Manifest}
    case ValidateDrillManifest => {ManifestValidation}
    case CheckDrillArtifacts => {DrillCheck}
    case WriteLedger => {LedgerMarkdown, LedgerJson}
    case _ => {}
  }

  datatype StepResult = StepResult(exitCode: nat, drill: Drill)

  function Perform(w: World, c: Config, children: Children, d: Drill, step: Step): StepResult {
    match children(step, d)
    case StartFailure => StepResult(3, d)
    case Exit(status, stdout, writes) =>
      var after := d.(disk := d.disk + writes);
      var code := NormalizeChildExitCode(status);
      if code != 0 then StepResult(code, after)
      else
        var r := Record(w, c, after, step, stdout);
        StepResult(if r.ok && Ensured(step) <= r.drill.disk.Keys then 0 else 3, r.drill)
  }

  datatype Outcome = Outcome(exitCode: nat, started: nat, drill: Drill)

  /** The run over the first `n` steps of the plan. */
  function Run(w: World, c: Config, children: Children, start: Drill, n: nat): Outcome
    requires n <= 20
  {
    if n == 0 then Outcome(0, 0, start)
    else
      var before := Run(w, c, children, start, n - 1);
      if before.exitCode != 0 then before
      else
        var r := Perform(w, c, children, before.drill, Plan()[n - 1]);
        Outcome(r.exitCode, n, r.drill)
  }

  function Fresh(disk: Disk): Drill { Drill(disk, "", map[]) }

  lemma CheckKinds()
    ensures IsCheck(CheckVariants) && !IsCheck(SelectBundle)
  {
  }

  class Runner {
    const w: World
    const c: Config
    const children: Children
    var disk: Disk
    var latestBundleDir: string
    var evidence: map<Step, Json>

    function State(): Drill
      reads this
    {
      Drill(disk, latestBundleDir, evidence)
    }

    constructor (w: World, c: Config, children: Children, disk: Disk)
      ensures this.w == w && this.c == c && this.children == children
      ensures State() == Fresh(disk)
    {
      this.w, this.c, this.children, this.disk, this.latestBundleDir, this.evidence := w, c, children, disk, "", map[];
    }

    method KeepDocument(step: Step, payload: Json) returns (ok: bool)
      requires KeepsJson(step)
      modifies this
      ensures Recorded(ok, State()) == RecordDocument(w, c, old(State()), step, payload)
    {
      hide ChecksDocument, TextOr, OutputFile, Kept, IsCheck, KeepsJson;
      CheckKinds();
      var kept := Kept(c, step, payload);
      disk := disk[OutputFile(step) := w.stringify(kept)];
      if step == SelectBundle {
        var dir := TextOr(Field(payload, BundleDir));
        if dir == "" { return false; }
        latestBundleDir := dir;
      }
      if IsCheck(step) { evidence := evidence[step := kept]; }
      if step == CheckVariants { disk := disk[DrillChecks := w.stringify(ChecksDocument(c, evidence))]; }
      return true;
    }

    /** Keeps the output of a step; returns whether no exception was thrown. */
    method Keep(step: Step, childStdout: string) returns (ok: bool)
      modifies this
      ensures Recorded(ok, State()) == Record(w, c, old(State()), step, childStdout)
    {
      hide RecordDocument, GatePhrase, ManifestPhrase, OrElse;
      if KeepsJson(step) {
        var payload := w.parse(OrElse(childStdout, "{}"));
        if payload.None? { return false; }
        ok := KeepDocument(step, payload.value);
        return;
      }
      if step == ValidateAoGate {
        disk := disk[AoGateValidation := OrElse(childStdout, GatePhrase() + ": " + c.gateFile + "\n")];
      }
      if step == ValidateDrillManifest {
        disk := disk[ManifestValidation := OrElse(childStdout, ManifestPhrase() + "\n")];
      }
      return true;
    }

    method RunStep(step: Step) returns (exitCode: nat)
      modifies this
      ensures StepResult(exitCode, State()) == Perform(w, c, children, old(State()), step)
    {
      hide Record;
      var child := children(step, State());
      if child.StartFailure? { return 3; }
      disk := disk + child.writes;
      exitCode := NormalizeChildExitCode(child.status);
      if exitCode != 0 { return; }
      var ok := Keep(step, child.stdout);
      if !ok { return 3; }
      if !(Ensured(step) <= disk.Keys) { return 3; }
    }

    /** The whole drill, on a new runner. */
    method RunReleaseDrill() returns (exitCode: nat, ghost started: nat)
      requires State() == Fresh(disk)
      modifies this
      ensures Outcome(exitCode, started, State()) == Run(w, c, children, old(State()), 20)
    {
      hide Perform, Plan;
      var steps := Plan();
      started := 0;
      for i := 0 to 20
        invariant Outcome(0, i, State()) == Run(w, c, children, old(State()), i)
      {
        exitCode := RunStep(steps[i]);
        started := i + 1;
        if exitCode != 0 {
          Stopped(w, c, children, old(State()), i + 1, 20);
          return;
        }
      }
      return 0, 20;
    }
  }

  lemma {:induction false} Stopped(w: World, c: Config, children: Children, start: Drill, k: nat, n: nat)
    requires k <= n <= 20 && Run(w, c, children, start, k).exitCode != 0
    ensures Run(w, c, children, start, n) == Run(w, c, children, start, k)
  {
    hide Perform, Plan;
    if k < n { Stopped(w, c, children, start, k, n - 1); }
  }

  // ---------------------------------------------------------------- the shape of every run

  lemma ExitCodes(w: World, c: Config, children: Children, d: Drill, step: Step)
    ensures Perform(w, c, children, d, step).exitCode in {0, 3, 64}
  {
  }

  /** Every run executes a prefix of the plan and returns 0, 3 or 64; 0 exactly when every step succeeded. */
  lemma {:induction false} RunShape(w: World, c: Config, children: Children, start: Drill, n: nat)
    requires n <= 20
    ensures var o := Run(w, c, children, start, n);
      && o.exitCode in {0, 3, 64} && o.started <= n
      && (o.exitCode == 0 ==> o.started == n)
      && (forall k | 0 <= k < o.started :: Run(w, c, children, start, k).exitCode == 0)
      && (o.exitCode != 0 ==> (o.started > 0
          && Perform(w, c, children, Run(w, c, children, start, o.started - 1).drill, Plan()[o.started - 1]) == StepResult(o.exitCode, o.drill)))
  {
    hide Perform, Plan;
    if n > 0 {
      RunShape(w, c, children, start, n - 1);
      ExitCodes(w, c, children, Run(w, c, children, start, n - 1).drill, Plan()[n - 1]);
    }
  }

  /** A step that succeeded: its child ended with 0, its output was kept, and that is the result. */
  lemma Succeeded(w: World, c: Config, children: Children, d: Drill, step: Step)
    requires Perform(w, c, children, d, step).exitCode == 0
    ensures var child := children(step, d);
      && child.Exit? && child.status == Some(0)
      && var r := Record(w, c, d.(disk := d.disk + child.writes), step, child.stdout);
         r.ok && r.drill == Perform(w, c, children, d, step).drill
  {
    hide Record, Ensured;
  }

  // ---------------------------------------------------------------- who writes what

  /** Children write only the files of their own step. */
  ghost predicate Tidy(children: Children) {
    forall step, d, f :: children(step, d).Exit? && f in children(step, d).writes ==> Owner(f) == Position(step)
  }

  predicate SameFile(a: Disk, b: Disk, f: FileName) { (f in a <==> f in b) && (f in a && f in b ==> a[f] == b[f]) }

  lemma OutputOwner(step: Step)
    requires KeepsJson(step)
    ensures Owner(OutputFile(step)) == Position(step)
  {
  }

  lemma TextOwners()
    ensures Owner(AoGateValidation) == Position(ValidateAoGate) && Owner(ManifestValidation) == Position(ValidateDrillManifest)
    ensures Owner(DrillChecks) == Position(CheckVariants)
  {
  }

  lemma RecordFrame(w: World, c: Config, d: Drill, step: Step, stdout: string, f: FileName)
    requires Owner(f) != Position(step)
    ensures SameFile(d.disk, Record(w, c, d, step, stdout).drill.disk, f)
  {
    hide RecordDocument, GatePhrase, ManifestPhrase, Owner, Position, OrElse;
    TextOwners();
    if KeepsJson(step) && w.parse(OrElse(stdout, "{}")).Some? { DocumentFrame(w, c, d, step, w.parse(OrElse(stdout, "{}")).value, f); }
  }

  lemma OtherFiles(disk: Disk, g: FileName, text: string, checks: string, f: FileName)
    requires f != g
    ensures SameFile(disk, disk[g := text], f)
    ensures f != DrillChecks ==> SameFile(disk, disk[g := text][DrillChecks := checks], f)
  {
  }

  lemma DocumentFrame(w: World, c: Config, d: Drill, step: Step, payload: Json, f: FileName)
    requires KeepsJson(step) && Owner(f) != Position(step)
    ensures SameFile(d.disk, RecordDocument(w, c, d, step, payload).drill.disk, f)
  {
    hide ChecksDocument, Kept, TextOr, Owner, Position, OutputFile, IsCheck, KeepsJson, SameFile;
    TextOwners();
    OutputOwner(step);
    var kept := Kept(c, step, payload);
    OtherFiles(d.disk, OutputFile(step), w.stringify(kept), w.stringify(ChecksDocument(c, d.evidence[step := kept])), f);
  }

  lemma PerformFrame(w: World, c: Config, children: Children, d: Drill, step: Step, f: FileName)
    requires Tidy(children) && Owner(f) != Position(step)
    ensures SameFile(d.disk, Perform(w, c, children, d, step).drill.disk, f)
  {
    hide Record, Owner, Position;
    var child := children(step, d);
    if child.Exit? { RecordFrame(w, c, d.(disk := d.disk + child.writes), step, child.stdout, f); }
  }

  /** Steps after the `k`-th leave every file alone that is not theirs. */
  lemma {:induction false} Undisturbed(w: World, c: Config, children: Children, start: Drill, k: nat, n: nat, f: FileName)
    requires Tidy(children) && k <= n <= 20 && !(k < Owner(f) <= n)
    ensures SameFile(Run(w, c, children, start, k).drill.disk, Run(w, c, children, start, n).drill.disk, f)
  {
    hide Perform, Plan, Tidy;
    if k < n {
      Undisturbed(w, c, children, start, k, n - 1, f);
      var before := Run(w, c, children, start, n - 1);
      if before.exitCode == 0 { PerformFrame(w, c, children, before.drill, Plan()[n - 1], f); }
    }
  }

  /** A run never touches a file of a step it did not start; from an empty directory there is no such file. */
  lemma NothingFromLaterSteps(w: World, c: Config, children: Children, disk: Disk, f: FileName)
    requires Tidy(children)
    ensures var o := Run(w, c, children, Fresh(disk), 20);
      && (Owner(f) > o.started ==> SameFile(disk, o.drill.disk, f))
      && (disk == map[] && f in o.drill.disk ==> 1 <= Owner(f) <= o.started)
  {
    hide Perform, Plan, Tidy;
    var o := Run(w, c, children, Fresh(disk), 20);
    RunShape(w, c, children, Fresh(disk), 20);
    StoppedAt(w, c, children, Fresh(disk), 20);
    if Owner(f) == 0 || Owner(f) > o.started { Undisturbed(w, c, children, Fresh(disk), 0, o.started, f); }
  }

  lemma {:induction false} StoppedAt(w: World, c: Config, children: Children, start: Drill, n: nat)
    requires n <= 20
    ensures Run(w, c, children, start, n).started <= n
    ensures Run(w, c, children, start, Run(w, c, children, start, n).started) == Run(w, c, children, start, n)
  {
    hide Perform, Plan;
    if n > 0 { StoppedAt(w, c, children, start, n - 1); }
  }

  lemma EnsuredFiles(step: Step, f: FileName)
    requires Owner(f) == Position(step)
    ensures f in Ensured(step) || (step == Compare && f == Matrix)
  {
  }

  lemma Produced(w: World, c: Config, children: Children, d: Drill, step: Step, f: FileName)
    requires Perform(w, c, children, d, step).exitCode == 0 && Owner(f) == Position(step)
    ensures f in Perform(w, c, children, d, step).drill.disk
  {
    hide ChecksDocument, Kept, TextOr, GatePhrase, ManifestPhrase, Owner, Position, Ensured, OrElse;
    EnsuredFiles(step, f);
  }

  lemma PerformKeeps(w: World, c: Config, children: Children, d: Drill, step: Step, f: FileName)
    requires f in d.disk
    ensures f in Perform(w, c, children, d, step).drill.disk
  {
    hide ChecksDocument, Kept, TextOr, GatePhrase, ManifestPhrase, Position, Ensured, OrElse, OutputFile;
  }

  /** After `n` successful steps all the files of those steps are there. */
  lemma {:induction false} FilesProduced(w: World, c: Config, children: Children, start: Drill, n: nat, f: FileName)
    requires n <= 20 && Run(w, c, children, start, n).exitCode == 0 && 1 <= Owner(f) <= n
    ensures f in Run(w, c, children, start, n).drill.disk
  {
    hide Perform, Plan, Owner;
    var before := Run(w, c, children, start, n - 1).drill;
    if Owner(f) == n {
      Produced(w, c, children, before, Plan()[n - 1], f);
    } else {
      FilesProduced(w, c, children, start, n - 1, f);
      PerformKeeps(w, c, children, before, Plan()[n - 1], f);
    }
  }

  /** The files of the directory that a step's script reads. */
  function Reads(step: Step): set<FileName> {
    match step
    case ExportReport => {Matrix}
    case BuildPack => {Matrix, DriftSummary, LegacyCore, LegacyCrypto, WorkerMapCoherence, ForgetForward, SignatureRefMap}
    case BuildChecklist => {PackJson}
    case CheckReadiness => {PackJson}
    case BuildDrillManifest => set f | f in Manifested()
    case ValidateDrillManifest => {Manifest}
    case CheckDrillArtifacts => set f | f in Required()
    case WriteLedger => set f | f in LedgerFiles()
    case _ => {}
  }

  /** Whatever a step reads was produced by an earlier step and is there when the step starts. */
  lemma ReadsAreProduced(w: World, c: Config, children: Children, start: Drill, n: nat, f: FileName)
    requires n < 20 && Run(w, c, children, start, n).exitCode == 0 && f in Reads(Plan()[n])
    ensures 1 <= Owner(f) <= n && f in Run(w, c, children, start, n).drill.disk
  {
    OwnersBefore(Plan()[n], f);
    FilesProduced(w, c, children, start, n, f);
  }

  lemma ManifestOwners(f: FileName)
    requires f in Manifested()
    ensures 1 <= Owner(f) <= 16
  {
  }

  lemma OwnersUpTo18(f: FileName)
    ensures 1 <= Owner(f) <= 18 || f.DrillCheck? || f.LedgerMarkdown? || f.LedgerJson? || f.LegacyName? || f.OtherFile?
  {
  }

  lemma RequiredOwners(f: FileName)
    requires f in Required()
    ensures 1 <= Owner(f) <= 18
  {
    hide Owner;
    OwnersUpTo18(f);
  }

  lemma LedgerOwners(f: FileName)
    requires f in LedgerFiles()
    ensures 1 <= Owner(f) <= 19
  {
  }

  lemma OwnersBefore(step: Step, f: FileName)
    requires f in Reads(step)
    ensures 1 <= Owner(f) < Position(step)
  {
    hide Manifested, Required, LedgerFiles;
    match step
    case BuildDrillManifest => ManifestOwners(f);
    case CheckDrillArtifacts => RequiredOwners(f);
    case WriteLedger => LedgerOwners(f);
    case _ =>
  }
}
