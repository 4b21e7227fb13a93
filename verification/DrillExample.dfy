/** The promises asked of the children can be kept: a set of children that keeps them all, and whose drill succeeds. */
module DrillExample {
  import opened Strings
  import opened Documents
  import opened DrillFiles
  import opened DrillManifest
  import opened DrillRun
  import opened DrillLaws
  import opened DrillToReadiness
  import D = DrillCheck
  import L = DrillLedger
  import R = ReadinessArtifacts

  function Done(stdout: string, writes: Disk): Child { Exit(Some(0), stdout, writes) }
  function Gives(w: World, document: Json): Child { Done(w.stringify(document), map[]) }
  function GivesUp(): Child { Exit(Some(3), "", map[]) }

  function Pack(c: Config): Json { Obj(map[Release := Str(c.release), Status := Str("ready")]) }
  function Report(release: string): Json { Obj(map[Release := Str(release), Status := Str("ready")]) }

  ghost predicate ReadyPack(w: World, c: Config, disk: Disk) { Parsed(w, disk, PackJson) == Some(Pack(c)) }

  function GateChild(c: Config): Child { Done(D.GatePhrase() + ": " + c.gateFile + "\n", map[]) }
  function PackChild(w: World, c: Config): Child { Done("", map[PackMarkdown := "", PackJson := w.stringify(Pack(c))]) }

  ghost function ReportChild(w: World, c: Config, disk: Disk): Child {
    if ReadyPack(w, c, disk) then Gives(w, Report(D.ReleaseOf(Pack(c)))) else GivesUp()
  }

  ghost function LedgerDocument(w: World, disk: Disk): Json
    requires L.Buildable(w, disk)
  {
    Obj(map[OverallStatus := Str(if LedgerReady(w, disk) then "ready" else "blocked"),
            Release := Str(DeriveText(w.parse(disk[Readiness]).value, w.parse(disk[PackJson]).value, Release))])
  }

  ghost function LedgerChild(w: World, c: Config, disk: Disk): Child {
    if L.Buildable(w, disk) then
      var text := w.stringify(LedgerDocument(w, disk));
      Exit(Some(if c.strict && !LedgerReady(w, disk) then 3 else 0), "", map[LedgerMarkdown := "", LedgerJson := text])
    else GivesUp()
  }

  ghost function ManifestChild(w: World, c: Config, disk: Disk): Child {
    if (forall f | f in Manifested() :: f in disk) && ManifestOf(w, disk, c.outDir, c.manifestTime).Built?
    then Done("", map[Manifest := w.stringify(ManifestOf(w, disk, c.outDir, c.manifestTime).value)])
    else GivesUp()
  }

  ghost function ValidatorChild(w: World, disk: Disk): Child {
    if Parsed(w, disk, Manifest).Some? && ManifestIssues(Parsed(w, disk, Manifest).value, true) == []
    then Done(ManifestPhrase() + ": " + "release-drill-manifest.json" + "\n", map[]) else GivesUp()
  }

  ghost function CheckChild(w: World, disk: Disk): Child {
    Exit(Some(if Accepted(w, disk) then 0 else 3), w.stringify(Obj(map[Ok := Bool(Accepted(w, disk))])), map[])
  }

  ghost function Answer(w: World, c: Config, step: Step, d: Drill): Child {
    match step
    case Compare => Gives(w, Obj(map[]))
    case ExportReport => Done("", map[DriftReport := "", DriftSummary := ""])
    case SelectBundle => Gives(w, Obj(map[BundleDir := Str("bundle")]))
    case ValidateAoGate => GateChild(c)
    case CheckLegacyCore => Gives(w, Obj(map[Ok := Bool(true)]))
    case CheckLegacyCrypto => Gives(w, Obj(map[Ok := Bool(true)]))
    case CheckWorkerMap => Gives(w, Obj(map[]))
    case CheckForgetForward => Gives(w, Obj(map[]))
    case CheckSignatureRefs => Gives(w, Obj(map[]))
    case CheckVariants => Gives(w, Obj(map[]))
    case BuildPack => PackChild(w, c)
    case BuildChecklist => Done("", map[Checklist := ""])
    case CheckReadiness => ReportChild(w, c, d.disk)
    case BuildDrillManifest => ManifestChild(w, c, d.disk)
    case ValidateDrillManifest => ValidatorChild(w, d.disk)
    case CheckDrillArtifacts => CheckChild(w, d.disk)
    case WriteLedger => LedgerChild(w, c, d.disk)
    case _ => Done("", map[])
  }

  ghost function Model(w: World, c: Config): Children { (step: Step, d: Drill) => Answer(w, c, step, d) }

  lemma AnswerIsTidy(w: World, c: Config, step: Step, d: Drill, f: FileName)
    requires Answer(w, c, step, d).Exit? && f in Answer(w, c, step, d).writes
    ensures Owner(f) == Position(step)
  {
    hide L.Buildable, LedgerReady, ManifestOf, Manifested, Accepted, ReadyPack, ManifestPhrase, D.GatePhrase, LedgerDocument, Pack, Report;
    hide ValidatorChild, ManifestChild, LedgerChild, CheckChild, ReportChild, Owner, Position;
    FilesOf(w, c, d);
    ProducersOf();
  }

  lemma FilesOf(w: World, c: Config, d: Drill)
    ensures ManifestChild(w, c, d.disk).Exit? && ManifestChild(w, c, d.disk).writes.Keys <= {Manifest}
    ensures ValidatorChild(w, d.disk).Exit? && ValidatorChild(w, d.disk).writes == map[]
    ensures CheckChild(w, d.disk).Exit? && CheckChild(w, d.disk).writes == map[]
    ensures LedgerChild(w, c, d.disk).Exit? && LedgerChild(w, c, d.disk).writes.Keys <= {LedgerMarkdown, LedgerJson}
    ensures ReportChild(w, c, d.disk).Exit? && ReportChild(w, c, d.disk).writes == map[]
  {
    hide L.Buildable, LedgerReady, ManifestOf, Manifested, Accepted, ManifestPhrase, ManifestIssues, LedgerDocument;
  }

  lemma ProducersOf()
    ensures Owner(DriftReport) == Position(ExportReport) && Owner(DriftSummary) == Position(ExportReport)
    ensures Owner(PackMarkdown) == Position(BuildPack) && Owner(PackJson) == Position(BuildPack)
    ensures Owner(Checklist) == Position(BuildChecklist) && Owner(Manifest) == Position(BuildDrillManifest)
    ensures Owner(LedgerMarkdown) == Position(WriteLedger) && Owner(LedgerJson) == Position(WriteLedger)
  {
  }

  lemma ModelIsTidy(w: World, c: Config)
    ensures Tidy(Model(w, c))
  {
    hide Answer, Owner, Position;
    forall step, d, f | Model(w, c)(step, d).Exit? && f in Model(w, c)(step, d).writes ensures Owner(f) == Position(step) {
      AnswerIsTidy(w, c, step, d, f);
    }
  }

  lemma EarlyAnswers(w: World, c: Config, d: Drill)
    ensures Answer(w, c, ValidateAoGate, d) == GateChild(c) && Answer(w, c, BuildPack, d) == PackChild(w, c)
    ensures Answer(w, c, CheckReadiness, d) == ReportChild(w, c, d.disk)
  {
    hide GateChild, PackChild, ReportChild, ManifestChild, ValidatorChild, CheckChild, LedgerChild, Gives, Done;
  }

  lemma LateAnswers(w: World, c: Config, d: Drill)
    ensures Answer(w, c, BuildDrillManifest, d) == ManifestChild(w, c, d.disk) && Answer(w, c, ValidateDrillManifest, d) == ValidatorChild(w, d.disk)
    ensures Answer(w, c, CheckDrillArtifacts, d) == CheckChild(w, d.disk) && Answer(w, c, WriteLedger, d) == LedgerChild(w, c, d.disk)
  {
    hide GateChild, PackChild, ReportChild, ManifestChild, ValidatorChild, CheckChild, LedgerChild, Gives, Done;
  }

  lemma GateKept(c: Config)
    ensures GatePromise(c, GateChild(c))
  {
    hide D.GatePhrase;
  }

  lemma PackKept(w: World, c: Config)
    requires Sound(w)
    ensures PackPromise(w, c, PackChild(w, c))
  {
    hide HexDigests;
  }

  lemma ReportKept(w: World, c: Config, disk: Disk)
    requires Sound(w)
    ensures ReadinessPromise(w, c, disk, ReportChild(w, c, disk))
  {
    hide D.ReleaseOf, HexDigests;
  }

  lemma ManifestKept(w: World, c: Config, disk: Disk)
    ensures ManifestPromise(w, c, disk, ManifestChild(w, c, disk))
  {
    hide ManifestOf, Manifested;
  }

  lemma ValidatorKept(w: World, disk: Disk)
    ensures ValidatorPromise(w, disk, ValidatorChild(w, disk))
  {
    hide ManifestIssues, ManifestPhrase;
  }

  lemma CheckKept(w: World, disk: Disk)
    requires Sound(w)
    ensures CheckPromise(w, disk, CheckChild(w, disk))
  {
    hide Accepted, HexDigests;
  }

  lemma LedgerDocumentFits(w: World, disk: Disk)
    requires L.Buildable(w, disk)
    ensures IsLedgerDocument(w, disk, LedgerDocument(w, disk))
  {
    hide L.Buildable, LedgerReady, DeriveText;
  }

  lemma LedgerKept(w: World, c: Config, disk: Disk)
    requires Sound(w)
    ensures LedgerPromise(w, c, disk, LedgerChild(w, c, disk))
  {
    hide L.Buildable, LedgerReady, LedgerDocument, IsLedgerDocument, HexDigests;
    if L.Buildable(w, disk) {
      LedgerDocumentFits(w, disk);
      var writes := LedgerChild(w, c, disk).writes;
      assert writes.Keys == {LedgerMarkdown, LedgerJson};
      assert Parsed(w, writes, LedgerJson) == Some(LedgerDocument(w, disk));
    }
  }

  lemma EvidenceKept(w: World, c: Config, step: Step, d: Drill)
    requires Sound(w) && IsCheck(step)
    ensures EvidencePromise(w, step, Answer(w, c, step, d))
  {
    hide GateChild, PackChild, ReportChild, ManifestChild, LedgerChild, CheckChild, ValidatorChild, TextOr, Lower;
    NoStatus();
  }

  lemma NoStatus()
    ensures !R.SaysBlocked(Obj(map[]))
  {
    assert TextOr(None) == "";
    assert |Lower("")| == 0;
  }

  lemma ModelKeepsPromises(w: World, c: Config)
    requires Sound(w)
    ensures Promises(w, c, Model(w, c)) && EvidencePromises(w, Model(w, c))
  {
    hide Answer, Tidy, GatePromise, PackPromise, ReadinessPromise, ManifestPromise, ValidatorPromise, CheckPromise, LedgerPromise, EvidencePromise, Sound;
    hide GateChild, PackChild, ReportChild, ManifestChild, ValidatorChild, CheckChild, LedgerChild;
    ModelIsTidy(w, c);
    GateKept(c);
    PackKept(w, c);
    forall d: Drill
      ensures GatePromise(c, Model(w, c)(ValidateAoGate, d)) && PackPromise(w, c, Model(w, c)(BuildPack, d))
      ensures ReadinessPromise(w, c, d.disk, Model(w, c)(CheckReadiness, d))
      ensures ManifestPromise(w, c, d.disk, Model(w, c)(BuildDrillManifest, d))
      ensures ValidatorPromise(w, d.disk, Model(w, c)(ValidateDrillManifest, d))
      ensures CheckPromise(w, d.disk, Model(w, c)(CheckDrillArtifacts, d))
      ensures LedgerPromise(w, c, d.disk, Model(w, c)(WriteLedger, d))
    {
      EarlyAnswers(w, c, d);
      LateAnswers(w, c, d);
      ReportKept(w, c, d.disk);
      ManifestKept(w, c, d.disk);
      ValidatorKept(w, d.disk);
      CheckKept(w, d.disk);
      LedgerKept(w, c, d.disk);
    }
    forall step, d: Drill | IsCheck(step) ensures EvidencePromise(w, step, Model(w, c)(step, d)) { EvidenceKept(w, c, step, d); }
  }

  lemma EnsuredOfDocument(step: Step)
    requires KeepsJson(step)
    ensures Ensured(step) <= {OutputFile(step)} + if step == CheckVariants then {DrillChecks} else {}
  {
  }

  lemma KeepsDocument(w: World, c: Config, d: Drill, step: Step, document: Json)
    requires Sound(w) && KeepsJson(step) && Answer(w, c, step, d) == Gives(w, document)
    requires step == SelectBundle ==> TextOr(Field(document, BundleDir)) != ""
    ensures Perform(w, c, Model(w, c), d, step).exitCode == 0
  {
    hide Answer, ChecksDocument, Kept, TextOr, Position, Ensured, OutputFile;
    EnsuredOfDocument(step);
    Documented(w, c, d, step, document);
  }

  lemma Documented(w: World, c: Config, d: Drill, step: Step, document: Json)
    requires Sound(w) && KeepsJson(step)
    requires step == SelectBundle ==> TextOr(Field(document, BundleDir)) != ""
    ensures var r := Record(w, c, d, step, w.stringify(document));
      r.ok && OutputFile(step) in r.drill.disk && (step == CheckVariants ==> DrillChecks in r.drill.disk)
  {
    hide ChecksDocument, Kept, TextOr, Position, OutputFile;
  }

  lemma BundleChars()
    ensures !IsSpace("bundle"[0]) && !IsSpace("bundle"[|"bundle"| - 1])
  {
  }

  lemma BundleNamed()
    ensures TextOr(Field(Obj(map[BundleDir := Str("bundle")]), BundleDir)) != ""
  {
    hide TextOr, IsText, IsSpace;
    var word := "bundle";
    assert !IsSpace(word[0]) && !IsSpace(word[|word| - 1]) by { BundleChars(); }
    PlainWord(word);
  }

  lemma StepDone(w: World, c: Config, children: Children, d: Drill, step: Step, stdout: string, writes: Disk)
    requires children(step, d) == Done(stdout, writes) && !KeepsJson(step)
    requires forall f | f in Ensured(step) :: f in writes || (step == ValidateAoGate && f == AoGateValidation)
    requires step != ValidateDrillManifest
    ensures Perform(w, c, children, d, step).exitCode == 0
  {
    hide D.GatePhrase, OrElse, Ensured, Position;
  }

  lemma TextAnswers(w: World, c: Config, d: Drill, step: Step)
    requires step in {Preflight, ExportReport, ExportEvidence, CheckEvidence, ValidateAoGate, BuildPack, BuildChecklist}
    ensures var child := Answer(w, c, step, d); child.Exit? && child == Done(child.stdout, child.writes)
    ensures !KeepsJson(step)
    ensures forall f | f in Ensured(step) :: f in Answer(w, c, step, d).writes || (step == ValidateAoGate && f == AoGateValidation)
  {
    hide D.GatePhrase, Pack, ReportChild, ManifestChild, ValidatorChild, CheckChild, LedgerChild, Gives;
  }

  lemma TextSteps(w: World, c: Config, d: Drill, step: Step)
    requires step in {Preflight, ExportReport, ExportEvidence, CheckEvidence, ValidateAoGate, BuildPack, BuildChecklist}
    ensures Perform(w, c, Model(w, c), d, step).exitCode == 0
  {
    hide Perform, Answer;
    var child := Answer(w, c, step, d);
    TextAnswers(w, c, d, step);
    StepDone(w, c, Model(w, c), d, step, child.stdout, child.writes);
  }

  lemma EarlySteps(w: World, c: Config, d: Drill, step: Step)
    requires Sound(w) && Position(step) <= 15
    ensures Perform(w, c, Model(w, c), d, step).exitCode == 0
  {
    hide Perform, Sound, TextOr, GateChild, PackChild, ReportChild, ManifestChild, ValidatorChild, CheckChild, LedgerChild;
    match step
    case Compare => KeepsDocument(w, c, d, step, Obj(map[]));
    case SelectBundle => BundleNamed(); KeepsDocument(w, c, d, step, Obj(map[BundleDir := Str("bundle")]));
    case CheckLegacyCore => KeepsDocument(w, c, d, step, Obj(map[Ok := Bool(true)]));
    case CheckLegacyCrypto => KeepsDocument(w, c, d, step, Obj(map[Ok := Bool(true)]));
    case CheckWorkerMap => KeepsDocument(w, c, d, step, Obj(map[]));
    case CheckForgetForward => KeepsDocument(w, c, d, step, Obj(map[]));
    case CheckSignatureRefs => KeepsDocument(w, c, d, step, Obj(map[]));
    case CheckVariants => KeepsDocument(w, c, d, step, Obj(map[]));
    case _ => TextSteps(w, c, d, step);
  }

  lemma {:induction false} EarlyRun(w: World, c: Config, start: Drill, n: nat)
    requires Sound(w) && n <= 15
    ensures Run(w, c, Model(w, c), start, n).exitCode == 0
  {
    hide Perform, Plan, Model, Sound;
    if n > 0 {
      EarlyRun(w, c, start, n - 1);
      EarlySteps(w, c, Run(w, c, Model(w, c), start, n - 1).drill, Plan()[n - 1]);
    }
  }

  lemma PackRecorded(w: World, c: Config, d: Drill, stdout: string)
    ensures Record(w, c, d, BuildPack, stdout) == Recorded(true, d)
  {
    hide RecordDocument, OrElse, D.GatePhrase;
  }

  lemma PackExits(w: World, c: Config)
    ensures PackChild(w, c).Exit? && PackChild(w, c).status == Some(0)
  {
  }

  lemma PackOnDisk(w: World, c: Config, disk: Disk)
    requires Sound(w)
    ensures ReadyPack(w, c, disk + PackChild(w, c).writes)
  {
    hide Pack, HexDigests;
  }

  lemma PackWritten(w: World, c: Config, d: Drill)
    requires Sound(w)
    ensures ReadyPack(w, c, Perform(w, c, Model(w, c), d, BuildPack).drill.disk)
  {
    hide Answer, Record, Ensured, ReadyPack, Sound, PackChild, ReportChild, ManifestChild, ValidatorChild, CheckChild, LedgerChild, GateChild;
    var child := PackChild(w, c);
    PackExits(w, c);
    EarlyAnswers(w, c, d);
    PackRecorded(w, c, d.(disk := d.disk + child.writes), child.stdout);
    PackOnDisk(w, c, d.disk);
  }

  lemma SixteenSteps(w: World, c: Config, start: Drill)
    requires Sound(w)
    ensures Run(w, c, Model(w, c), start, 16).exitCode == 0
  {
    hide Run, Perform, Plan, Sound, Answer, ReadyPack, Tidy, Pack, Report, Gives, D.ReleaseOf, Parsed;
    var children := Model(w, c);
    ModelIsTidy(w, c);
    EarlyRun(w, c, start, 15);
    StepAt(w, c, children, start, BuildPack, 15);
    PackWritten(w, c, Run(w, c, children, start, 13).drill);
    Undisturbed(w, c, children, start, 14, 15, PackJson);
    SamePack(w, c, Run(w, c, children, start, 14).drill.disk, Run(w, c, children, start, 15).drill.disk);
    var d := Run(w, c, children, start, 15).drill;
    ReportAnswered(w, c, d);
    KeepsDocument(w, c, d, CheckReadiness, Report(D.ReleaseOf(Pack(c))));
    NextStep(w, c, children, start, 15, CheckReadiness);
  }

  /** For every sound platform and every valid configuration there are children that keep all promises, and with them the
      drill succeeds from any starting directory. */
  lemma PromisesCanBeKept(w: World, c: Config, start: Drill)
    requires Sound(w) && ValidConfig(c)
    ensures Promises(w, c, Model(w, c)) && EvidencePromises(w, Model(w, c))
    ensures Run(w, c, Model(w, c), start, 20).exitCode == 0
  {
    hide Run, Promises, EvidencePromises, Sound, ValidConfig, Model;
    ModelKeepsPromises(w, c);
    SixteenSteps(w, c, start);
    ReadyRunsFinish(w, c, Model(w, c), start);
  }

  lemma SamePack(w: World, c: Config, a: Disk, b: Disk)
    requires ReadyPack(w, c, a) && SameFile(a, b, PackJson)
    ensures ReadyPack(w, c, b)
  {
  }

  lemma ReportAnswered(w: World, c: Config, d: Drill)
    requires ReadyPack(w, c, d.disk)
    ensures Answer(w, c, CheckReadiness, d) == Gives(w, Report(D.ReleaseOf(Pack(c))))
  {
    hide D.ReleaseOf, Pack, Report, ReadyPack, GateChild, PackChild, ManifestChild, ValidatorChild, CheckChild, LedgerChild;
  }
}
