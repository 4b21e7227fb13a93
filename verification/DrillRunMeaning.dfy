/** What a run of the release drill needs to succeed and what it leaves in the directory, said on the output of its children. */
module DrillRunMeaning {
  import opened Strings
  import opened Documents
  import opened DrillFiles
  import opened DrillRun
  import D = DrillLaws
  import opened DrillCheck
  import opened DrillManifest

  ghost predicate Named(doc: Json, key: Key) { exists t :: Documents.Reads(Field(doc, key), t) }

  // ---------------------------------------------------------------- when a step succeeds

  /** The document on the standard output of a child; no output counts as `{}`. */
  ghost predicate Prints(w: World, child: Child, doc: Json) {
    child.Exit? && w.parse(if child.stdout == "" then "{}" else child.stdout) == Some(doc)
  }

  predicate PrintsDocument(step: Step) {
    || step == Compare || step == SelectBundle || step == CheckLegacyCore || step == CheckLegacyCrypto || step == CheckWorkerMap
    || step == CheckForgetForward || step == CheckSignatureRefs || step == CheckVariants || step == CheckReadiness || step == CheckDrillArtifacts
  }

  /** The files that only the child can write. */
  predicate ByChild(step: Step, f: FileName) {
    || (step == ExportReport && (f == DriftReport || f == DriftSummary)) || (step == BuildPack && (f == PackMarkdown || f == PackJson))
    || (step == BuildChecklist && f == Checklist) || (step == BuildDrillManifest && f == Manifest)
    || (step == WriteLedger && (f == LedgerMarkdown || f == LedgerJson))
  }

  ghost predicate Passes(w: World, step: Step, disk: Disk, child: Child) {
    && child.Exit? && child.status == Some(0)
    && (PrintsDocument(step) ==> exists doc :: Prints(w, child, doc) && (step == SelectBundle ==> Named(doc, BundleDir)))
    && forall f | ByChild(step, f) :: f in disk || f in child.writes
  }

  lemma KeptAreDocuments(step: Step)
    ensures KeepsJson(step) <==> PrintsDocument(step)
  {
  }

  lemma NamedIs(doc: Json, key: Key)
    ensures Named(doc, key) <==> TextOr(Field(doc, key)) != ""
    ensures Named(doc, key) ==> Documents.Reads(Field(doc, key), TextOr(Field(doc, key)))
  {
    hide TextOr, Documents.Reads;
    var v := Field(doc, key);
    ReadsText(v, TextOr(v));
    forall t ensures Documents.Reads(v, t) <==> t != "" && TextOr(v) == t { ReadsText(v, t); }
  }

  function Text(stdout: string): string { if stdout == "" then "{}" else stdout }

  lemma Recording(w: World, c: Config, d: Drill, step: Step, stdout: string)
    ensures var doc := w.parse(Text(stdout));
      Record(w, c, d, step, stdout).ok <==> (PrintsDocument(step) ==> doc.Some? && (step == SelectBundle ==> Named(doc.value, BundleDir)))
  {
    hide ChecksDocument, Kept, TextOr, KeepsJson, PrintsDocument, OutputFile, IsCheck, GatePhrase, ManifestPhrase, Named;
    KeptAreDocuments(step);
    var doc := w.parse(Text(stdout));
    if doc.Some? { NamedIs(doc.value, BundleDir); }
  }

  /** The files the runner writes itself. */
  function OwnFiles(step: Step): set<FileName> {
    if KeepsJson(step) then {OutputFile(step)} + (if step == CheckVariants then {DrillChecks} else {})
    else if step == ValidateAoGate then {AoGateValidation}
    else if step == ValidateDrillManifest then {ManifestValidation}
    else {}
  }

  lemma RecordedKeys(w: World, c: Config, d: Drill, step: Step, stdout: string)
    requires Record(w, c, d, step, stdout).ok
    ensures Record(w, c, d, step, stdout).drill.disk.Keys == d.disk.Keys + OwnFiles(step)
  {
    hide ChecksDocument, Kept, TextOr, KeepsJson, OutputFile, IsCheck, GatePhrase, ManifestPhrase, OrElse;
  }

  lemma EnsuredAre(step: Step, f: FileName)
    ensures f in Ensured(step) ==> ByChild(step, f) || f in OwnFiles(step)
    ensures ByChild(step, f) ==> f in Ensured(step) && f !in OwnFiles(step)
  {
  }

  lemma AllEnsured(w: World, c: Config, d: Drill, step: Step, stdout: string)
    requires Record(w, c, d, step, stdout).ok
    ensures Ensured(step) <= Record(w, c, d, step, stdout).drill.disk.Keys <==> forall f | ByChild(step, f) :: f in d.disk
  {
    hide Record, Ensured, OwnFiles, ByChild;
    RecordedKeys(w, c, d, step, stdout);
    forall f ensures (f in Ensured(step) ==> ByChild(step, f) || f in OwnFiles(step)) && (ByChild(step, f) ==> f in Ensured(step) && f !in OwnFiles(step)) {
      EnsuredAre(step, f);
    }
  }

  lemma PrintedIs(w: World, child: Child)
    requires child.Exit?
    ensures forall doc :: Prints(w, child, doc) <==> w.parse(Text(child.stdout)) == Some(doc)
  {
  }

  lemma DocumentNeeded(w: World, step: Step, child: Child)
    requires child.Exit?
    ensures var doc := w.parse(Text(child.stdout));
      (exists j :: Prints(w, child, j) && (step == SelectBundle ==> Named(j, BundleDir))) <==>
      doc.Some? && (step == SelectBundle ==> Named(doc.value, BundleDir))
  {
    hide Named, Prints;
    PrintedIs(w, child);
    var doc := w.parse(Text(child.stdout));
    if doc.Some? { assert Prints(w, child, doc.value); }
  }

  /** When a step succeeds, and with which code it fails. */
  lemma StepExact(w: World, c: Config, children: Children, d: Drill, step: Step)
    ensures var code, child := Perform(w, c, children, d, step).exitCode, children(step, d);
      && (code == 0 <==> Passes(w, step, d.disk, child))
      && (code == 64 <==> child.Exit? && child.status == Some(64))
      && (code == 0 || code == 3 || code == 64)
  {
    hide Record, PrintsDocument, ByChild, Named, Ensured, Prints, Text;
    var child := children(step, d);
    if child.Exit? {
      var after := d.(disk := d.disk + child.writes);
      Recording(w, c, after, step, child.stdout);
      DocumentNeeded(w, step, child);
      if Record(w, c, after, step, child.stdout).ok { AllEnsured(w, c, after, step, child.stdout); }
    }
  }

  /** All steps before the `n`-th passed. */
  ghost predicate AllPass(w: World, c: Config, children: Children, start: Drill, n: nat)
    requires n <= 20
  {
    forall k | 0 <= k < n :: StepPasses(w, c, children, start, k)
  }

  ghost predicate StepPasses(w: World, c: Config, children: Children, start: Drill, k: nat)
    requires k < 20
  {
    var step, d := Plan()[k], Run(w, c, children, start, k).drill; Passes(w, step, d.disk, children(step, d))
  }

  /** The child of the step ended with 64. */
  ghost predicate UsageError(w: World, c: Config, children: Children, start: Drill, k: nat)
    requires k < 20
  {
    var child := children(Plan()[k], Run(w, c, children, start, k).drill); child.Exit? && child.status == Some(64)
  }

  lemma NextStep(w: World, c: Config, children: Children, start: Drill, n: nat)
    requires 0 < n <= 20
    ensures var before, code := Run(w, c, children, start, n - 1).exitCode, Run(w, c, children, start, n).exitCode;
      && (before != 0 ==> code == before)
      && (before == 0 ==> (code == 0 <==> StepPasses(w, c, children, start, n - 1)) && (code == 64 <==> UsageError(w, c, children, start, n - 1)))
  {
    hide Perform, Plan, Passes;
    StepExact(w, c, children, Run(w, c, children, start, n - 1).drill, Plan()[n - 1]);
  }

  /** A drill succeeds exactly when every step passes; it ends with 64 exactly when a child ends with 64 after steps that all
      passed. */
  lemma {:induction false} RunExact(w: World, c: Config, children: Children, start: Drill, n: nat)
    requires n <= 20
    ensures Run(w, c, children, start, n).exitCode == 0 <==> AllPass(w, c, children, start, n)
    ensures Run(w, c, children, start, n).exitCode == 64 <==>
            exists k | 0 <= k < n :: AllPass(w, c, children, start, k) && UsageError(w, c, children, start, k)
  {
    hide Run, StepPasses, UsageError, Passes;
    if n > 0 {
      RunExact(w, c, children, start, n - 1);
      NextStep(w, c, children, start, n);
      PassesNot64(w, c, children, start, n - 1);
    } else {
      RunNothing(w, c, children, start);
    }
  }

  lemma PassesNot64(w: World, c: Config, children: Children, start: Drill, k: nat)
    requires k < 20
    ensures StepPasses(w, c, children, start, k) ==> !UsageError(w, c, children, start, k)
  {
    hide Run, Plan;
  }

  lemma RunNothing(w: World, c: Config, children: Children, start: Drill)
    ensures Run(w, c, children, start, 0).exitCode == 0
  {
  }

  // ---------------------------------------------------------------- what the steps leave behind

  ghost predicate HasFile(disk: Disk, f: FileName, text: string) { f in disk && disk[f] == text }

  /** `kept` is the child's document with the runner's settings under it: the child's own fields win. */
  ghost predicate LaidOver(kept: Json, doc: Json, configured: bool, sites: Option<seq<string>>) {
    && kept.Obj?
    && (forall key | key in Fields(doc) :: Field(kept, key) == Some(Fields(doc)[key]))
    && (Configured !in Fields(doc) ==> Field(kept, Configured) == Some(Bool(configured)))
    && (RequiredSites !in Fields(doc) ==>
          if sites.None? then Field(kept, RequiredSites) == None
          else Field(kept, RequiredSites).Some? && ListsTexts(Field(kept, RequiredSites).value, sites.value))
    && forall key | key !in Fields(doc) && key != Configured && key != RequiredSites :: Field(kept, key) == None
  }

  ghost predicate ListsTexts(v: Json, texts: seq<string>) {
    v.Arr? && |v.elems| == |texts| && forall i | 0 <= i < |texts| :: v.elems[i] == Str(texts[i])
  }

  ghost predicate KeepsPrinted(w: World, child: Child, f: FileName, disk: Disk) {
    exists doc :: Prints(w, child, doc) && HasFile(disk, f, w.stringify(doc))
  }

  ghost predicate KeepsLaidOver(w: World, child: Child, f: FileName, disk: Disk, configured: bool, sites: Option<seq<string>>) {
    exists doc, kept :: Prints(w, child, doc) && LaidOver(kept, doc, configured, sites) && HasFile(disk, f, w.stringify(kept))
  }

  /** What a file of a step holds after the step, from what the step's child printed and wrote. */
  ghost predicate Leaves(w: World, c: Config, before: Disk, child: Child, f: FileName, disk: Disk) {
    match f
    case WorkerMapCoherence => KeepsLaidOver(w, child, f, disk, c.workerMapConfigured, None)
    case SignatureRefMap => KeepsLaidOver(w, child, f, disk, c.signatureConfigured, Some(c.signatureSites))
    case VariantMap => KeepsLaidOver(w, child, f, disk, c.variantConfigured, Some(c.variantSites))
    case AoGateValidation =>
      child.Exit? && HasFile(disk, f, if child.stdout == "" then "valid dependency gate: " + c.gateFile + "\n" else child.stdout)
    case ManifestValidation => child.Exit? && HasFile(disk, f, if child.stdout == "" then "valid release drill manifest\n" else child.stdout)
    case DrillChecks => true
    case Matrix => KeepsPrinted(w, child, f, disk)
    case LatestBundle => KeepsPrinted(w, child, f, disk)
    case LegacyCore => KeepsPrinted(w, child, f, disk)
    case LegacyCrypto => KeepsPrinted(w, child, f, disk)
    case ForgetForward => KeepsPrinted(w, child, f, disk)
    case Readiness => KeepsPrinted(w, child, f, disk)
    case DrillCheck => KeepsPrinted(w, child, f, disk)
    case _ => child.Exit? && if f in child.writes then HasFile(disk, f, child.writes[f]) else f in before && HasFile(disk, f, before[f])
  }

  lemma Laid(base: map<Key, Json>, doc: Json, configured: bool, sites: Option<seq<string>>)
    requires forall key | key in base :: key == Configured || (key == RequiredSites && sites.Some?)
    requires Configured in base && base[Configured] == Bool(configured)
    requires sites.Some? ==> RequiredSites in base && ListsTexts(base[RequiredSites], sites.value)
    ensures LaidOver(Obj(base + Fields(doc)), doc, configured, sites)
  {
    hide Fields, ListsTexts;
  }

  lemma TemplateKept(c: Config, step: Step, doc: Json)
    ensures step == CheckWorkerMap ==> LaidOver(Kept(c, step, doc), doc, c.workerMapConfigured, None)
    ensures step == CheckSignatureRefs ==> LaidOver(Kept(c, step, doc), doc, c.signatureConfigured, Some(c.signatureSites))
    ensures step == CheckVariants ==> LaidOver(Kept(c, step, doc), doc, c.variantConfigured, Some(c.variantSites))
    ensures step != CheckWorkerMap && step != CheckSignatureRefs && step != CheckVariants ==> Kept(c, step, doc) == doc
  {
    hide Fields, LaidOver;
    match step
    case CheckWorkerMap => Laid(Base(c, step), doc, c.workerMapConfigured, None);
    case CheckSignatureRefs => Laid(Base(c, step), doc, c.signatureConfigured, Some(c.signatureSites));
    case CheckVariants => Laid(Base(c, step), doc, c.variantConfigured, Some(c.variantSites));
    case _ =>
  }

  lemma RecordedDocument(w: World, c: Config, d: Drill, step: Step, doc: Json)
    requires KeepsJson(step)
    ensures var r := RecordDocument(w, c, d, step, doc);
      && HasFile(r.drill.disk, OutputFile(step), w.stringify(Kept(c, step, doc)))
      && (step == SelectBundle && r.ok ==> Documents.Reads(Field(doc, BundleDir), r.drill.latestBundleDir))
  {
    hide ChecksDocument, Kept, TextOr, KeepsJson, OutputFile, IsCheck, Named, Documents.Reads;
    NotTheChecks(step);
    NamedIs(doc, BundleDir);
  }

  lemma DocumentStep(w: World, c: Config, children: Children, d: Drill, step: Step)
    requires KeepsJson(step) && Perform(w, c, children, d, step).exitCode == 0
    ensures var child := children(step, d);
      && child.Exit? && w.parse(Text(child.stdout)).Some?
      && var doc := w.parse(Text(child.stdout)).value;
         && Prints(w, child, doc) && HasFile(Perform(w, c, children, d, step).drill.disk, OutputFile(step), w.stringify(Kept(c, step, doc)))
         && (step == SelectBundle ==> Documents.Reads(Field(doc, BundleDir), Perform(w, c, children, d, step).drill.latestBundleDir))
  {
    hide Perform, KeepsJson, RecordDocument, HasFile, Documents.Reads, Kept, OutputFile;
    Succeeded(w, c, children, d, step);
    var child := children(step, d);
    var doc := w.parse(Text(child.stdout));
    if doc.Some? { RecordedDocument(w, c, d.(disk := d.disk + child.writes), step, doc.value); }
  }

  lemma NotTheChecks(step: Step)
    requires KeepsJson(step)
    ensures OutputFile(step) != DrillChecks
  {
  }

  /** The one file of a document step, besides the embedded results. */
  lemma OutputsAre(step: Step, f: FileName)
    requires KeepsJson(step) && Owner(f) == Position(step) && f != DrillChecks
    ensures f == OutputFile(step)
    ensures f == WorkerMapCoherence <==> step == CheckWorkerMap
    ensures f == SignatureRefMap <==> step == CheckSignatureRefs
    ensures f == VariantMap <==> step == CheckVariants
    ensures f !in {AoGateValidation, ManifestValidation}
    ensures f in {Matrix, LatestBundle, LegacyCore, LegacyCrypto, ForgetForward, Readiness, FileName.DrillCheck, WorkerMapCoherence, SignatureRefMap, VariantMap}
  {
  }

  lemma DocumentLeaves(w: World, c: Config, children: Children, d: Drill, step: Step, f: FileName)
    requires Perform(w, c, children, d, step).exitCode == 0 && Owner(f) == Position(step) && KeepsJson(step)
    ensures Leaves(w, c, d.disk, children(step, d), f, Perform(w, c, children, d, step).drill.disk)
  {
    hide Perform, KeepsJson, OutputFile, Kept, Prints, LaidOver, Owner, Position, Text;
    if f != DrillChecks {
      DocumentStep(w, c, children, d, step);
      TemplateKept(c, step, w.parse(Text(children(step, d).stdout)).value);
      OutputsAre(step, f);
    }
  }

  /** The other steps keep no document, so their files are not those of the document steps. */
  lemma OtherFilesAre(step: Step, f: FileName)
    requires !KeepsJson(step) && Owner(f) == Position(step)
    ensures f !in {Matrix, LatestBundle, LegacyCore, LegacyCrypto, ForgetForward, Readiness, FileName.DrillCheck, WorkerMapCoherence, SignatureRefMap,
                   VariantMap, DrillChecks}
    ensures f == AoGateValidation <==> step == ValidateAoGate
    ensures f == ManifestValidation <==> step == ValidateDrillManifest
  {
  }

  lemma OtherLeaves(w: World, c: Config, children: Children, d: Drill, step: Step, f: FileName)
    requires Perform(w, c, children, d, step).exitCode == 0 && Owner(f) == Position(step) && !KeepsJson(step)
    ensures Leaves(w, c, d.disk, children(step, d), f, Perform(w, c, children, d, step).drill.disk)
  {
    hide Perform, KeepsJson, Owner, Position, Ensured;
    Succeeded(w, c, children, d, step);
    OtherFilesAre(step, f);
    Produced(w, c, children, d, step, f);
  }

  lemma StepLeaves(w: World, c: Config, children: Children, d: Drill, step: Step, f: FileName)
    requires Perform(w, c, children, d, step).exitCode == 0 && Owner(f) == Position(step)
    ensures Leaves(w, c, d.disk, children(step, d), f, Perform(w, c, children, d, step).drill.disk)
  {
    hide Perform, KeepsJson, Owner, Position, Leaves;
    if KeepsJson(step) {
      DocumentLeaves(w, c, children, d, step, f);
    } else {
      OtherLeaves(w, c, children, d, step, f);
    }
  }

  lemma LeavesStays(w: World, c: Config, before: Disk, child: Child, f: FileName, a: Disk, b: Disk)
    requires Leaves(w, c, before, child, f, a) && SameFile(a, b, f)
    ensures Leaves(w, c, before, child, f, b)
  {
    hide LaidOver, Prints;
  }

  /** After `n` successful steps every file of those steps holds what its own child printed or wrote, to the character. */
  lemma RunLeaves(w: World, c: Config, children: Children, start: Drill, n: nat, f: FileName)
    requires Tidy(children) && n <= 20 && Run(w, c, children, start, n).exitCode == 0 && 1 <= Owner(f) <= n
    ensures var k := Owner(f) - 1; var before := Run(w, c, children, start, k).drill;
      Leaves(w, c, before.disk, children(Plan()[k], before), f, Run(w, c, children, start, n).drill.disk)
  {
    hide Perform, Plan, Run, Tidy, Owner, Leaves;
    var step := Plan()[Owner(f) - 1];
    D.StepAt(w, c, children, start, step, n);
    var before := Run(w, c, children, start, Owner(f) - 1).drill;
    StepLeaves(w, c, children, before, step, f);
    Undisturbed(w, c, children, start, Owner(f), n, f);
    LeavesStays(w, c, before.disk, children(step, before), f, Run(w, c, children, start, Owner(f)).drill.disk, Run(w, c, children, start, n).drill.disk);
  }

  /** The document embeds the content of the file under the key. */
  ghost predicate EmbedsFile(w: World, doc: Json, key: Key, disk: Disk, f: FileName) {
    Field(doc, key).Some? && HasFile(disk, f, w.stringify(Field(doc, key).value))
  }

  ghost predicate ChecksFile(w: World, c: Config, disk: Disk, doc: Json) {
    && HasFile(disk, DrillChecks, w.stringify(doc))
    && Field(doc, Release) == Some(Str(c.release)) && Field(doc, Profile) == Some(Str(c.profile)) && Field(doc, Mode) == Some(Str(c.mode))
    && Field(doc, Strict) == Some(Bool(c.strict)) && Field(doc, CreatedAt) == Some(Str(c.createdAt))
    && EmbedsFile(w, doc, LegacyCoreExtractionEvidence, disk, LegacyCore) && EmbedsFile(w, doc, LegacyCryptoBoundaryEvidence, disk, LegacyCrypto)
    && EmbedsFile(w, doc, Key.TemplateWorkerMapCoherence, disk, WorkerMapCoherence) && EmbedsFile(w, doc, ForgetForwardConfig, disk, ForgetForward)
    && EmbedsFile(w, doc, TemplateSignatureRefMap, disk, SignatureRefMap) && EmbedsFile(w, doc, TemplateVariantMap, disk, VariantMap)
  }

  /** From step 13 on `release-drill-checks.json` holds the settings of the run and the six results as they are in their files. */
  lemma RunEmbeds(w: World, c: Config, children: Children, start: Drill, n: nat)
    requires Tidy(children) && 13 <= n <= 20 && Run(w, c, children, start, n).exitCode == 0
    ensures exists doc :: ChecksFile(w, c, Run(w, c, children, start, n).drill.disk, doc)
  {
    hide Run, Tidy, D.SixCheckFacts, D.ChecksFact, ChecksFile;
    D.SixChecks(w, c, children, start, n);
    D.ChecksFacts(w, c, children, start, n);
    SettingsAndResults(w, c, Run(w, c, children, start, n).drill);
  }

  lemma SettingsAndResults(w: World, c: Config, d: Drill)
    requires D.SixCheckFacts(w, d) && D.ChecksFact(w, c, d)
    ensures ChecksFile(w, c, d.disk, ChecksDocument(c, d.evidence))
  {
  }
}
