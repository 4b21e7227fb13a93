/** A strict drill that ends with exit code 0 leaves nothing for the decommission readiness check to complain about
    on the automation side. */
module DrillToReadiness {
  import opened Strings
  import opened Documents
  import opened DrillFiles
  import opened DrillManifest
  import opened DrillRun
  import opened DrillLaws
  import D = DrillCheck
  import L = DrillLedger
  import R = ReadinessArtifacts

  // ---------------------------------------------------------------- what the check scripts promise

  /** The two evidence checks report `ok`, the four template checks anything but `blocked`. */
  predicate GoodEvidence(step: Step, document: Json) {
    if step == CheckLegacyCore || step == CheckLegacyCrypto then R.IsTrue(document, Ok) else !R.SaysBlocked(document)
  }

  ghost predicate EvidencePromise(w: World, step: Step, child: Child) {
    child.Exit? && child.status == Some(0) ==>
      var payload := w.parse(OrElse(child.stdout, "{}"));
      payload.Some? && payload.value.Obj? && GoodEvidence(step, payload.value)
  }

  ghost predicate EvidencePromises(w: World, children: Children) {
    forall step, d | IsCheck(step) :: EvidencePromise(w, step, children(step, d))
  }

  lemma KeptEvidence(c: Config, step: Step, payload: Json)
    requires IsCheck(step) && payload.Obj? && GoodEvidence(step, payload)
    ensures GoodEvidence(step, Kept(c, step, payload))
  {
    hide TextOr, Lower, Strs;
    var kept := Kept(c, step, payload);
    assert step != CheckLegacyCore && step != CheckLegacyCrypto ==> Field(kept, Status) == Field(payload, Status);
  }

  ghost predicate EvidenceFact(d: Drill, step: Step) { step in d.evidence && GoodEvidence(step, d.evidence[step]) }

  lemma EvidenceStep(w: World, c: Config, children: Children, d: Drill, step: Step)
    requires IsCheck(step) && EvidencePromise(w, step, children(step, d)) && Perform(w, c, children, d, step).exitCode == 0
    ensures EvidenceFact(Perform(w, c, children, d, step).drill, step)
  {
    hide Perform, RecordDocument, Kept, GoodEvidence, OrElse, ChecksFact, OutputFile;
    Succeeded(w, c, children, d, step);
    var child := children(step, d);
    var payload := w.parse(OrElse(child.stdout, "{}"));
    KeptEvidence(c, step, payload.value);
    CheckKept(w, c, d.(disk := d.disk + child.writes), step, payload.value);
  }

  lemma {:induction false} EvidenceFacts(w: World, c: Config, children: Children, start: Drill, n: nat, step: Step)
    requires EvidencePromises(w, children) && n <= 20 && Run(w, c, children, start, n).exitCode == 0
    requires IsCheck(step) && Position(step) <= n
    ensures EvidenceFact(Run(w, c, children, start, n).drill, step)
  {
    hide Perform, Plan, Position, GoodEvidence, EvidencePromise;
    var before := Run(w, c, children, start, n - 1).drill;
    PositionsDiffer(Plan()[n - 1], step);
    if Position(step) == n {
      assert EvidencePromise(w, step, children(step, before));
      EvidenceStep(w, c, children, before, step);
    } else {
      EvidenceFacts(w, c, children, start, n - 1, step);
      EvidenceFrame(w, c, children, before, Plan()[n - 1], step);
    }
  }

  // ---------------------------------------------------------------- the final directory

  lemma ReadPresent(w: World, disk: Disk, f: FileName)
    requires Parsed(w, disk, f).Some?
    ensures R.Read(w, disk, f) == R.Holds(Parsed(w, disk, f).value)
  {
  }

  lemma ReadyStatus(value: Json)
    requires Field(value, Status) == Ready()
    ensures R.SaysReady(value)
  {
    StatusTexts();
  }

  ghost predicate SaysReadyFor(w: World, disk: Disk, f: FileName, release: string) {
    Parsed(w, disk, f).Some? && R.SaysReady(Parsed(w, disk, f).value) && D.ReleaseOf(Parsed(w, disk, f).value) == release
  }

  /** The readiness report of the drill says `ready`, as it does after every strict drill. */
  ghost predicate ReadyReport(w: World, disk: Disk) {
    Parsed(w, disk, Readiness).Some? && Field(Parsed(w, disk, Readiness).value, Status) == Ready()
  }

  /** Pack, readiness report and manifest all say `ready` and name the configured release. */
  lemma ReleaseDocuments(w: World, c: Config, disk: Disk)
    requires Sound(w) && ValidConfig(c) && ReadyReport(w, disk) && PackFact(w, c, disk) && ReadinessFact(w, c, disk) && ManifestFact(w, c, disk)
    ensures forall f | f in {PackJson, Readiness, Manifest} :: SaysReadyFor(w, disk, f, Trim(c.release))
  {
    hide R.SaysReady, D.ReleaseOf, Trim, ValidConfig, Ready, Warning, ManifestOf, Manifested;
    var pack, report := Parsed(w, disk, PackJson).value, Parsed(w, disk, Readiness).value;
    PackRelease(c, pack);
    ReadinessRelease(c, pack, report);
    ReadyStatus(pack);
    ReadyStatus(report);
    ManifestBuilds(w, c, disk);
    ManifestStatus(w, c, disk);
  }

  lemma ManifestStatus(w: World, c: Config, disk: Disk)
    requires Sound(w) && ValidConfig(c) && ReadyReport(w, disk) && PackFact(w, c, disk) && ReadinessFact(w, c, disk) && ManifestFact(w, c, disk)
    ensures Parsed(w, disk, Manifest) == Some(ManifestOf(w, disk, c.outDir, c.manifestTime).value)
    ensures R.SaysReady(Parsed(w, disk, Manifest).value)
  {
    hide TextOr, Trim, IsText, R.SaysReady, Lower, ReadArtifacts, Manifested;
    var pack, report := Parsed(w, disk, PackJson).value, Parsed(w, disk, Readiness).value;
    var m := ManifestOf(w, disk, c.outDir, c.manifestTime).value;
    StatusTexts();
    ReadyText();
    assert Field(m, Status) == Some(Str(DeriveText(report, pack, Status)));
    assert DeriveText(report, pack, Status) == "ready";
    ReadyStatus(m);
  }

  lemma ReadyText()
    ensures TextOr(Ready()) == "ready"
  {
    PlainWord("ready");
  }

  lemma LedgerWritten(w: World, c: Config, children: Children, d: Drill)
    requires LedgerPromise(w, c, d.disk, children(WriteLedger, d)) && L.Buildable(w, d.disk)
    requires Perform(w, c, children, d, WriteLedger).exitCode == 0
    ensures Parsed(w, Perform(w, c, children, d, WriteLedger).drill.disk, LedgerJson).Some?
    ensures IsLedgerDocument(w, d.disk, Parsed(w, Perform(w, c, children, d, WriteLedger).drill.disk, LedgerJson).value)
  {
    hide L.Buildable, IsLedgerDocument, LedgerReady;
  }

  lemma LedgerSaysReady(w: World, c: Config, disk: Disk, ledger: Json)
    requires L.Buildable(w, disk) && IsLedgerDocument(w, disk, ledger) && LedgerReady(w, disk)
    requires ValidConfig(c) && PackFact(w, c, disk) && ReadinessFact(w, c, disk)
    ensures R.LedgerStatus(ledger) == "ready" && D.ReleaseOf(ledger) == Trim(c.release)
  {
    hide TextOr, Trim, IsText, L.Buildable, LedgerReady, IsPack, IsReadiness, NonBlank;
    var pack, report := Parsed(w, disk, PackJson).value, Parsed(w, disk, Readiness).value;
    StatusTexts();
    ReadinessRelease(c, pack, report);
    assert DeriveText(report, pack, Release) == Trim(c.release);
    TrimmedText(c.release);
  }

  lemma TrimmedText(s: string)
    requires NonBlank(s)
    ensures TextOr(Some(Str(Trim(s)))) == Trim(s)
  {
    hide Trim;
    TrimIdempotent(s);
  }

  // ---------------------------------------------------------------- putting it together

  lemma CheckDocuments(w: World, d: Drill, step: Step)
    requires Sound(w) && IsCheck(step) && CheckFact(w, d, step) && EvidenceFact(d, step)
    ensures Parsed(w, d.disk, OutputFile(step)) == Some(d.evidence[step]) && GoodEvidence(step, d.evidence[step])
    ensures R.Read(w, d.disk, OutputFile(step)) == R.Holds(d.evidence[step])
  {
    hide GoodEvidence, OutputFile;
    ReadPresent(w, d.disk, OutputFile(step));
  }

  ghost predicate SixEvidenceFacts(d: Drill) {
    && EvidenceFact(d, CheckLegacyCore) && EvidenceFact(d, CheckLegacyCrypto) && EvidenceFact(d, CheckWorkerMap)
    && EvidenceFact(d, CheckForgetForward) && EvidenceFact(d, CheckSignatureRefs) && EvidenceFact(d, CheckVariants)
  }

  lemma SixEvidence(w: World, c: Config, children: Children, start: Drill)
    requires EvidencePromises(w, children) && Run(w, c, children, start, 20).exitCode == 0
    ensures SixEvidenceFacts(Run(w, c, children, start, 20).drill)
  {
    hide EvidenceFact, EvidencePromises, Run;
    EvidenceFacts(w, c, children, start, 20, CheckLegacyCore);
    EvidenceFacts(w, c, children, start, 20, CheckLegacyCrypto);
    EvidenceFacts(w, c, children, start, 20, CheckWorkerMap);
    EvidenceFacts(w, c, children, start, 20, CheckForgetForward);
    EvidenceFacts(w, c, children, start, 20, CheckSignatureRefs);
    EvidenceFacts(w, c, children, start, 20, CheckVariants);
  }

  /** What the six check steps leave, read back. */
  ghost predicate ChecksRead(w: World, c: Config, d: Drill) {
    var docs := R.ReadAll(w, d.disk);
    && docs.checks == R.Holds(ChecksDocument(c, d.evidence))
    && R.EmbedsAll(docs)
    && R.EvidenceOk(R.ValueOf(docs.core)) && R.EvidenceOk(R.ValueOf(docs.crypto))
    && !R.SaysBlocked(R.ValueOf(docs.workerMap)) && !R.SaysBlocked(R.ValueOf(docs.forgetForward))
    && !R.SaysBlocked(R.ValueOf(docs.signatureRefs)) && !R.SaysBlocked(R.ValueOf(docs.variants))
    && R.ChecksBlockers(docs) == []
  }

  lemma ReadEvidence(w: World, d: Drill)
    requires Sound(w) && SixCheckFacts(w, d) && SixEvidenceFacts(d)
    ensures var docs := R.ReadAll(w, d.disk);
      && docs.core == R.Holds(EvidenceOf(d.evidence, CheckLegacyCore)) && docs.crypto == R.Holds(EvidenceOf(d.evidence, CheckLegacyCrypto))
      && docs.workerMap == R.Holds(EvidenceOf(d.evidence, CheckWorkerMap)) && docs.forgetForward == R.Holds(EvidenceOf(d.evidence, CheckForgetForward))
      && docs.signatureRefs == R.Holds(EvidenceOf(d.evidence, CheckSignatureRefs)) && docs.variants == R.Holds(EvidenceOf(d.evidence, CheckVariants))
  {
    hide CheckFact, GoodEvidence, R.Read, Parsed;
    CheckDocuments(w, d, CheckLegacyCore);
    CheckDocuments(w, d, CheckLegacyCrypto);
    CheckDocuments(w, d, CheckWorkerMap);
    CheckDocuments(w, d, CheckForgetForward);
    CheckDocuments(w, d, CheckSignatureRefs);
    CheckDocuments(w, d, CheckVariants);
  }

  lemma EvidenceStatuses(d: Drill)
    requires SixEvidenceFacts(d)
    ensures R.EvidenceOk(EvidenceOf(d.evidence, CheckLegacyCore)) && R.EvidenceOk(EvidenceOf(d.evidence, CheckLegacyCrypto))
    ensures !R.SaysBlocked(EvidenceOf(d.evidence, CheckWorkerMap)) && !R.SaysBlocked(EvidenceOf(d.evidence, CheckForgetForward))
    ensures !R.SaysBlocked(EvidenceOf(d.evidence, CheckSignatureRefs)) && !R.SaysBlocked(EvidenceOf(d.evidence, CheckVariants))
  {
    hide R.SaysBlocked, R.IsTrue, R.StatusOf, R.SaysReady;
  }

  lemma ReadChecks(w: World, c: Config, d: Drill)
    requires Sound(w) && ValidConfig(c) && SixCheckFacts(w, d) && SixEvidenceFacts(d) && ChecksFact(w, c, d)
    ensures ChecksRead(w, c, d)
  {
    hide SixCheckFacts, SixEvidenceFacts, R.EvidenceOk, R.SaysBlocked, R.Read, ChecksDocument, Field, IsText, D.IsBool, ChecksFact, EvidenceOf, Sound, ValidConfig;
    ReadEvidence(w, d);
    EvidenceStatuses(d);
    ChecksReadBack(w, c, d);
    ChecksFields(w, c, d.evidence);
    EmbeddedFields(c, d.evidence);
  }

  lemma ChecksFields(w: World, c: Config, evidence: map<Step, Json>)
    requires ValidConfig(c)
    ensures var doc := ChecksDocument(c, evidence);
      IsText(Field(doc, Release)) && IsText(Field(doc, Profile)) && IsText(Field(doc, Mode)) && D.IsBool(Field(doc, Strict))
  {
    hide Trim;
    var doc := ChecksDocument(c, evidence);
    assert Field(doc, Release) == Some(Str(c.release)) && Field(doc, Profile) == Some(Str(c.profile));
    assert Field(doc, Mode) == Some(Str(c.mode)) && Field(doc, Strict) == Some(Bool(c.strict));
  }

  lemma EmbeddedFields(c: Config, evidence: map<Step, Json>)
    ensures var doc := ChecksDocument(c, evidence);
      && doc != Null
      && Field(doc, LegacyCoreExtractionEvidence) == Some(EvidenceOf(evidence, CheckLegacyCore))
      && Field(doc, LegacyCryptoBoundaryEvidence) == Some(EvidenceOf(evidence, CheckLegacyCrypto))
      && Field(doc, Key.TemplateWorkerMapCoherence) == Some(EvidenceOf(evidence, CheckWorkerMap))
      && Field(doc, ForgetForwardConfig) == Some(EvidenceOf(evidence, CheckForgetForward))
      && Field(doc, TemplateSignatureRefMap) == Some(EvidenceOf(evidence, CheckSignatureRefs))
      && Field(doc, TemplateVariantMap) == Some(EvidenceOf(evidence, CheckVariants))
  {
  }

  lemma ReleasesAgree(w: World, c: Config, d: Drill, gateRelease: string)
    requires Sound(w) && ValidConfig(c) && SixCheckFacts(w, d) && ChecksFact(w, c, d)
    requires forall f | f in {PackJson, Readiness, Manifest} :: SaysReadyFor(w, d.disk, f, Trim(c.release))
    requires Parsed(w, d.disk, LedgerJson).Some? && D.ReleaseOf(Parsed(w, d.disk, LedgerJson).value) == Trim(c.release)
    ensures R.Aligned(R.Releases(R.ReadAll(w, d.disk), gateRelease)) <==> gateRelease == "" || gateRelease == Trim(c.release)
  {
    hide Trim, D.ReleaseOf, SixCheckFacts, ChecksFact, R.Read, R.Aligned, Parsed, ChecksDocument;
    assert SaysReadyFor(w, d.disk, PackJson, Trim(c.release)) && SaysReadyFor(w, d.disk, Readiness, Trim(c.release))
      && SaysReadyFor(w, d.disk, Manifest, Trim(c.release));
    ReadPresent(w, d.disk, PackJson);
    ReadPresent(w, d.disk, Readiness);
    ReadPresent(w, d.disk, Manifest);
    ReadPresent(w, d.disk, LedgerJson);
    ChecksDocumentAgrees(w, c, d);
    ChecksReadBack(w, c, d);
    NamedReleases(R.Releases(R.ReadAll(w, d.disk), gateRelease), Trim(c.release), gateRelease);
  }

  lemma NamedReleases(releases: seq<string>, release: string, gateRelease: string)
    requires release != "" && releases == [release, release, release, release, release, gateRelease]
    ensures R.Aligned(releases) <==> gateRelease == "" || gateRelease == release
  {
    if R.Aligned(releases) {
      assert releases[0] == release && releases[5] == gateRelease;
    } else {
      assert forall i | 0 <= i < |releases| :: releases[i] == release || releases[i] == gateRelease;
    }
  }

  lemma ChecksReadBack(w: World, c: Config, d: Drill)
    requires Sound(w) && ChecksFact(w, c, d)
    ensures R.Read(w, d.disk, DrillChecks) == R.Holds(ChecksDocument(c, d.evidence))
  {
    hide ChecksDocument;
    ReadPresent(w, d.disk, DrillChecks);
  }

  lemma AllInspected(w: World, c: Config, d: Drill)
    requires ChecksRead(w, c, d)
    requires forall f | f in {PackJson, Readiness, Manifest, FileName.DrillCheck, LedgerJson} :: Parsed(w, d.disk, f).Some?
    ensures R.ReadingBlockers(w, d.disk, R.Inspected(), 12) == []
  {
    hide R.Read, R.ReadingBlockers, Parsed, ChecksDocument, R.EvidenceOk, R.SaysBlocked, R.ChecksBlockers;
    ReadPresent(w, d.disk, PackJson);
    ReadPresent(w, d.disk, Readiness);
    ReadPresent(w, d.disk, Manifest);
    ReadPresent(w, d.disk, FileName.DrillCheck);
    ReadPresent(w, d.disk, LedgerJson);
    forall k | 0 <= k < 12 ensures R.Read(w, d.disk, R.Inspected()[k]).Holds? {
      InspectedFile(k);
    }
    R.AllReadable(w, d.disk, R.Inspected(), 12);
  }

  lemma InspectedFile(k: nat)
    requires k < 12
    ensures R.Inspected()[k] in {PackJson, Readiness, LegacyCore, LegacyCrypto, WorkerMapCoherence, ForgetForward, SignatureRefMap,
                                 VariantMap, DrillChecks, Manifest, FileName.DrillCheck, LedgerJson}
  {
  }

  /** Everything known about the directory at the end of a strict drill. */
  ghost predicate Finished(w: World, c: Config, d: Drill) {
    && SixCheckFacts(w, d) && SixEvidenceFacts(d) && ChecksFact(w, c, d)
    && PackFact(w, c, d.disk) && ReadinessFact(w, c, d.disk) && ManifestFact(w, c, d.disk) && AcceptedFact(w, d.disk)
    && Parsed(w, d.disk, LedgerJson).Some? && R.LedgerStatus(Parsed(w, d.disk, LedgerJson).value) == "ready"
    && D.ReleaseOf(Parsed(w, d.disk, LedgerJson).value) == Trim(c.release)
  }

  /** What the readiness check complains about: at most the release. */
  function GateMismatch(c: Config, gateRelease: string): seq<R.Blocker> {
    if gateRelease == "" || gateRelease == Trim(c.release) then [] else [R.ReleaseMismatch]
  }

  lemma FinishedBlockers(w: World, c: Config, d: Drill, gateRelease: string, aoRelated: string -> bool)
    requires Sound(w) && ValidConfig(c) && ReadyReport(w, d.disk) && Finished(w, c, d)
    ensures R.AutomationBlockersOf(w, d.disk, gateRelease, aoRelated) == Some(GateMismatch(c, gateRelease))
  {
    hide Trim, D.ReleaseOf, SixCheckFacts, SixEvidenceFacts, ChecksFact, PackFact, ReadinessFact, ManifestFact, R.LedgerStatus, R.Read, R.SaysReady, R.IsTrue,
      R.Aligned, R.StatusBlockers, R.ReadingBlockers, R.EmbeddedBlockers, R.ChecksBlockers, R.Throws, ValidConfig, Sound, R.Releases, R.EvidenceOk, R.SaysBlocked, R.EmbedsAll;
    ReleaseDocuments(w, c, d.disk);
    assert SaysReadyFor(w, d.disk, PackJson, Trim(c.release)) && SaysReadyFor(w, d.disk, Readiness, Trim(c.release))
      && SaysReadyFor(w, d.disk, Manifest, Trim(c.release));
    ReadChecks(w, c, d);
    ReadPresent(w, d.disk, PackJson);
    ReadPresent(w, d.disk, Readiness);
    ReadPresent(w, d.disk, Manifest);
    ReadPresent(w, d.disk, FileName.DrillCheck);
    ReadPresent(w, d.disk, LedgerJson);
    SameIsTrue(Parsed(w, d.disk, FileName.DrillCheck).value);
    var docs := R.ReadAll(w, d.disk);
    assert R.WentWell(docs);
    R.NoStatusBlockers(docs, aoRelated);
    R.NoEmbeddedBlockers(docs);
    ReleasesAgree(w, c, d, gateRelease);
    AllInspected(w, c, d);
    OnlyTheRelease(w, d.disk, gateRelease, aoRelated);
  }

  lemma OnlyTheRelease(w: World, disk: Disk, gateRelease: string, aoRelated: string -> bool)
    requires var docs := R.ReadAll(w, disk);
      && !R.Throws(docs) && R.ReadingBlockers(w, disk, R.Inspected(), 12) == [] && R.StatusBlockers(docs, aoRelated) == []
      && R.ChecksBlockers(docs) == [] && R.EmbeddedBlockers(docs) == []
    ensures R.AutomationBlockersOf(w, disk, gateRelease, aoRelated)
         == Some(if R.Aligned(R.Releases(R.ReadAll(w, disk), gateRelease)) then [] else [R.ReleaseMismatch])
  {
    hide R.ReadAll, R.Throws, R.ReadingBlockers, R.StatusBlockers, R.ChecksBlockers, R.EmbeddedBlockers, R.Aligned, R.Releases;
    var none: seq<R.Blocker> := [];
    assert none + none + none + none + none == none;
    assert none + none + none + none + [R.ReleaseMismatch] == [R.ReleaseMismatch];
  }

  lemma SameIsTrue(value: Json)
    ensures L.IsTrue(value, Ok) <==> R.IsTrue(value, Ok)
  {
  }

  lemma LedgerFacts(w: World, c: Config, children: Children, start: Drill)
    requires Sound(w) && ValidConfig(c) && Promises(w, c, children) && Run(w, c, children, start, 20).exitCode == 0
    requires ReadyReport(w, Run(w, c, children, start, 20).drill.disk)
    ensures var disk := Run(w, c, children, start, 20).drill.disk;
      && Parsed(w, disk, LedgerJson).Some? && R.LedgerStatus(Parsed(w, disk, LedgerJson).value) == "ready"
      && D.ReleaseOf(Parsed(w, disk, LedgerJson).value) == Trim(c.release)
  {
    hide Run, Promises, Perform, L.Buildable, LedgerReady, IsLedgerDocument, PackFact, GateFact, ValidConfig, Sound, R.LedgerStatus, D.ReleaseOf, Trim, IsReadiness,
      Tidy, ManifestPromise, ValidatorPromise, CheckPromise, LedgerPromise, Parsed;
    StepAt(w, c, children, start, WriteLedger, 20);
    StepAt(w, c, children, start, CheckReadiness, 20);
    var d := Run(w, c, children, start, 19).drill;
    ReadyRunsFinish(w, c, children, start);
    ReleaseFacts(w, c, children, start, 19);
    Promised(w, c, children, d);
    Undisturbed(w, c, children, start, 19, 20, Readiness);
    SameReport(w, d.disk, Run(w, c, children, start, 20).drill.disk);
    ReadyIsBuildable(w, d.disk);
    LedgerWritten(w, c, children, d);
    LedgerSaysReady(w, c, d.disk, Parsed(w, Run(w, c, children, start, 20).drill.disk, LedgerJson).value);
  }

  lemma SameReport(w: World, a: Disk, b: Disk)
    requires SameFile(a, b, Readiness)
    ensures Parsed(w, a, Readiness) == Parsed(w, b, Readiness)
  {
  }

  lemma ReadyIsBuildable(w: World, disk: Disk)
    requires LedgerReady(w, disk)
    ensures L.Buildable(w, disk)
  {
  }

  lemma AcceptedKept(w: World, c: Config, children: Children, start: Drill)
    requires Sound(w) && ValidConfig(c) && Promises(w, c, children) && Run(w, c, children, start, 20).exitCode == 0
    ensures AcceptedFact(w, Run(w, c, children, start, 20).drill.disk)
  {
    hide Run, Perform, Plan, Tidy, ValidConfig, Sound, GatePromise, PackPromise, ReadinessPromise, ManifestPromise, ValidatorPromise, CheckPromise, LedgerPromise, L.IsTrue;
    StepAt(w, c, children, start, CheckReadiness, 20);
    ThroughTheCheck(w, c, children, start);
    Undisturbed(w, c, children, start, 19, 20, FileName.DrillCheck);
  }

  /** The drill feeds the readiness check: after a drill with exit code 0 over children that keep their promises, strict or
      with a readiness report that says `ready`, the automation blockers of the readiness check are none, or the single
      release mismatch when the gate names another release. */
  lemma DrillSatisfiesReadiness(w: World, c: Config, children: Children, start: Drill, gateRelease: string, aoRelated: string -> bool)
    requires Sound(w) && ValidConfig(c) && Promises(w, c, children) && EvidencePromises(w, children)
    requires Run(w, c, children, start, 20).exitCode == 0
    requires c.strict || ReadyReport(w, Run(w, c, children, start, 20).drill.disk)
    ensures R.AutomationBlockersOf(w, Run(w, c, children, start, 20).drill.disk, gateRelease, aoRelated) == Some(GateMismatch(c, gateRelease))
  {
    hide Run, Promises, EvidencePromises, ValidConfig, Sound, Trim, SixCheckFacts, SixEvidenceFacts, ChecksFact, PackFact, GateFact, ManifestFact, AcceptedFact,
      R.LedgerStatus, D.ReleaseOf, R.AutomationBlockersOf, Parsed, GateMismatch;
    Promised(w, c, children, Run(w, c, children, start, 20).drill);
    SixChecks(w, c, children, start, 20);
    SixEvidence(w, c, children, start);
    ChecksFacts(w, c, children, start, 20);
    ReleaseFacts(w, c, children, start, 20);
    ManifestFresh(w, c, children, start, 20);
    AcceptedKept(w, c, children, start);
    LedgerFacts(w, c, children, start);
    FinishedBlockers(w, c, Run(w, c, children, start, 20).drill, gateRelease, aoRelated);
  }
}
