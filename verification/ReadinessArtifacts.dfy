/** The automation half of the decommission readiness check: the artifacts of a release drill, read again. */
module ReadinessArtifacts {
  import opened Strings
  import opened Documents
  import opened DrillFiles
  import DrillCheck

  // ---------------------------------------------------------------- reading

  datatype Reading = Absent | Unparsable | Holds(value: Json)

  /** The artifacts the check requires, in order. */
  function Inspected(): (r: seq<FileName>)
    ensures |r| == 12
  {
    [PackJson, Readiness, LegacyCore, LegacyCrypto, WorkerMapCoherence, ForgetForward, SignatureRefMap, VariantMap,
     DrillChecks, Manifest, FileName.DrillCheck, LedgerJson]
  }

  function Read(w: World, disk: Disk, f: FileName): Reading {
    var location := DrillCheck.Resolve(disk, f);
    if location.None? then Absent
    else if w.parse(disk[location.value]).None? then Unparsable
    else Holds(w.parse(disk[location.value]).value)
  }

  function ValueOf(r: Reading): Json { if r.Holds? then r.value else Null }

  datatype Blocker =
    | MissingArtifact(file: FileName) | InvalidJson(file: FileName) | NotReady(file: FileName) | ReportsBlocked(file: FileName)
    | ChecksLack(key: Key) | CheckNotOk | NotEmbedded(key: Key) | EmbeddedDiffers(key: Key) | ReleaseMismatch

  function ReadingBlocker(f: FileName, r: Reading): seq<Blocker> {
    match r
    case Absent => [MissingArtifact(f)]
    case Unparsable => [InvalidJson(f)]
    case Holds(_) => []
  }

  function ReadingBlockers(w: World, disk: Disk, files: seq<FileName>, n: nat): seq<Blocker>
    requires n <= |files|
  {
    if n == 0 then [] else ReadingBlockers(w, disk, files, n - 1) + ReadingBlocker(files[n - 1], Read(w, disk, files[n - 1]))
  }

  // ---------------------------------------------------------------- statuses

  /** `normalizeStatus(value?.status)` */
  function StatusOf(value: Json): string { Lower(TextOr(Field(value, Status))) }

  predicate SaysReady(value: Json) { StatusOf(value) == "ready" }
  predicate SaysWarning(value: Json) { StatusOf(value) == "warning" }
  predicate SaysBlocked(value: Json) { StatusOf(value) == "blocked" }
  predicate SaysPending(value: Json) { StatusOf(value) == "pending" }

  ghost predicate HasTexts(value: Json, key: Key) {
    exists i | 0 <= i < |Elements(Field(value, key))| :: IsText(Some(Elements(Field(value, key))[i]))
  }

  /** The list has texts, and all of them are about the AO gate. */
  ghost predicate AoOnly(value: Json, key: Key, aoRelated: string -> bool) {
    HasTexts(value, key)
    && forall i | 0 <= i < |Elements(Field(value, key))| ::
         var t := TextOr(Some(Elements(Field(value, key))[i])); t != "" ==> aoRelated(t)
  }

  ghost predicate PackAoPending(pack: Json, aoRelated: string -> bool) {
    AoOnly(pack, Blockers, aoRelated) || (SaysWarning(pack) && AoOnly(pack, Warnings, aoRelated))
  }

  ghost predicate ReadinessAoPending(readiness: Json, pack: Json, aoRelated: string -> bool) {
    || AoOnly(readiness, Blockers, aoRelated) || (SaysWarning(readiness) && AoOnly(readiness, Warnings, aoRelated))
    || ((SaysBlocked(readiness) || SaysWarning(readiness)) && !HasTexts(readiness, Blockers) && !HasTexts(readiness, Warnings)
        && PackAoPending(pack, aoRelated))
  }

  /** `ledger?.overallStatus || ledger?.status` */
  function LedgerStatus(ledger: Json): string {
    var overall := Field(ledger, OverallStatus);
    if overall.Some? && Truthy(overall.value) then Lower(TextOr(overall)) else StatusOf(ledger)
  }

  predicate IsFalse(value: Json, key: Key) { Field(value, key) == Some(Bool(false)) }
  predicate IsTrue(value: Json, key: Key) { Field(value, key) == Some(Bool(true)) }

  ghost predicate LedgerAoPending(ledger: Json, pending: bool) {
    var checks := Field(ledger, CheckList);
    if !ledger.Obj? || checks.None? || !checks.value.Obj? then pending
    else
      var c := checks.value;
      && (IsFalse(c, PackReady) || IsFalse(c, ReadinessReady))
      && !IsFalse(c, DrillCheckOk) && !IsFalse(c, ManifestValidated) && !IsFalse(c, AoGateValidated) && pending
  }

  predicate EvidenceOk(value: Json) { IsTrue(value, Ok) || StatusOf(value) == "pass" || SaysReady(value) }

  function Unless(ok: bool, b: Blocker): seq<Blocker> { if ok then [] else [b] }

  datatype DrillDocuments = DrillDocuments(pack: Reading, readiness: Reading, core: Reading, crypto: Reading, workerMap: Reading,
                                 forgetForward: Reading, signatureRefs: Reading, variants: Reading, checks: Reading,
                                 manifest: Reading, drillCheck: Reading, ledger: Reading)

  function ReadAll(w: World, disk: Disk): DrillDocuments {
    DrillDocuments(Read(w, disk, PackJson), Read(w, disk, Readiness), Read(w, disk, LegacyCore), Read(w, disk, LegacyCrypto),
              Read(w, disk, WorkerMapCoherence), Read(w, disk, ForgetForward), Read(w, disk, SignatureRefMap), Read(w, disk, VariantMap),
              Read(w, disk, DrillChecks), Read(w, disk, Manifest), Read(w, disk, FileName.DrillCheck), Read(w, disk, LedgerJson))
  }

  ghost function StatusBlockers(d: DrillDocuments, aoRelated: string -> bool): seq<Blocker> {
    var pack, readiness := ValueOf(d.pack), ValueOf(d.readiness);
    var manifest, ledger := ValueOf(d.manifest), ValueOf(d.ledger);
    var packPending, readinessPending := PackAoPending(pack, aoRelated), ReadinessAoPending(readiness, pack, aoRelated);
    Unless(d.pack.Absent? || SaysReady(pack) || packPending, NotReady(PackJson))
    + Unless(d.readiness.Absent? || SaysReady(readiness) || readinessPending || packPending, NotReady(Readiness))
    + Unless(d.core.Absent? || EvidenceOk(ValueOf(d.core)), NotReady(LegacyCore))
    + Unless(d.crypto.Absent? || EvidenceOk(ValueOf(d.crypto)), NotReady(LegacyCrypto))
    + Unless(d.workerMap.Absent? || !SaysBlocked(ValueOf(d.workerMap)), ReportsBlocked(WorkerMapCoherence))
    + Unless(d.forgetForward.Absent? || !SaysBlocked(ValueOf(d.forgetForward)), ReportsBlocked(ForgetForward))
    + Unless(d.signatureRefs.Absent? || !SaysBlocked(ValueOf(d.signatureRefs)), ReportsBlocked(SignatureRefMap))
    + Unless(d.variants.Absent? || !SaysBlocked(ValueOf(d.variants)), ReportsBlocked(VariantMap))
    + Unless(d.manifest.Absent? || SaysReady(manifest)
             || ((SaysWarning(manifest) || SaysBlocked(manifest) || SaysPending(manifest)) && (packPending || readinessPending)), NotReady(Manifest))
    + Unless(d.drillCheck.Absent? || IsTrue(ValueOf(d.drillCheck), Ok), CheckNotOk)
    + Unless(d.ledger.Absent? || LedgerStatus(ledger) == "ready" || LedgerAoPending(ledger, packPending || readinessPending), NotReady(LedgerJson))
  }

  function ChecksBlockers(d: DrillDocuments): seq<Blocker> {
    if d.checks.Absent? then []
    else
      var c := ValueOf(d.checks);
      Unless(IsText(Field(c, Release)), ChecksLack(Release)) + Unless(IsText(Field(c, Profile)), ChecksLack(Profile))
      + Unless(IsText(Field(c, Mode)), ChecksLack(Mode)) + Unless(DrillCheck.IsBool(Field(c, Strict)), ChecksLack(Strict))
  }

  function EmbeddedBlocker(checks: Json, key: Key, artifact: Reading): seq<Blocker> {
    if !artifact.Holds? then []
    else if Field(checks, key).None? then [NotEmbedded(key)]
    else Unless(Field(checks, key).value == artifact.value, EmbeddedDiffers(key))
  }

  function EmbeddedBlockers(d: DrillDocuments): seq<Blocker> {
    if !d.checks.Holds? then []
    else
      var c := d.checks.value;
      EmbeddedBlocker(c, LegacyCoreExtractionEvidence, d.core) + EmbeddedBlocker(c, LegacyCryptoBoundaryEvidence, d.crypto)
      + EmbeddedBlocker(c, Key.TemplateWorkerMapCoherence, d.workerMap) + EmbeddedBlocker(c, ForgetForwardConfig, d.forgetForward)
      + EmbeddedBlocker(c, TemplateSignatureRefMap, d.signatureRefs) + EmbeddedBlocker(c, TemplateVariantMap, d.variants)
  }

  /** The releases named by the artifacts and the gate. */
  function Releases(d: DrillDocuments, gateRelease: string): seq<string> {
    [DrillCheck.ReleaseOf(ValueOf(d.pack)), DrillCheck.ReleaseOf(ValueOf(d.readiness)), DrillCheck.ReleaseOf(ValueOf(d.checks)),
     DrillCheck.ReleaseOf(ValueOf(d.manifest)), DrillCheck.ReleaseOf(ValueOf(d.ledger)), gateRelease]
  }

  /** `uniqueStrings(releases).length <= 1` */
  ghost predicate Aligned(releases: seq<string>) {
    forall i, j | 0 <= i < |releases| && 0 <= j < |releases| :: releases[i] == "" || releases[j] == "" || releases[i] == releases[j]
  }

  /** A `null` document of embedded results has no properties to ask for. */
  ghost predicate Throws(d: DrillDocuments) {
    d.checks == Holds(Null) && (d.core.Holds? || d.crypto.Holds? || d.workerMap.Holds? || d.forgetForward.Holds? || d.signatureRefs.Holds? || d.variants.Holds?)
  }

  /** What `assessDecommissionReadiness` pushes to its automation blockers; `None` when it throws. */
  ghost function AutomationBlockersOf(w: World, disk: Disk, gateRelease: string, aoRelated: string -> bool): Option<seq<Blocker>> {
    var d := ReadAll(w, disk);
    if Throws(d) then None
    else Some(ReadingBlockers(w, disk, Inspected(), 12) + StatusBlockers(d, aoRelated) + ChecksBlockers(d) + EmbeddedBlockers(d)
              + (if Aligned(Releases(d, gateRelease)) then [] else [ReleaseMismatch]))
  }

  // ---------------------------------------------------------------- sufficient conditions

  lemma {:induction false} AllReadable(w: World, disk: Disk, files: seq<FileName>, n: nat)
    requires n <= |files| && forall k | 0 <= k < n :: Read(w, disk, files[k]).Holds?
    ensures ReadingBlockers(w, disk, files, n) == []
  {
    hide Read;
    if n > 0 { AllReadable(w, disk, files, n - 1); }
  }

  /** The documents of a drill that went well. */
  ghost predicate WentWell(d: DrillDocuments) {
    && SaysReady(ValueOf(d.pack)) && SaysReady(ValueOf(d.readiness)) && EvidenceOk(ValueOf(d.core)) && EvidenceOk(ValueOf(d.crypto))
    && !SaysBlocked(ValueOf(d.workerMap)) && !SaysBlocked(ValueOf(d.forgetForward)) && !SaysBlocked(ValueOf(d.signatureRefs))
    && !SaysBlocked(ValueOf(d.variants)) && SaysReady(ValueOf(d.manifest)) && IsTrue(ValueOf(d.drillCheck), Ok)
    && LedgerStatus(ValueOf(d.ledger)) == "ready"
  }

  lemma NoStatusBlockers(d: DrillDocuments, aoRelated: string -> bool)
    requires WentWell(d)
    ensures StatusBlockers(d, aoRelated) == []
  {
    hide SaysReady, SaysBlocked, SaysWarning, SaysPending, EvidenceOk, LedgerStatus, PackAoPending, ReadinessAoPending, LedgerAoPending, IsTrue;
  }

  ghost predicate Embeds(checks: Json, key: Key, artifact: Reading) {
    artifact.Holds? && Field(checks, key) == Some(artifact.value)
  }

  ghost predicate EmbedsAll(d: DrillDocuments) {
    && d.checks.Holds? && d.checks.value != Null
    && Embeds(d.checks.value, LegacyCoreExtractionEvidence, d.core) && Embeds(d.checks.value, LegacyCryptoBoundaryEvidence, d.crypto)
    && Embeds(d.checks.value, Key.TemplateWorkerMapCoherence, d.workerMap) && Embeds(d.checks.value, ForgetForwardConfig, d.forgetForward)
    && Embeds(d.checks.value, TemplateSignatureRefMap, d.signatureRefs) && Embeds(d.checks.value, TemplateVariantMap, d.variants)
  }

  lemma NoEmbeddedBlockers(d: DrillDocuments)
    requires EmbedsAll(d)
    ensures EmbeddedBlockers(d) == [] && !Throws(d)
  {
    hide Field;
  }
}
