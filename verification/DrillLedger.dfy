/** The release evidence ledger, written by the last step of a drill. */
module DrillLedger {
  import opened Strings
  import opened Documents
  import opened DrillFiles
  import opened DrillManifest
  import opened DrillCheck

  datatype Checks = Checks(packReady: bool, readinessReady: bool, drillCheckOk: bool, manifestValidated: bool, aoGateValidated: bool)
  datatype FileRecord = FileRecord(file: FileName, sizeBytes: nat, sha256: string)
  datatype Ledger = Ledger(release: string, overallReady: bool, checks: Checks, artifacts: seq<FileRecord>)

  /** `normalizeStatus(value.status) === 'ready'` */
  predicate IsReady(value: Json) { Lower(TextOr(Field(value, Status))) == "ready" }

  function IsTrue(value: Json, key: Key): bool { Field(value, key) == Some(Bool(true)) }

  ghost function LedgerChecks(w: World, disk: Disk): Checks
    requires forall f | f in LedgerFiles() :: f in disk
    requires w.parse(disk[PackJson]).Some? && w.parse(disk[Readiness]).Some? && w.parse(disk[DrillCheck]).Some?
  {
    Checks(IsReady(w.parse(disk[PackJson]).value), IsReady(w.parse(disk[Readiness]).value),
           IsTrue(w.parse(disk[DrillCheck]).value, Ok),
           Includes(Lower(disk[ManifestValidation]), ManifestPhrase()),
           Includes(Lower(disk[AoGateValidation]), GatePhrase()))
  }

  function OverallReady(c: Checks): bool {
    c.packReady && c.readinessReady && c.drillCheckOk && c.manifestValidated && c.aoGateValidated
  }

  /** The ledger can be built: the files exist, the documents parse, and those whose fields are read are not `null`. */
  ghost predicate Buildable(w: World, disk: Disk) {
    && (forall f | f in LedgerFiles() :: f in disk)
    && PackJson in disk && Readiness in disk && DrillCheck in disk && LatestBundle in disk
    && w.parse(disk[PackJson]).Some? && w.parse(disk[Readiness]).Some?
    && w.parse(disk[DrillCheck]).Some? && w.parse(disk[LatestBundle]).Some?
    && w.parse(disk[PackJson]).value != Null && w.parse(disk[Readiness]).value != Null
  }

  lemma LedgerFilesInclude()
    ensures forall f | f in {PackJson, Readiness, DrillCheck, LatestBundle, ManifestValidation, AoGateValidation} :: f in LedgerFiles()
  {
    var l := LedgerFiles();
    assert l[6] == PackJson && l[8] == Readiness && l[14] == DrillCheck && l[3] == LatestBundle;
    assert l[13] == ManifestValidation && l[4] == AoGateValidation;
  }

  method BuildLedger(w: World, disk: Disk) returns (r: Option<Ledger>)
    ensures r.Some? <==> Buildable(w, disk)
    ensures r.Some? ==>
      && r.value.release == DeriveText(w.parse(disk[Readiness]).value, w.parse(disk[PackJson]).value, Release)
      && r.value.checks == LedgerChecks(w, disk)
      && r.value.overallReady == OverallReady(r.value.checks)
      && |r.value.artifacts| == |LedgerFiles()|
      && forall i | 0 <= i < |LedgerFiles()| :: var f := LedgerFiles()[i];
           r.value.artifacts[i] == FileRecord(f, w.byteLength(disk[f]), w.sha256Hex(disk[f]))
  {
    hide LedgerFiles, DeriveText, Includes, Lower, ManifestPhrase, GatePhrase, TextOr;
    LedgerFilesInclude();
    var names := LedgerFiles();
    var files: seq<FileRecord> := [];
    for i := 0 to |names|
      invariant |files| == i
      invariant forall k | 0 <= k < i :: names[k] in disk && files[k] == FileRecord(names[k], w.byteLength(disk[names[k]]), w.sha256Hex(disk[names[k]]))
    {
      if names[i] !in disk { return None; }
      files := files + [FileRecord(names[i], w.byteLength(disk[names[i]]), w.sha256Hex(disk[names[i]]))];
    }
    assert forall f | f in names :: f in disk;
    assert PackJson in names && Readiness in names && DrillCheck in names && LatestBundle in names;
    assert ManifestValidation in names && AoGateValidation in names;
    var pack, readiness := w.parse(disk[PackJson]), w.parse(disk[Readiness]);
    var drillCheck, latestBundle := w.parse(disk[DrillCheck]), w.parse(disk[LatestBundle]);
    if pack.None? || readiness.None? || drillCheck.None? || latestBundle.None? { return None; }
    if readiness.value.Null? || pack.value.Null? { return None; }
    var release := DeriveText(readiness.value, pack.value, Release);
    var manifestValidated := FindsPhrase(disk[ManifestValidation], ManifestPhrase());
    var aoGateValidated := FindsPhrase(disk[AoGateValidation], GatePhrase());
    var checks := Checks(IsReady(pack.value), IsReady(readiness.value), IsTrue(drillCheck.value, Ok), manifestValidated, aoGateValidated);
    r := Some(Ledger(release, OverallReady(checks), checks, files));
  }
}
