/** The files of a release drill directory and the tables of files the drill scripts require. */
module DrillFiles {
  import opened Strings
  import opened Sorting
  import opened Documents

  datatype FileName =
    | Matrix | DriftReport | DriftSummary | LatestBundle | AoGateValidation
    | LegacyCore | LegacyCrypto | WorkerMapCoherence | ForgetForward | SignatureRefMap | VariantMap
    | DrillChecks | PackMarkdown | PackJson | Checklist | Readiness
    | Manifest | ManifestValidation | DrillCheck | LedgerMarkdown | LedgerJson
    | LegacyName(canonical: FileName, second: bool)     // the older names of a renamed artifact
    | OtherFile(name: string)

  /** The regular files of the drill directory. */
  type Disk = map<FileName, string>

  /** The name of a manifested file in the directory. */
  function NameOf(f: FileName): string {
    match f
    case Matrix => "consistency-matrix.json"
    case DriftReport => "consistency-drift-report.md"
    case DriftSummary => "consistency-drift-summary.json"
    case LatestBundle => "latest-evidence-bundle.json"
    case AoGateValidation => "ao-dependency-gate.validation.txt"
    case PackMarkdown => "release-evidence-pack.md"
    case PackJson => "release-evidence-pack.json"
    case Checklist => "release-signoff-checklist.md"
    case Readiness => "release-readiness.json"
    case LegacyCore => "legacy-core-extraction-evidence.json"
    case LegacyCrypto => "legacy-crypto-boundary-evidence.json"
    case VariantMap => "template-variant-map.json"
    case DrillChecks => "release-drill-checks.json"
    case _ => ""
  }

  /** What the drill manifest lists, in this order. */
  function Manifested(): (r: seq<FileName>)
    ensures |r| == 13 && r[6] == PackJson && r[8] == Readiness
  {
    [Matrix, DriftReport, DriftSummary, LatestBundle, AoGateValidation, PackMarkdown, PackJson,
     Checklist, Readiness, LegacyCore, LegacyCrypto, VariantMap, DrillChecks]
  }

  /** What the artifact check requires. */
  function Required(): seq<FileName> {
    [Matrix, DriftReport, DriftSummary, LatestBundle, AoGateValidation, PackMarkdown, PackJson, Checklist, Readiness,
     LegacyCore, LegacyCrypto, WorkerMapCoherence, ForgetForward, SignatureRefMap, VariantMap,
     DrillChecks, Manifest, ManifestValidation]
  }

  /** What the ledger records. */
  function LedgerFiles(): seq<FileName> {
    [Matrix, DriftReport, DriftSummary, LatestBundle, AoGateValidation, PackMarkdown, PackJson, Checklist, Readiness,
     LegacyCore, LegacyCrypto, DrillChecks, Manifest, ManifestValidation, DrillCheck]
  }

  predicate HasLegacyNames(f: FileName) { f in {WorkerMapCoherence, ForgetForward, SignatureRefMap, VariantMap} }

  /** The names under which a required file is accepted, preferred name first. */
  function Candidates(f: FileName): seq<FileName> {
    if HasLegacyNames(f) then [f, LegacyName(f, false), LegacyName(f, true)] else [f]
  }

  function Names(files: seq<FileName>): (r: seq<string>)
    ensures |r| == |files| && forall i | 0 <= i < |files| :: r[i] == NameOf(files[i])
  {
    seq(|files|, i requires 0 <= i < |files| => NameOf(files[i]))
  }

  /** The paths a drill manifest must list. */
  function ExpectedPaths(): seq<string> { Names(Manifested()) }

  /** Length and ninth character tell the manifested names apart. */
  function Mark(f: FileName): (nat, char) {
    match f
    case Matrix => (23, 'n')
    case DriftReport => (27, 'n')
    case DriftSummary => (30, 'n')
    case LatestBundle => (27, 'v')
    case AoGateValidation => (33, 'd')
    case PackMarkdown => (24, 'e')
    case PackJson => (26, 'e')
    case Checklist => (28, 's')
    case Readiness => (22, 'r')
    case LegacyCore => (36, 'o')
    case LegacyCrypto => (36, 'r')
    case VariantMap => (25, '-')
    case DrillChecks => (25, 'd')
    case _ => (0, ' ')
  }

  ghost predicate Marked(f: FileName) {
    |NameOf(f)| == Mark(f).0 && |NameOf(f)| > 8 && NameOf(f)[8] == Mark(f).1
  }

  lemma EvidenceNames()
    ensures Marked(Matrix) && Marked(DriftReport) && Marked(DriftSummary)
  {
  }

  lemma CheckNames()
    ensures Marked(LatestBundle) && Marked(AoGateValidation) && Marked(VariantMap)
  {
  }

  lemma LegacyNames()
    ensures Marked(LegacyCore) && Marked(LegacyCrypto)
  {
  }

  lemma PackNames()
    ensures Marked(PackMarkdown) && Marked(PackJson)
  {
  }

  lemma ReleaseNames()
    ensures Marked(Checklist) && Marked(Readiness) && Marked(DrillChecks)
  {
  }

  lemma NameMark(f: FileName)
    requires f in Manifested()
    ensures Marked(f)
  {
    hide Marked;
    EvidenceNames();
    CheckNames();
    LegacyNames();
    PackNames();
    ReleaseNames();
  }

  ghost predicate PlainEnds(f: FileName) {
    var name := NameOf(f); name != "" && 'a' <= name[0] <= 'z' && 'a' <= name[|name| - 1] <= 'z'
  }

  lemma NameEnds(f: FileName)
    requires f in {Matrix, DriftReport, DriftSummary, LatestBundle, AoGateValidation, LegacyCore, LegacyCrypto}
    ensures PlainEnds(f)
  {
  }

  lemma MoreNameEnds(f: FileName)
    requires f in {VariantMap, PackMarkdown, PackJson, Checklist, Readiness, DrillChecks}
    ensures PlainEnds(f)
  {
  }

  lemma NamesDiffer(f: FileName, g: FileName)
    requires f in Manifested() && g in Manifested() && f != g
    ensures NameOf(f) != NameOf(g)
  {
    hide NameOf, Manifested, Mark;
    NameMark(f);
    NameMark(g);
    MarksDiffer(f, g);
  }

  /** The manifested file with that mark. */
  function Unmark(length: nat, ninth: char): FileName {
    if length == 23 then Matrix
    else if length == 27 then (if ninth == 'n' then DriftReport else LatestBundle)
    else if length == 30 then DriftSummary
    else if length == 33 then AoGateValidation
    else if length == 24 then PackMarkdown
    else if length == 26 then PackJson
    else if length == 28 then Checklist
    else if length == 22 then Readiness
    else if length == 36 then (if ninth == 'o' then LegacyCore else LegacyCrypto)
    else if ninth == '-' then VariantMap
    else DrillChecks
  }

  lemma ManifestedAre(f: FileName)
    requires f in Manifested()
    ensures f in {Matrix, DriftReport, DriftSummary, LatestBundle, AoGateValidation, LegacyCore, LegacyCrypto,
                  VariantMap, PackMarkdown, PackJson, Checklist, Readiness, DrillChecks}
  {
  }

  lemma UnmarkMark(f: FileName)
    requires f in {Matrix, DriftReport, DriftSummary, LatestBundle, AoGateValidation, LegacyCore, LegacyCrypto,
                   VariantMap, PackMarkdown, PackJson, Checklist, Readiness, DrillChecks}
    ensures Unmark(Mark(f).0, Mark(f).1) == f
  {
  }

  lemma MarksDiffer(f: FileName, g: FileName)
    requires f in Manifested() && g in Manifested() && f != g
    ensures Mark(f) != Mark(g)
  {
    hide Mark, Unmark, Manifested;
    ManifestedAre(f);
    ManifestedAre(g);
    UnmarkMark(f);
    UnmarkMark(g);
  }

  lemma NamesTrimmed(f: FileName)
    requires f in Manifested()
    ensures NameOf(f) != "" && Trim(NameOf(f)) == NameOf(f) && NonBlank(NameOf(f))
  {
    hide NameOf;
    if f in {VariantMap, PackMarkdown, PackJson, Checklist, Readiness, DrillChecks} { MoreNameEnds(f); } else { NameEnds(f); }
    TrimKeeps(NameOf(f));
  }

  lemma ManifestedDistinct(i: nat, j: nat)
    requires i < j < 13
    ensures Manifested()[i] != Manifested()[j]
  {
  }

  lemma ExpectedPathsDistinct()
    ensures |ExpectedPaths()| == 13 && NoDuplicates(ExpectedPaths())
    ensures forall p | p in ExpectedPaths() :: p != "" && Trim(p) == p
  {
    hide Manifested, NameOf, Trim, NonBlank;
    forall i | 0 <= i < 13 ensures ExpectedPaths()[i] != "" && Trim(ExpectedPaths()[i]) == ExpectedPaths()[i] {
      NamesTrimmed(Manifested()[i]);
    }
    forall i, j | 0 <= i < j < 13 ensures ExpectedPaths()[i] != ExpectedPaths()[j] {
      ManifestedDistinct(i, j);
      NamesDiffer(Manifested()[i], Manifested()[j]);
    }
  }
}
