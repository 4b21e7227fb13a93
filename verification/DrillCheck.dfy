/** The artifact check of a release drill: are the required files there, and do they agree with each other? */
module DrillCheck {
  import opened Strings
  import opened Sorting
  import opened Documents
  import opened DrillFiles
  import opened DrillManifest

  // ---------------------------------------------------------------- finding the files

  datatype Artifact = Artifact(name: FileName, actualName: FileName)

  predicate UsedAlias(a: Artifact) { a.actualName != a.name }

  /** The first candidate name that exists. */
  ghost predicate IsResolution(disk: Disk, f: FileName, r: Option<FileName>) {
    var names := Candidates(f);
    if r.None? then forall i | 0 <= i < |names| :: names[i] !in disk
    else exists i | 0 <= i < |names| :: names[i] == r.value && names[i] in disk && forall j | 0 <= j < i :: names[j] !in disk
  }

  function Resolve(disk: Disk, f: FileName): (r: Option<FileName>)
    ensures f in disk ==> r == Some(f)
    ensures r.Some? ==> r.value in disk
  {
    if f in disk then Some(f)
    else if HasLegacyNames(f) && LegacyName(f, false) in disk then Some(LegacyName(f, false))
    else if HasLegacyNames(f) && LegacyName(f, true) in disk then Some(LegacyName(f, true))
    else None
  }

  lemma ResolvesToFirst(disk: Disk, f: FileName)
    ensures IsResolution(disk, f, Resolve(disk, f))
  {
    var names, r := Candidates(f), Resolve(disk, f);
    assert names[0] == f;
    if HasLegacyNames(f) { assert names[1] == LegacyName(f, false) && names[2] == LegacyName(f, true); }
  }

  method ResolveRequiredArtifact(disk: Disk, f: FileName) returns (r: Option<FileName>)
    ensures r == Resolve(disk, f)
  {
    var candidateNames := Candidates(f);
    for i := 0 to |candidateNames|
      invariant forall j | 0 <= j < i :: candidateNames[j] !in disk
    {
      if candidateNames[i] in disk {
        assert candidateNames[0] == f;
        assert i == 1 ==> candidateNames[i] == LegacyName(f, false);
        assert i == 2 ==> candidateNames[1] == LegacyName(f, false) && candidateNames[2] == LegacyName(f, true);
        return Some(candidateNames[i]);
      }
    }
    assert candidateNames[0] == f;
    assert HasLegacyNames(f) ==> candidateNames[1] == LegacyName(f, false) && candidateNames[2] == LegacyName(f, true);
    return None;
  }

  /** Where a canonical file was found. */
  function Location(disk: Disk, f: FileName): FileName { if Resolve(disk, f).Some? then Resolve(disk, f).value else f }

  function ReadText(disk: Disk, f: FileName): Option<string> {
    if Location(disk, f) in disk then Some(disk[Location(disk, f)]) else None
  }

  function ReadJson(w: World, disk: Disk, f: FileName): Option<Json> {
    var text := ReadText(disk, f);
    if text.None? then None else w.parse(text.value)
  }

  /** What `safeReadJson` returns: unreadable documents become `null`. */
  function Document(w: World, disk: Disk, f: FileName): Json {
    var doc := ReadJson(w, disk, f);
    if doc.None? then Null else doc.value
  }

  // ---------------------------------------------------------------- the strict checks

  datatype Issue =
    | InvalidJson(file: FileName) | Unreadable(file: FileName)
    | BlankField(file: FileName, field: Key) | StrictNotBoolean | PathList(issue: PathIssue)
    | ReleaseMismatch(left: FileName, right: FileName) | NotConfirmed(file: FileName)
    | NotEmbedded(field: Key) | EmbeddedDiffers(field: Key)

  function Unparsed(w: World, disk: Disk, f: FileName): seq<Issue> {
    if ReadJson(w, disk, f).None? then [Issue.InvalidJson(f)] else []
  }

  function DocumentIssues(w: World, disk: Disk): seq<Issue> {
    Unparsed(w, disk, Manifest) + Unparsed(w, disk, Readiness) + Unparsed(w, disk, PackJson) + Unparsed(w, disk, DrillChecks)
  }

  function Blank(value: Json, file: FileName, key: Key): seq<Issue> {
    if IsText(Field(value, key)) then [] else [BlankField(file, key)]
  }

  function Wrapped(issues: seq<PathIssue>): (r: seq<Issue>)
    ensures |r| == |issues|
  {
    seq(|issues|, i requires 0 <= i < |issues| => PathList(issues[i]))
  }

  function ManifestFieldIssues(manifest: Json): seq<Issue> {
    if !Truthy(manifest) then []
    else Blank(manifest, Manifest, Release) + Blank(manifest, Manifest, Status) + Wrapped(ManifestPathIssues(manifest))
  }

  predicate IsBool(v: Option<Json>) { v.Some? && v.value.Bool? }

  function ChecksFieldIssues(checks: Json): seq<Issue> {
    if !Truthy(checks) then []
    else Blank(checks, DrillChecks, Release) + Blank(checks, DrillChecks, Profile) + Blank(checks, DrillChecks, Mode)
         + (if IsBool(Field(checks, Strict)) then [] else [StrictNotBoolean])
  }

  /** The release a document names; a document that is not an object names none. */
  function ReleaseOf(value: Json): string { TextOr(Field(value, Release)) }

  predicate Clash(a: string, b: string) { a != "" && b != "" && a != b }

  function ReleaseIssues(readiness: string, pack: string, manifest: string, checks: string): seq<Issue> {
    (if Clash(readiness, pack) then [ReleaseMismatch(Readiness, PackJson)] else [])
    + (if Clash(manifest, pack) then [ReleaseMismatch(Manifest, PackJson)] else [])
    + (if Clash(manifest, readiness) then [ReleaseMismatch(Manifest, Readiness)] else [])
    + (if Clash(checks, pack) then [ReleaseMismatch(DrillChecks, PackJson)] else [])
    + (if Clash(checks, readiness) then [ReleaseMismatch(DrillChecks, Readiness)] else [])
    + (if Clash(checks, manifest) then [ReleaseMismatch(DrillChecks, Manifest)] else [])
  }

  function GatePhrase(): string { "valid dependency gate" }

  /** Each confirmation is looked for in the lower-cased text; an empty text is not looked at. */
  ghost predicate Confirms(text: string, phrase: string) { text == "" || Includes(Lower(text), phrase) }

  ghost function TextIssues(disk: Disk, f: FileName, phrase: string): seq<Issue> {
    var text := ReadText(disk, f);
    if text.None? then [Unreadable(f)] else if Confirms(text.value, phrase) then [] else [NotConfirmed(f)]
  }

  /** The six check results that the drill embeds in `release-drill-checks.json`. */
  function Embedded(): (r: seq<(Key, FileName)>)
    ensures |r| == 6
  {
    [(LegacyCoreExtractionEvidence, LegacyCore), (LegacyCryptoBoundaryEvidence, LegacyCrypto),
     (Key.TemplateWorkerMapCoherence, WorkerMapCoherence), (ForgetForwardConfig, ForgetForward),
     (TemplateSignatureRefMap, SignatureRefMap), (TemplateVariantMap, VariantMap)]
  }

  function EmbeddedIssue(w: World, disk: Disk, checks: Json, key: Key, file: FileName): seq<Issue> {
    var payload := ReadJson(w, disk, file);
    if payload.None? then [Issue.InvalidJson(file)]
    else if !Truthy(payload.value) then []
    else if Field(checks, key).None? then [NotEmbedded(key)]
    else if Field(checks, key).value != payload.value then [EmbeddedDiffers(key)]
    else []
  }

  function EmbeddedIssues(w: World, disk: Disk, checks: Json, entries: seq<(Key, FileName)>, n: nat): seq<Issue>
    requires n <= |entries|
  {
    if n == 0 then []
    else EmbeddedIssues(w, disk, checks, entries, n - 1) + EmbeddedIssue(w, disk, checks, entries[n - 1].0, entries[n - 1].1)
  }

  ghost function StrictIssues(w: World, disk: Disk): seq<Issue> {
    var manifest, readiness := Document(w, disk, Manifest), Document(w, disk, Readiness);
    var pack, checks := Document(w, disk, PackJson), Document(w, disk, DrillChecks);
    DocumentIssues(w, disk) + ManifestFieldIssues(manifest) + ChecksFieldIssues(checks)
    + ReleaseIssues(ReleaseOf(readiness), ReleaseOf(pack), ReleaseOf(manifest), ReleaseOf(checks))
    + TextIssues(disk, ManifestValidation, ManifestPhrase()) + TextIssues(disk, AoGateValidation, GatePhrase())
    + (if Truthy(checks) then EmbeddedIssues(w, disk, checks, Embedded(), 6) else [])
  }

  /** `text.toLowerCase().includes(phrase)` by scanning. */
  method FindsPhrase(text: string, phrase: string) returns (found: bool)
    ensures found <==> Includes(Lower(text), phrase)
  {
    var lower := Lower(text);
    var i := 0;
    while i + |phrase| <= |lower|
      invariant forall k | 0 <= k < i :: !OccursAt(lower, phrase, k)
    {
      if OccursAt(lower, phrase, i) { return true; }
      i := i + 1;
    }
    assert forall k :: OccursAt(lower, phrase, k) ==> 0 <= k <= |lower| - |phrase|;
    return false;
  }

  method CheckText(disk: Disk, f: FileName, phrase: string) returns (issues: seq<Issue>)
    ensures issues == TextIssues(disk, f, phrase)
  {
    var text := ReadText(disk, f);
    if text.None? { return [Unreadable(f)]; }
    if text.value == "" { return []; }
    var found := FindsPhrase(text.value, phrase);
    issues := if found then [] else [NotConfirmed(f)];
  }

  method CheckEmbedded(w: World, disk: Disk, checks: Json) returns (issues: seq<Issue>)
    ensures issues == EmbeddedIssues(w, disk, checks, Embedded(), 6)
  {
    hide Embedded, ReadJson, Field;
    var entries := Embedded();
    issues := [];
    for i := 0 to 6
      invariant issues == EmbeddedIssues(w, disk, checks, entries, i)
    {
      var (key, file) := entries[i];
      var payload := ReadJson(w, disk, file);
      if payload.None? {
        issues := issues + [Issue.InvalidJson(file)];
      } else if Truthy(payload.value) {
        if Field(checks, key).None? {
          issues := issues + [NotEmbedded(key)];
        } else if Field(checks, key).value != payload.value {
          issues := issues + [EmbeddedDiffers(key)];
        }
      }
    }
  }

  method ValidateStrict(w: World, disk: Disk) returns (issues: seq<Issue>)
    ensures issues == StrictIssues(w, disk)
  {
    hide ManifestPathIssues, EmbeddedIssues, Includes, TextOr, ReadJson, Resolve, ReadText, TextIssues;
    var manifest, readiness := Document(w, disk, Manifest), Document(w, disk, Readiness);
    var pack, checks := Document(w, disk, PackJson), Document(w, disk, DrillChecks);
    issues := DocumentIssues(w, disk);
    var found: seq<Issue> := [];
    if Truthy(manifest) {
      var paths := ValidateManifestArtifacts(manifest);
      found := Blank(manifest, Manifest, Release) + Blank(manifest, Manifest, Status) + Wrapped(paths);
    }
    issues := issues + found + ChecksFieldIssues(checks);
    issues := issues + ReleaseIssues(ReleaseOf(readiness), ReleaseOf(pack), ReleaseOf(manifest), ReleaseOf(checks));
    var manifestText := CheckText(disk, ManifestValidation, ManifestPhrase());
    var gateText := CheckText(disk, AoGateValidation, GatePhrase());
    var embedded: seq<Issue> := [];
    if Truthy(checks) { embedded := CheckEmbedded(w, disk, checks); }
    issues := issues + manifestText + gateText + embedded;
  }

  // ---------------------------------------------------------------- the whole check

  datatype Summary = Summary(missing: seq<FileName>, files: seq<Artifact>, aliasFallbackCount: nat, issues: seq<Issue>,
                             performed: bool, ok: bool)

  function MissingOf(disk: Disk, required: seq<FileName>, n: nat): seq<FileName>
    requires n <= |required|
  {
    if n == 0 then []
    else if Resolve(disk, required[n - 1]).None? then MissingOf(disk, required, n - 1) + [required[n - 1]]
    else MissingOf(disk, required, n - 1)
  }

  function FoundOf(disk: Disk, required: seq<FileName>, n: nat): seq<Artifact>
    requires n <= |required|
  {
    if n == 0 then []
    else
      var r := Resolve(disk, required[n - 1]);
      if r.None? then FoundOf(disk, required, n - 1) else FoundOf(disk, required, n - 1) + [Artifact(required[n - 1], r.value)]
  }

  function AliasCount(files: seq<Artifact>, n: nat): nat
    requires n <= |files|
  {
    if n == 0 then 0 else AliasCount(files, n - 1) + (if UsedAlias(files[n - 1]) then 1 else 0)
  }

  lemma {:induction false} AliasCountSnoc(files: seq<Artifact>, a: Artifact, n: nat)
    requires n <= |files|
    ensures AliasCount(files + [a], n) == AliasCount(files, n)
  {
    if n > 0 { AliasCountSnoc(files, a, n - 1); }
  }

  method CheckReleaseDrillArtifacts(w: World, disk: Disk, strict: bool) returns (summary: Summary)
    ensures var n := |Required()|;
      && summary.missing == MissingOf(disk, Required(), n)
      && summary.files == FoundOf(disk, Required(), n)
      && summary.aliasFallbackCount == AliasCount(summary.files, |summary.files|)
      && summary.performed == (strict && summary.missing == [])
      && summary.issues == (if summary.performed then StrictIssues(w, disk) else [])
      && summary.ok == (summary.missing == [] && summary.issues == [])
  {
    hide Required, Resolve, StrictIssues;
    var required := Required();
    var missing: seq<FileName>, files: seq<Artifact>, aliasFallbackCount := [], [], 0;
    for i := 0 to |required|
      invariant missing == MissingOf(disk, required, i)
      invariant files == FoundOf(disk, required, i)
      invariant aliasFallbackCount == AliasCount(files, |files|)
    {
      var actual := ResolveRequiredArtifact(disk, required[i]);
      if actual.None? {
        missing := missing + [required[i]];
      } else {
        var artifact := Artifact(required[i], actual.value);
        AliasCountSnoc(files, artifact, |files|);
        files := files + [artifact];
        if UsedAlias(artifact) { aliasFallbackCount := aliasFallbackCount + 1; }
      }
    }
    var issues: seq<Issue> := [];
    var performed := strict && missing == [];
    if performed { issues := ValidateStrict(w, disk); }
    summary := Summary(missing, files, aliasFallbackCount, issues, performed, missing == [] && issues == []);
  }

  // ---------------------------------------------------------------- what acceptance means

  ghost predicate DocumentsParse(w: World, disk: Disk) {
    && ReadJson(w, disk, Manifest).Some? && ReadJson(w, disk, Readiness).Some?
    && ReadJson(w, disk, PackJson).Some? && ReadJson(w, disk, DrillChecks).Some?
  }

  ghost predicate ManifestAgrees(manifest: Json) {
    Truthy(manifest) ==> IsText(Field(manifest, Release)) && IsText(Field(manifest, Status)) && ListsExpectedPaths(manifest)
  }

  ghost predicate ChecksAgree(w: World, disk: Disk, checks: Json) {
    Truthy(checks) ==>
      && IsText(Field(checks, Release)) && IsText(Field(checks, Profile)) && IsText(Field(checks, Mode)) && IsBool(Field(checks, Strict))
      && forall k | 0 <= k < 6 :: EmbeddedAgrees(w, disk, checks, Embedded()[k].0, Embedded()[k].1)
  }

  ghost predicate EmbeddedAgrees(w: World, disk: Disk, checks: Json, key: Key, file: FileName) {
    ReadJson(w, disk, file).Some?
    && (Truthy(ReadJson(w, disk, file).value) ==> Field(checks, key) == Some(ReadJson(w, disk, file).value))
  }

  predicate Fits(release: string, r: string) { release == "" || release == r }

  /** All releases that are named at all are the same. */
  ghost predicate OneRelease(a: string, b: string, c: string, d: string) {
    exists r :: Fits(a, r) && Fits(b, r) && Fits(c, r) && Fits(d, r)
  }

  lemma NoClash(readiness: string, pack: string, manifest: string, checks: string)
    ensures ReleaseIssues(readiness, pack, manifest, checks) == [] <==> OneRelease(readiness, pack, manifest, checks)
  {
    if ReleaseIssues(readiness, pack, manifest, checks) == [] {
      var r := if readiness != "" then readiness else if pack != "" then pack else if manifest != "" then manifest else checks;
      assert Fits(readiness, r) && Fits(pack, r) && Fits(manifest, r) && Fits(checks, r);
    }
  }

  ghost predicate TextConfirms(disk: Disk, f: FileName, phrase: string) {
    ReadText(disk, f).Some? && Confirms(ReadText(disk, f).value, phrase)
  }

  ghost predicate Agreement(w: World, disk: Disk) {
    var manifest, readiness := Document(w, disk, Manifest), Document(w, disk, Readiness);
    var pack, checks := Document(w, disk, PackJson), Document(w, disk, DrillChecks);
    && DocumentsParse(w, disk)
    && ManifestAgrees(manifest)
    && ChecksAgree(w, disk, checks)
    && OneRelease(ReleaseOf(readiness), ReleaseOf(pack), ReleaseOf(manifest), ReleaseOf(checks))
    && TextConfirms(disk, ManifestValidation, ManifestPhrase())
    && TextConfirms(disk, AoGateValidation, GatePhrase())
  }

  lemma {:induction false} NoEmbeddedIssues(w: World, disk: Disk, checks: Json, entries: seq<(Key, FileName)>, n: nat)
    requires n <= |entries|
    ensures EmbeddedIssues(w, disk, checks, entries, n) == [] <==>
      forall k | 0 <= k < n :: EmbeddedAgrees(w, disk, checks, entries[k].0, entries[k].1)
  {
    hide EmbeddedIssue, EmbeddedAgrees;
    if n > 0 {
      NoEmbeddedIssues(w, disk, checks, entries, n - 1);
      NoEmbeddedIssue(w, disk, checks, entries[n - 1].0, entries[n - 1].1);
    }
  }

  lemma NoEmbeddedIssue(w: World, disk: Disk, checks: Json, key: Key, file: FileName)
    ensures EmbeddedIssue(w, disk, checks, key, file) == [] <==> EmbeddedAgrees(w, disk, checks, key, file)
  {
    hide ReadJson, Field, Truthy;
  }

  lemma ManifestFieldsExact(manifest: Json)
    ensures ManifestFieldIssues(manifest) == [] <==> ManifestAgrees(manifest)
  {
    hide ManifestPathIssues, ListsExpectedPaths, IsText, Field;
    PathCheckExact(manifest);
    assert Wrapped(ManifestPathIssues(manifest)) == [] <==> ManifestPathIssues(manifest) == [];
  }

  /** The strict check finds nothing exactly when the directory agrees with itself. */
  lemma StrictExact(w: World, disk: Disk)
    ensures StrictIssues(w, disk) == [] <==> Agreement(w, disk)
  {
    hide ManifestFieldIssues, ManifestAgrees, EmbeddedIssues, EmbeddedAgrees, Embedded, Confirms, ReleaseOf, ReadJson, ReadText, IsText, Field;
    hide ReleaseIssues, OneRelease, ManifestPhrase, GatePhrase;
    NoClash(ReleaseOf(Document(w, disk, Readiness)), ReleaseOf(Document(w, disk, PackJson)),
            ReleaseOf(Document(w, disk, Manifest)), ReleaseOf(Document(w, disk, DrillChecks)));
    var checks := Document(w, disk, DrillChecks);
    ManifestFieldsExact(Document(w, disk, Manifest));
    NoEmbeddedIssues(w, disk, checks, Embedded(), 6);
  }

  lemma {:induction false} NothingMissingOf(disk: Disk, required: seq<FileName>, n: nat)
    requires n <= |required|
    ensures MissingOf(disk, required, n) == [] <==> forall k | 0 <= k < n :: Resolve(disk, required[k]).Some?
  {
    hide Resolve;
    if n > 0 { NothingMissingOf(disk, required, n - 1); }
  }

  /** When manifest and embedded check results are objects, acceptance means one release throughout. */
  lemma AcceptedRelease(w: World, disk: Disk)
    requires StrictIssues(w, disk) == []
    requires Document(w, disk, Manifest).Obj? && Document(w, disk, DrillChecks).Obj?
    ensures var r := ReleaseOf(Document(w, disk, Manifest));
      && r != "" && ReleaseOf(Document(w, disk, DrillChecks)) == r
      && Fits(ReleaseOf(Document(w, disk, PackJson)), r) && Fits(ReleaseOf(Document(w, disk, Readiness)), r)
  {
    hide Document, TextConfirms, ListsExpectedPaths, EmbeddedAgrees, Embedded, StrictIssues, TextOr, Field, IsText, DocumentsParse;
    hide ManifestPhrase, GatePhrase;
    StrictExact(w, disk);
  }

  lemma SameReading(w: World, disk: Disk, after: Disk, f: FileName)
    requires Resolve(after, f) == Resolve(disk, f)
    requires forall g | g in disk && g != DrillChecks :: g in after && after[g] == disk[g]
    requires Resolve(disk, f).Some? && Resolve(disk, f).value != DrillChecks
    ensures ReadText(after, f) == ReadText(disk, f) && ReadJson(w, after, f) == ReadJson(w, disk, f)
      && Document(w, after, f) == Document(w, disk, f)
  {
    hide Resolve;
  }

  /** A document that is the JSON value `null` is not compared with anything: overwriting the embedded check results
      of any accepted directory with `null` leaves it accepted. */
  lemma NullChecksAccepted(w: World, disk: Disk, text: string)
    requires StrictIssues(w, disk) == [] && w.parse(text) == Some(Null)
    ensures StrictIssues(w, disk[DrillChecks := text]) == []
  {
    var after := disk[DrillChecks := text];
    StrictExact(w, disk);
    StrictExact(w, after);
    NullAgreement(w, disk, after, text);
  }

  lemma NullAgreement(w: World, disk: Disk, after: Disk, text: string)
    requires after == disk[DrillChecks := text] && w.parse(text) == Some(Null) && Agreement(w, disk)
    ensures Agreement(w, after)
  {
    hide ManifestAgrees, EmbeddedAgrees, Embedded, IsText, Confirms, ReleaseOf, Candidates, ManifestPhrase, GatePhrase;
    ReadableFiles(w, disk);
    SameReading(w, disk, after, Manifest);
    SameReading(w, disk, after, Readiness);
    SameReading(w, disk, after, PackJson);
    SameReading(w, disk, after, ManifestValidation);
    SameReading(w, disk, after, AoGateValidation);
    NullRelease();
    assert Document(w, after, DrillChecks) == Null;
  }

  lemma ReadableFiles(w: World, disk: Disk)
    requires Agreement(w, disk)
    ensures forall f | f in {Manifest, Readiness, PackJson, ManifestValidation, AoGateValidation} :: Resolve(disk, f) == Some(f)
  {
    hide ManifestAgrees, ChecksAgree, OneRelease, Confirms, ManifestPhrase, GatePhrase;
    forall f | f in {Manifest, Readiness, PackJson, ManifestValidation, AoGateValidation} ensures Resolve(disk, f) == Some(f) {
      assert ReadText(disk, f).Some?;
    }
  }

  lemma NullRelease()
    ensures ReleaseOf(Null) == ""
  {
  }
}
