/** The release drill manifest: building it, validating its shape, and checking the list of paths in it. */
module DrillManifest {
  import opened Numbers
  import opened Strings
  import opened Sorting
  import opened Documents
  import opened DrillFiles

  datatype BuildError = MissingArtifacts(files: seq<FileName>) | InvalidJson(file: FileName) | NoRelease | NoStatus
  datatype Result<+T> = Built(value: T) | Failed(error: BuildError)

  function Same<T>(): T -> T { (x: T) => x }

  // ---------------------------------------------------------------- building the manifest

  function ReadArtifact(w: World, f: FileName, content: string): Json {
    Obj(map[Path := Str(NameOf(f)), SizeBytes := Whole(w.byteLength(content)), Sha256 := Str(w.sha256Hex(content))])
  }

  /** Those of the first `n` files that are not on the disk. */
  function MissingFiles(files: seq<FileName>, n: nat, disk: Disk): seq<FileName>
    requires n <= |files|
  {
    if n == 0 then []
    else if files[n - 1] in disk then MissingFiles(files, n - 1, disk)
    else MissingFiles(files, n - 1, disk) + [files[n - 1]]
  }

  lemma {:induction false} NothingMissing(files: seq<FileName>, n: nat, disk: Disk)
    requires n <= |files|
    ensures MissingFiles(files, n, disk) == [] <==> forall k | 0 <= k < n :: files[k] in disk
  {
    if n > 0 { NothingMissing(files, n - 1, disk); }
  }

  function DeriveText(readiness: Json, pack: Json, key: Key): (t: string)
    ensures t != "" ==> IsText(Some(Str(t)))
  {
    var own := TextOr(Field(readiness, key));
    TextOrTrimmed(Field(readiness, key));
    TextOrTrimmed(Field(pack, key));
    if own != "" then own else TextOr(Field(pack, key))
  }

  function ManifestDocument(w: World, disk: Disk, dir: string, now: string, release: string, status: string): Json
    requires forall f | f in Manifested() :: f in disk
  {
    Obj(map[CreatedAt := Str(now), DrillDir := Str(dir), Release := Str(release), Status := Str(status),
            Artifacts := Arr(ReadArtifacts(w, disk))])
  }

  /** What the manifest says of a complete directory with readable release documents. */
  function ManifestOf(w: World, disk: Disk, dir: string, now: string): Result<Json>
    requires forall f | f in Manifested() :: f in disk
  {
    var readiness, pack := w.parse(disk[Readiness]), w.parse(disk[PackJson]);
    if readiness.None? then Failed(InvalidJson(Readiness))
    else if pack.None? then Failed(InvalidJson(PackJson))
    else
      var release, status := DeriveText(readiness.value, pack.value, Release), DeriveText(readiness.value, pack.value, Status);
      if release == "" then Failed(NoRelease)
      else if status == "" then Failed(NoStatus)
      else Built(ManifestDocument(w, disk, dir, now, release, status))
  }

  method EnsureRequiredArtifacts(disk: Disk) returns (missing: seq<FileName>)
    ensures missing == MissingFiles(Manifested(), 13, disk)
  {
    hide Manifested;
    var required := Manifested();
    missing := [];
    for i := 0 to |required|
      invariant missing == MissingFiles(required, i, disk)
    {
      if required[i] !in disk { missing := missing + [required[i]]; }
    }
  }

  function ReadArtifacts(w: World, disk: Disk): (r: seq<Json>)
    requires forall f | f in Manifested() :: f in disk
    ensures |r| == |Manifested()| && forall i | 0 <= i < |r| :: r[i] == ReadArtifact(w, Manifested()[i], disk[Manifested()[i]])
  {
    seq(|Manifested()|, i requires 0 <= i < |Manifested()| => ReadArtifact(w, Manifested()[i], disk[Manifested()[i]]))
  }

  /** The entry names the file and has its size and its hash. */
  ghost predicate Describes(w: World, entry: Json, f: FileName, content: string) {
    && Field(entry, Path) == Some(Str(NameOf(f)))
    && Field(entry, SizeBytes) == Some(Whole(w.byteLength(content)))
    && Field(entry, Sha256) == Some(Str(w.sha256Hex(content)))
  }

  /** The document lists the manifested files in order, each with the name, size and hash it has on the disk. */
  ghost predicate Records(w: World, disk: Disk, manifest: Json) {
    var entries, files := Elements(Field(manifest, Artifacts)), Manifested();
    && |entries| == |files|
    && forall i | 0 <= i < |files| :: files[i] in disk && Describes(w, entries[i], files[i], disk[files[i]])
  }

  /** The first text among a field of the readiness report and the same field of the release evidence pack. */
  ghost predicate IsDerived(readiness: Json, pack: Json, key: Key, t: string) {
    if IsText(Field(readiness, key)) then t == Trim(Field(readiness, key).value.s)
    else IsText(Field(pack, key)) && t == Trim(Field(pack, key).value.s)
  }

  /** A manifest records the disk it was built from, with the release and the status of the release documents; it is built
      whenever these documents parse and name both. */
  lemma ManifestRecords(w: World, disk: Disk, dir: string, now: string)
    requires forall f | f in Manifested() :: f in disk
    ensures var r := ManifestOf(w, disk, dir, now); var readiness, pack := w.parse(disk[Readiness]), w.parse(disk[PackJson]);
      && (r.Built? <==> readiness.Some? && pack.Some? && forall key | key in {Release, Status} ::
                          IsText(Field(readiness.value, key)) || IsText(Field(pack.value, key)))
      && (r.Built? ==>
            && Records(w, disk, r.value)
            && Field(r.value, CreatedAt) == Some(Str(now)) && Field(r.value, DrillDir) == Some(Str(dir))
            && forall key | key in {Release, Status} :: Field(r.value, key).Some? && Field(r.value, key).value.Str?
                 && IsDerived(readiness.value, pack.value, key, Field(r.value, key).value.s))
  {
    hide Manifested, NameOf, Trim, IsText, ReadArtifacts, Describes, IsDerived, ManifestDocument, DeriveText, Records;
    var readiness, pack := w.parse(disk[Readiness]), w.parse(disk[PackJson]);
    if readiness.Some? && pack.Some? {
      Derived(readiness.value, pack.value, Release);
      Derived(readiness.value, pack.value, Status);
      DocumentRecords(w, disk, dir, now, DeriveText(readiness.value, pack.value, Release), DeriveText(readiness.value, pack.value, Status));
    }
  }

  lemma DocumentRecords(w: World, disk: Disk, dir: string, now: string, release: string, status: string)
    requires forall f | f in Manifested() :: f in disk
    ensures var d := ManifestDocument(w, disk, dir, now, release, status);
      && Records(w, disk, d) && Field(d, CreatedAt) == Some(Str(now)) && Field(d, DrillDir) == Some(Str(dir))
      && Field(d, Release) == Some(Str(release)) && Field(d, Status) == Some(Str(status))
  {
    hide Manifested, NameOf, ReadArtifacts, Describes;
    ArtifactsDescribe(w, disk);
  }

  lemma Derived(readiness: Json, pack: Json, key: Key)
    ensures DeriveText(readiness, pack, key) != "" <==> IsText(Field(readiness, key)) || IsText(Field(pack, key))
    ensures DeriveText(readiness, pack, key) != "" ==> IsDerived(readiness, pack, key, DeriveText(readiness, pack, key))
  {
    hide Trim, NonBlank;
  }

  lemma ArtifactsDescribe(w: World, disk: Disk)
    requires forall f | f in Manifested() :: f in disk
    ensures forall i | 0 <= i < |Manifested()| :: var f := Manifested()[i]; f in disk && Describes(w, ReadArtifacts(w, disk)[i], f, disk[f])
  {
    hide Manifested, NameOf;
  }

  /** One manifest cannot record two disks on which some manifested file has different hashes or sizes. */
  lemma SameManifestSameFiles(w: World, a: Disk, b: Disk, manifest: Json, f: FileName)
    requires Records(w, a, manifest) && Records(w, b, manifest) && f in Manifested()
    ensures f in a && f in b && w.sha256Hex(a[f]) == w.sha256Hex(b[f]) && w.byteLength(a[f]) == w.byteLength(b[f])
  {
    hide Manifested, NameOf;
    var i :| 0 <= i < |Manifested()| && Manifested()[i] == f;
  }

  method BuildManifest(w: World, disk: Disk, dir: string, now: string) returns (r: Result<Json>)
    ensures (exists f | f in Manifested() :: f !in disk) ==> r.Failed?
    ensures (forall f | f in Manifested() :: f in disk) ==> r == ManifestOf(w, disk, dir, now)
    ensures r.Built? ==> Records(w, disk, r.value)
  {
    hide ReadArtifact, DeriveText, Manifested, Records;
    var missing := EnsureRequiredArtifacts(disk);
    NothingMissing(Manifested(), 13, disk);
    if missing != [] {
      return Failed(MissingArtifacts(missing));
    }
    var required := Manifested();
    var artifacts: seq<Json> := [];
    for i := 0 to |required|
      invariant artifacts == ReadArtifacts(w, disk)[..i]
    {
      artifacts := artifacts + [ReadArtifact(w, required[i], disk[required[i]])];
    }
    assert artifacts == ReadArtifacts(w, disk);
    var readiness, pack := w.parse(disk[Readiness]), w.parse(disk[PackJson]);
    if readiness.None? { return Failed(InvalidJson(Readiness)); }
    if pack.None? { return Failed(InvalidJson(PackJson)); }
    var release, status := DeriveText(readiness.value, pack.value, Release), DeriveText(readiness.value, pack.value, Status);
    if release == "" { return Failed(NoRelease); }
    if status == "" { return Failed(NoStatus); }
    ManifestRecords(w, disk, dir, now);
    r := Built(Obj(map[CreatedAt := Str(now), DrillDir := Str(dir), Release := Str(release), Status := Str(status),
                       Artifacts := Arr(artifacts)]));
  }

  // ---------------------------------------------------------------- the manifest validator

  predicate IsCount(v: Option<Json>) { v.Some? && IsIntegerLike(v.value) }
  predicate IsString(v: Option<Json>) { v.Some? && v.value.Str? }
  predicate IsHexDigest(s: string) { |s| == 64 && forall i | 0 <= i < 64 :: IsHex(s[i]) }
  predicate IsLowerHexDigest(s: string) { |s| == 64 && forall i | 0 <= i < 64 :: IsLowerHex(s[i]) }

  datatype Problem = NotAnObject | PathNotString | PathNotUnique | SizeNotCount | DigestNotString | DigestNotHex | DigestNotLowerCase
  datatype ManifestIssue = ManifestNotAnObject | NoCreatedAt | NoDrillDir | NoArtifactList | Entry(index: nat, problem: Problem)

  function PathProblem(artifact: Json, strict: bool, seen: set<string>): seq<Problem> {
    if !IsString(Field(artifact, Path)) then [PathNotString]
    else if strict && Field(artifact, Path).value.s in seen then [PathNotUnique]
    else []
  }

  function DigestProblem(artifact: Json, strict: bool): seq<Problem> {
    var v := Field(artifact, Sha256);
    if !IsString(v) then [DigestNotString]
    else if !IsHexDigest(v.value.s) then [DigestNotHex]
    else if strict && !IsLowerHexDigest(v.value.s) then [DigestNotLowerCase]
    else []
  }

  function Problems(artifact: Json, strict: bool, seen: set<string>): seq<Problem> {
    if !artifact.Obj? then [NotAnObject]
    else PathProblem(artifact, strict, seen)
         + (if IsCount(Field(artifact, SizeBytes)) then [] else [SizeNotCount])
         + DigestProblem(artifact, strict)
  }

  function At(index: nat, problems: seq<Problem>): (r: seq<ManifestIssue>)
    ensures |r| == |problems|
  {
    seq(|problems|, k requires 0 <= k < |problems| => Entry(index, problems[k]))
  }

  function Noted(artifact: Json, strict: bool, seen: set<string>): set<string> {
    if strict && IsString(Field(artifact, Path)) then seen + {Field(artifact, Path).value.s} else seen
  }

  /** The paths the loop has noted after `n` entries. */
  function SeenPaths(artifacts: seq<Json>, n: nat, strict: bool): set<string>
    requires n <= |artifacts|
  {
    if n == 0 then {} else Noted(artifacts[n - 1], strict, SeenPaths(artifacts, n - 1, strict))
  }

  /** The complaints after `n` entries, when `before` were there before the loop. */
  function ListIssues(before: seq<ManifestIssue>, artifacts: seq<Json>, n: nat, strict: bool): seq<ManifestIssue>
    requires n <= |artifacts|
  {
    if n == 0 then before
    else ListIssues(before, artifacts, n - 1, strict)
         + At(n - 1, Problems(artifacts[n - 1], strict, SeenPaths(artifacts, n - 1, strict)))
  }

  function HeadIssues(manifest: Json): seq<ManifestIssue> {
    (if IsString(Field(manifest, CreatedAt)) then [] else [NoCreatedAt])
    + (if IsString(Field(manifest, DrillDir)) then [] else [NoDrillDir])
  }

  predicate IsNonEmptyArray(v: Option<Json>) { v.Some? && v.value.Arr? && v.value.elems != [] }

  function ManifestIssues(manifest: Json, strict: bool): seq<ManifestIssue> {
    if !manifest.Obj? then [ManifestNotAnObject]
    else if !IsNonEmptyArray(Field(manifest, Artifacts)) then HeadIssues(manifest) + [NoArtifactList]
    else
      var artifacts := Field(manifest, Artifacts).value.elems;
      ListIssues(HeadIssues(manifest), artifacts, |artifacts|, strict)
  }

  method ValidateManifest(manifest: Json, strict: bool) returns (issues: seq<ManifestIssue>)
    ensures issues == ManifestIssues(manifest, strict)
  {
    hide IsString, Field, Problems, Noted;
    issues := [];
    if !manifest.Obj? { return [ManifestNotAnObject]; }
    if !IsString(Field(manifest, CreatedAt)) { issues := issues + [NoCreatedAt]; }
    if !IsString(Field(manifest, DrillDir)) { issues := issues + [NoDrillDir]; }
    if !IsNonEmptyArray(Field(manifest, Artifacts)) {
      return issues + [NoArtifactList];
    }
    var artifacts := Field(manifest, Artifacts).value.elems;
    var seenPaths: set<string> := {};
    for i := 0 to |artifacts|
      invariant issues == ListIssues(HeadIssues(manifest), artifacts, i, strict)
      invariant seenPaths == SeenPaths(artifacts, i, strict)
    {
      var problems, seen := ValidateArtifact(artifacts[i], strict, seenPaths);
      issues, seenPaths := issues + At(i, problems), seen;
    }
  }

  /** One round of the loop over the manifest's entries. */
  method ValidateArtifact(artifact: Json, strict: bool, seenPaths: set<string>)
    returns (problems: seq<Problem>, seen: set<string>)
    ensures problems == Problems(artifact, strict, seenPaths)
    ensures seen == Noted(artifact, strict, seenPaths)
  {
    hide PathProblem, DigestProblem, IsCount, IsHexDigest, IsLowerHexDigest;
    problems, seen := [], seenPaths;
    if !artifact.Obj? { return [NotAnObject], seen; }
    problems, seen := NotePath(artifact, strict, seenPaths);
    if !IsCount(Field(artifact, SizeBytes)) { problems := problems + [SizeNotCount]; }
    var digest := CheckDigest(artifact, strict);
    problems := problems + digest;
  }

  method NotePath(artifact: Json, strict: bool, seenPaths: set<string>) returns (problems: seq<Problem>, seen: set<string>)
    ensures problems == PathProblem(artifact, strict, seenPaths) && seen == Noted(artifact, strict, seenPaths)
  {
    problems, seen := [], seenPaths;
    var path := Field(artifact, Path);
    if !IsString(path) { return [PathNotString], seen; }
    if strict {
      if path.value.s in seen { return [PathNotUnique], seen; }
      seen := seen + {path.value.s};
    }
  }

  method CheckDigest(artifact: Json, strict: bool) returns (problems: seq<Problem>)
    ensures problems == DigestProblem(artifact, strict)
  {
    hide IsHexDigest, IsLowerHexDigest;
    var digest := Field(artifact, Sha256);
    if !IsString(digest) { return [DigestNotString]; }
    if !IsHexDigest(digest.value.s) { return [DigestNotHex]; }
    if strict && !IsLowerHexDigest(digest.value.s) { return [DigestNotLowerCase]; }
    return [];
  }

  predicate ArtifactOk(artifact: Json, strict: bool) {
    && artifact.Obj? && IsString(Field(artifact, Path)) && IsCount(Field(artifact, SizeBytes)) && IsString(Field(artifact, Sha256))
    && var sha := Field(artifact, Sha256).value.s; if strict then IsLowerHexDigest(sha) else IsHexDigest(sha)
  }

  /** What the validator accepts. */
  ghost predicate WellFormedManifest(manifest: Json, strict: bool) {
    && IsString(Field(manifest, CreatedAt)) && IsString(Field(manifest, DrillDir)) && IsNonEmptyArray(Field(manifest, Artifacts))
    && var artifacts := Field(manifest, Artifacts).value.elems;
       ListOk(artifacts, |artifacts|, strict)
  }

  lemma ManifestValidIff(manifest: Json, strict: bool)
    ensures ManifestIssues(manifest, strict) == [] <==> WellFormedManifest(manifest, strict)
  {
    if IsNonEmptyArray(Field(manifest, Artifacts)) {
      var artifacts := Field(manifest, Artifacts).value.elems;
      ListValidIff(HeadIssues(manifest), artifacts, |artifacts|, strict);
    }
  }

  /** The first `n` entries are well formed and, in strict mode, have different paths. */
  ghost predicate ListOk(artifacts: seq<Json>, n: nat, strict: bool)
    requires n <= |artifacts|
  {
    && (forall k | 0 <= k < n :: ArtifactOk(artifacts[k], strict))
    && (strict ==> forall j, k | 0 <= j < k < n :: Field(artifacts[j], Path) != Field(artifacts[k], Path))
  }

  lemma {:induction false} SeenPathsAre(artifacts: seq<Json>, n: nat, s: string)
    requires n <= |artifacts|
    ensures s in SeenPaths(artifacts, n, true) <==> exists k | 0 <= k < n :: Field(artifacts[k], Path) == Some(Str(s))
  {
    hide Field;
    if n > 0 { SeenPathsAre(artifacts, n - 1, s); }
  }

  lemma {:induction false} ListValidIff(before: seq<ManifestIssue>, artifacts: seq<Json>, n: nat, strict: bool)
    requires n <= |artifacts|
    ensures ListIssues(before, artifacts, n, strict) == [] <==> before == [] && ListOk(artifacts, n, strict)
  {
    hide Problems, IsCount, IsHexDigest, IsLowerHexDigest, Field;
    if n > 0 {
      var last := artifacts[n - 1];
      ListValidIff(before, artifacts, n - 1, strict);
      ArtifactValidIff(last, strict, SeenPaths(artifacts, n - 1, strict));
      if strict && ArtifactOk(last, strict) { SeenPathsAre(artifacts, n - 1, Field(last, Path).value.s); }
    }
  }

  lemma ArtifactValidIff(artifact: Json, strict: bool, seen: set<string>)
    ensures Problems(artifact, strict, seen) == [] <==>
      ArtifactOk(artifact, strict) && (strict ==> Field(artifact, Path).value.s !in seen)
  {
    hide IsCount;
    assert forall s: string :: IsLowerHexDigest(s) ==> IsHexDigest(s);
  }

  // ---------------------------------------------------------------- the path list

  /** The trimmed path of an entry, or the empty string when it has none. */
  function PathText(artifact: Json): string { TextOr(Field(artifact, Path)) }

  function Without(paths: seq<string>): string -> bool { (p: string) => p !in paths }

  /** The paths of the first `n` entries. */
  function EntryPaths(artifacts: seq<Json>, n: nat): seq<string>
    requires n <= |artifacts|
  {
    if n == 0 then []
    else if PathText(artifacts[n - 1]) == "" then EntryPaths(artifacts, n - 1)
    else EntryPaths(artifacts, n - 1) + [PathText(artifacts[n - 1])]
  }

  /** Those of the first `n` paths that occurred earlier in the list. */
  function Repeats(paths: seq<string>, n: nat): seq<string>
    requires n <= |paths|
  {
    if n == 0 then []
    else if exists k | 0 <= k < n - 1 :: paths[k] == paths[n - 1] then Repeats(paths, n - 1) + [paths[n - 1]]
    else Repeats(paths, n - 1)
  }

  datatype PathIssue =
    | NoArtifacts | EntryWithoutPath | DuplicatePaths(paths: seq<string>) | MissingPaths(paths: seq<string>)
    | UnexpectedPaths(paths: seq<string>) | WrongOrder

  function ListedPathIssues(paths: seq<string>, expected: seq<string>): seq<PathIssue> {
    var duplicates := Repeats(paths, |paths|);
    var missing, unexpected := FilterMap(expected, Without(paths), Same()), FilterMap(paths, Without(expected), Same());
    (if duplicates == [] then [] else [DuplicatePaths(duplicates)])
    + (if missing == [] then [] else [MissingPaths(missing)])
    + (if unexpected == [] then [] else [UnexpectedPaths(unexpected)])
    + (if missing == [] && unexpected == [] && |paths| == |expected| && paths != expected then [WrongOrder] else [])
  }

  function EntryIssues(artifacts: seq<Json>, n: nat): seq<PathIssue>
    requires n <= |artifacts|
  {
    if n == 0 then []
    else if PathText(artifacts[n - 1]) == "" then EntryIssues(artifacts, n - 1) + [EntryWithoutPath]
    else EntryIssues(artifacts, n - 1)
  }

  function ManifestPathIssues(manifest: Json): seq<PathIssue> {
    if !IsNonEmptyArray(Field(manifest, Artifacts)) then [NoArtifacts]
    else
      var artifacts := Field(manifest, Artifacts).value.elems;
      EntryIssues(artifacts, |artifacts|) + ListedPathIssues(EntryPaths(artifacts, |artifacts|), ExpectedPaths())
  }

  method ValidateManifestArtifacts(manifest: Json) returns (issues: seq<PathIssue>)
    ensures issues == ManifestPathIssues(manifest)
  {
    issues := [];
    if !IsNonEmptyArray(Field(manifest, Artifacts)) {
      return [NoArtifacts];
    }
    var artifacts := Field(manifest, Artifacts).value.elems;
    var manifestPaths: seq<string> := [];
    for i := 0 to |artifacts|
      invariant issues == EntryIssues(artifacts, i)
      invariant manifestPaths == EntryPaths(artifacts, i)
    {
      hide PathText;
      var path := PathText(artifacts[i]);
      if path == "" {
        issues := issues + [EntryWithoutPath];
      } else {
        manifestPaths := manifestPaths + [path];
      }
    }
    var listed := CheckPathList(manifestPaths, ExpectedPaths());
    issues := issues + listed;
  }

  method CheckPathList(manifestPaths: seq<string>, expectedPaths: seq<string>) returns (issues: seq<PathIssue>)
    ensures issues == ListedPathIssues(manifestPaths, expectedPaths)
  {
    hide FilterMap;
    issues := [];
    var duplicates: seq<string> := [];
    var seenPaths: set<string> := {};
    for i := 0 to |manifestPaths|
      invariant duplicates == Repeats(manifestPaths, i)
      invariant forall p :: p in seenPaths <==> exists k | 0 <= k < i :: manifestPaths[k] == p
    {
      if manifestPaths[i] in seenPaths { duplicates := duplicates + [manifestPaths[i]]; }
      seenPaths := seenPaths + {manifestPaths[i]};
    }
    var missingPaths := FilterMap(expectedPaths, (p: string) => p !in seenPaths, Same());
    var unexpectedPaths := FilterMap(manifestPaths, Without(expectedPaths), Same());
    SameFilter(expectedPaths, (p: string) => p !in seenPaths, Without(manifestPaths));
    if duplicates != [] { issues := issues + [DuplicatePaths(duplicates)]; }
    if missingPaths != [] { issues := issues + [MissingPaths(missingPaths)]; }
    if unexpectedPaths != [] { issues := issues + [UnexpectedPaths(unexpectedPaths)]; }
    if missingPaths == [] && unexpectedPaths == [] && |manifestPaths| == |expectedPaths| {
      var orderMatches := forall i | 0 <= i < |expectedPaths| :: expectedPaths[i] == manifestPaths[i];
      if !orderMatches { issues := issues + [WrongOrder]; }
    }
  }

  lemma {:induction false} SameFilter(s: seq<string>, p: string -> bool, q: string -> bool)
    requires forall x | x in s :: p(x) == q(x)
    ensures FilterMap(s, p, Same()) == FilterMap(s, q, Same())
  {
    if s != [] { SameFilter(s[1..], p, q); }
  }

  lemma {:induction false} NothingFiltered(s: seq<string>, other: seq<string>)
    ensures FilterMap(s, Without(other), Same()) == [] <==> forall p | p in s :: p in other
  {
    if s != [] {
      NothingFiltered(s[1..], other);
      assert s == [s[0]] + s[1..];
    }
  }

  lemma {:induction false} NoRepeats(paths: seq<string>, n: nat)
    requires n <= |paths|
    ensures Repeats(paths, n) == [] <==> forall j, k | 0 <= j < k < n :: paths[j] != paths[k]
  {
    if n > 0 { NoRepeats(paths, n - 1); }
  }

  /** Four separate complaints add up to list equality: with no repeats, nothing missing and nothing unexpected
      the two lists must be equally long, so the order is compared. */
  lemma PathListExact(paths: seq<string>, expected: seq<string>)
    requires NoDuplicates(expected)
    ensures ListedPathIssues(paths, expected) == [] <==> paths == expected
  {
    NothingFiltered(expected, paths);
    NothingFiltered(paths, expected);
    NoRepeats(paths, |paths|);
    if ListedPathIssues(paths, expected) == [] {
      SameElements(paths, expected);
      assert |paths| == |multiset(paths)| == |multiset(expected)| == |expected|;
    }
  }

  lemma {:induction false} NoEntryIssues(artifacts: seq<Json>, n: nat)
    requires n <= |artifacts|
    ensures EntryIssues(artifacts, n) == [] <==> forall k | 0 <= k < n :: PathText(artifacts[k]) != ""
  {
    hide PathText;
    if n > 0 { NoEntryIssues(artifacts, n - 1); }
  }

  lemma {:induction false} PathsInOrder(artifacts: seq<Json>, n: nat)
    requires n <= |artifacts| && forall k | 0 <= k < n :: PathText(artifacts[k]) != ""
    ensures |EntryPaths(artifacts, n)| == n
    ensures forall k | 0 <= k < n :: EntryPaths(artifacts, n)[k] == PathText(artifacts[k])
  {
    hide PathText;
    if n > 0 { PathsInOrder(artifacts, n - 1); }
  }

  /** The trimmed paths are the expected list, entry by entry. */
  ghost predicate ListsExactly(artifacts: seq<Json>, expected: seq<string>) {
    |artifacts| == |expected| && forall k | 0 <= k < |artifacts| :: PathText(artifacts[k]) == expected[k] != ""
  }

  ghost predicate ListsExpectedPaths(manifest: Json) {
    IsNonEmptyArray(Field(manifest, Artifacts)) && ListsExactly(Field(manifest, Artifacts).value.elems, ExpectedPaths())
  }

  lemma EntriesExact(artifacts: seq<Json>, expected: seq<string>)
    requires NoDuplicates(expected) && forall p | p in expected :: p != ""
    ensures var n := |artifacts|;
      EntryIssues(artifacts, n) + ListedPathIssues(EntryPaths(artifacts, n), expected) == [] <==> ListsExactly(artifacts, expected)
  {
    hide PathText, ListedPathIssues, EntryPaths, EntryIssues;
    NoEntryIssues(artifacts, |artifacts|);
    PathListExact(EntryPaths(artifacts, |artifacts|), expected);
    if forall k | 0 <= k < |artifacts| :: PathText(artifacts[k]) != "" {
      PathsInOrder(artifacts, |artifacts|);
      if ListsExactly(artifacts, expected) { assert EntryPaths(artifacts, |artifacts|) == expected; }
    }
  }

  lemma PathCheckExact(manifest: Json)
    ensures ManifestPathIssues(manifest) == [] <==> ListsExpectedPaths(manifest)
  {
    hide ExpectedPaths;
    ExpectedPathsDistinct();
    if IsNonEmptyArray(Field(manifest, Artifacts)) {
      EntriesExact(Field(manifest, Artifacts).value.elems, ExpectedPaths());
    }
  }

  /** A manifest that was built passes the strict validator and the path check. */
  lemma BuiltManifestPasses(w: World, disk: Disk, dir: string, now: string)
    requires HexDigests(w) && (forall f | f in Manifested() :: f in disk) && ManifestOf(w, disk, dir, now).Built?
    ensures var m := ManifestOf(w, disk, dir, now).value;
      && ManifestIssues(m, true) == [] && ManifestPathIssues(m) == []
      && IsText(Field(m, Release)) && IsText(Field(m, Status))
  {
    hide ManifestIssues, ManifestPathIssues, Manifested, ReadArtifacts, DeriveText, ArtifactOk, Trim, NameOf, IsText;
    var m := ManifestOf(w, disk, dir, now).value;
    BuiltArtifacts(w, disk);
    ManifestValidIff(m, true);
    PathCheckExact(m);
  }

  lemma BuiltArtifacts(w: World, disk: Disk)
    requires HexDigests(w) && (forall f | f in Manifested() :: f in disk)
    ensures var artifacts := ReadArtifacts(w, disk);
      && ListsExactly(artifacts, ExpectedPaths())
      && ListOk(artifacts, |artifacts|, true)
  {
    hide NameOf, Manifested, ReadArtifact, ArtifactOk, PathText;
    var artifacts, names := ReadArtifacts(w, disk), ExpectedPaths();
    ExpectedPathsDistinct();
    forall i | 0 <= i < |artifacts|
      ensures ArtifactOk(artifacts[i], true) && PathText(artifacts[i]) == names[i] != "" && Field(artifacts[i], Path) == Some(Str(names[i]))
    {
      BuiltArtifact(w, Manifested()[i], disk[Manifested()[i]]);
      assert names[i] in names;
    }
  }

  lemma BuiltArtifact(w: World, f: FileName, content: string)
    requires HexDigests(w) && f in Manifested()
    ensures var a := ReadArtifact(w, f, content);
      ArtifactOk(a, true) && PathText(a) == NameOf(f) && Field(a, Path) == Some(Str(NameOf(f)))
  {
    hide NameOf, Manifested, TextOr, Trim, NonBlank, IsLowerHexDigest, IsCount;
    var sha := w.sha256Hex(content);
    assert IsLowerHexDigest(sha) by { DigestOfWorld(w, content); }
    SizeCounts(w.byteLength(content));
    NamesTrimmed(f);
    NamedPath(NameOf(f));
  }

  lemma DigestOfWorld(w: World, content: string)
    requires HexDigests(w)
    ensures IsLowerHexDigest(w.sha256Hex(content))
  {
  }

  lemma SizeCounts(size: Size)
    ensures IsCount(Some(Whole(size)))
  {
  }

  lemma NamedPath(name: string)
    requires NonBlank(name) && Trim(name) == name
    ensures TextOr(Some(Str(name))) == name
  {
    hide Trim;
  }

  // ---------------------------------------------------------------- the validator's report

  /** What the validator prints, when `describe` words its complaints. */
  function Report(filePath: string, issues: seq<ManifestIssue>, describe: ManifestIssue -> string): string {
    if issues == [] then ManifestPhrase() + ": " + filePath + "\n"
    else "in" + ManifestPhrase() + ":\n" + Dashed(issues, describe)
  }

  function Dashed(issues: seq<ManifestIssue>, describe: ManifestIssue -> string): string {
    if issues == [] then "" else "- " + describe(issues[0]) + "\n" + Dashed(issues[1..], describe)
  }

  /** The phrase that confirms a valid manifest. */
  function ManifestPhrase(): string { "valid release drill manifest" }

  /** `text.toLowerCase().includes('valid release drill manifest')` */
  ghost predicate ConfirmsManifest(text: string) { Includes(Lower(text), ManifestPhrase()) }

  lemma OccurrenceConfirms(text: string, i: nat)
    requires i + |ManifestPhrase()| <= |text|
    requires forall k | 0 <= k < |ManifestPhrase()| :: text[i + k] == ManifestPhrase()[k]
    ensures ConfirmsManifest(text)
  {
    var l := Lower(text);
    forall k | 0 <= k < |ManifestPhrase()| ensures l[i + k] == ManifestPhrase()[k] { LowerConfirmation(k); }
    assert l[i..i + |ManifestPhrase()|] == ManifestPhrase();
    assert OccursAt(l, ManifestPhrase(), i);
  }

  lemma LowerConfirmation(k: nat)
    requires k < |ManifestPhrase()|
    ensures LowerChar(ManifestPhrase()[k]) == ManifestPhrase()[k]
  {
  }

  /** The confirmation the artifact check and the ledger look for is in every report of the validator,
      also in the report that the manifest is invalid. */
  lemma EveryReportConfirms(filePath: string, issues: seq<ManifestIssue>, describe: ManifestIssue -> string)
    ensures ConfirmsManifest(Report(filePath, issues, describe))
  {
    hide Dashed;
    var text := Report(filePath, issues, describe);
    if issues == [] {
      OccurrenceConfirms(text, 0);
    } else {
      assert forall k | 0 <= k < |ManifestPhrase()| :: text[2 + k] == ManifestPhrase()[k];
      OccurrenceConfirms(text, 2);
    }
  }
}
