/** What the strict artifact check and the ledger say about a drill directory, said on the texts of its files. */
module DirectoryMeaning {
  import opened Numbers
  import opened Strings
  import opened Sorting
  import opened Documents
  import opened DrillFiles
  import M = DrillManifest
  import opened DrillCheck
  import L = DrillLedger

  /** The file is there under its name or, for the renamed ones, under the first older name that exists. */
  ghost predicate FoundAs(disk: Disk, f: FileName, name: FileName) {
    && name in disk
    && (|| name == f
        || (HasLegacyNames(f) && f !in disk && name == LegacyName(f, false))
        || (HasLegacyNames(f) && f !in disk && LegacyName(f, false) !in disk && name == LegacyName(f, true)))
  }

  ghost predicate HasText(disk: Disk, f: FileName, text: string) { exists name :: FoundAs(disk, f, name) && disk[name] == text }
  ghost predicate HasDocument(w: World, disk: Disk, f: FileName, doc: Json) { exists text :: HasText(disk, f, text) && w.parse(text) == Some(doc) }

  /** The values that count as no document. */
  ghost predicate Falsy(doc: Json) { doc == Null || doc == Bool(false) || doc == Str("") || (doc.Num? && doc.n.units == 0) }

  ghost predicate Named(doc: Json, key: Key) { exists t :: Reads(Field(doc, key), t) }

  /** The phrase stands somewhere in the text, whatever the case of its letters. */
  ghost predicate Contains(text: string, phrase: string) { exists i :: Stands(text, phrase, i) }

  ghost predicate Stands(text: string, phrase: string, i: int) {
    0 <= i <= |text| - |phrase| && forall k | 0 <= k < |phrase| :: LowerChar(text[i + k]) == phrase[k]
  }

  ghost predicate Confirmed(disk: Disk, f: FileName, phrase: string) {
    exists text :: HasText(disk, f, text) && (text == "" || Contains(text, phrase))
  }

  /** The manifest lists the thirteen files in their order. */
  ghost predicate ListsFiles(manifest: Json) {
    exists entries :: Field(manifest, Artifacts) == Some(Arr(entries)) && |entries| == 13
      && forall k | 0 <= k < 13 :: Reads(Field(entries[k], Path), NameOf(Manifested()[k]))
  }

  ghost predicate Embeds(w: World, disk: Disk, checks: Json, key: Key, f: FileName) {
    exists doc :: HasDocument(w, disk, f, doc) && (Falsy(doc) || Field(checks, key) == Some(doc))
  }

  ghost predicate EmbedsAll(w: World, disk: Disk, checks: Json) {
    && Embeds(w, disk, checks, LegacyCoreExtractionEvidence, LegacyCore) && Embeds(w, disk, checks, LegacyCryptoBoundaryEvidence, LegacyCrypto)
    && Embeds(w, disk, checks, Key.TemplateWorkerMapCoherence, WorkerMapCoherence) && Embeds(w, disk, checks, ForgetForwardConfig, ForgetForward)
    && Embeds(w, disk, checks, TemplateSignatureRefMap, SignatureRefMap) && Embeds(w, disk, checks, TemplateVariantMap, VariantMap)
  }

  ghost predicate SameNamed(a: Json, b: Json) {
    forall r, s :: Reads(Field(a, Release), r) && Reads(Field(b, Release), s) ==> r == s
  }

  ghost predicate OneReleaseNamed(a: Json, b: Json, c: Json, d: Json) {
    SameNamed(a, b) && SameNamed(a, c) && SameNamed(a, d) && SameNamed(b, c) && SameNamed(b, d) && SameNamed(c, d)
  }

  ghost predicate ManifestFine(manifest: Json) { Falsy(manifest) || (Named(manifest, Release) && Named(manifest, Status) && ListsFiles(manifest)) }

  ghost predicate ChecksFine(w: World, disk: Disk, checks: Json) {
    || Falsy(checks)
    || (&& Named(checks, Release) && Named(checks, Profile) && Named(checks, Mode)
        && (exists b :: Field(checks, Strict) == Some(Bool(b))) && EmbedsAll(w, disk, checks))
  }

  ghost predicate FourDocuments(w: World, disk: Disk, manifest: Json, readiness: Json, pack: Json, checks: Json) {
    && HasDocument(w, disk, Manifest, manifest) && HasDocument(w, disk, Readiness, readiness)
    && HasDocument(w, disk, PackJson, pack) && HasDocument(w, disk, DrillChecks, checks)
  }

  ghost predicate DocumentsCohere(w: World, disk: Disk, manifest: Json, readiness: Json, pack: Json, checks: Json) {
    && FourDocuments(w, disk, manifest, readiness, pack, checks)
    && ManifestFine(manifest) && ChecksFine(w, disk, checks) && OneReleaseNamed(readiness, pack, manifest, checks)
  }

  /** The directory agrees with itself. */
  ghost predicate Coherent(w: World, disk: Disk) {
    && (exists manifest, readiness, pack, checks :: DocumentsCohere(w, disk, manifest, readiness, pack, checks))
    && Confirmed(disk, ManifestValidation, "valid release drill manifest")
    && Confirmed(disk, AoGateValidation, "valid dependency gate")
  }

  // ---------------------------------------------------------------- files and texts

  lemma FoundIsResolved(disk: Disk, f: FileName, name: FileName)
    ensures FoundAs(disk, f, name) <==> Resolve(disk, f) == Some(name)
  {
  }

  lemma TextIs(disk: Disk, f: FileName, text: string)
    ensures HasText(disk, f, text) <==> ReadText(disk, f) == Some(text)
  {
    hide FoundAs, Resolve;
    forall name ensures FoundAs(disk, f, name) <==> Resolve(disk, f) == Some(name) { FoundIsResolved(disk, f, name); }
    if Resolve(disk, f).Some? { assert FoundAs(disk, f, Resolve(disk, f).value); }
  }

  lemma DocumentIs(w: World, disk: Disk, f: FileName, doc: Json)
    ensures HasDocument(w, disk, f, doc) <==> ReadJson(w, disk, f) == Some(doc)
  {
    hide ReadText, HasText;
    forall text ensures HasText(disk, f, text) <==> ReadText(disk, f) == Some(text) { TextIs(disk, f, text); }
    if ReadText(disk, f).Some? { assert HasText(disk, f, ReadText(disk, f).value); }
  }

  lemma FalsyIs(doc: Json)
    ensures Falsy(doc) <==> !Truthy(doc)
  {
  }

  lemma NamedIs(doc: Json, key: Key)
    ensures Named(doc, key) <==> IsText(Field(doc, key))
  {
    hide TextOr, Reads, IsText;
    var v := Field(doc, key);
    ReadsText(v, TextOr(v));
    forall t ensures Reads(v, t) <==> t != "" && TextOr(v) == t { ReadsText(v, t); }
  }

  lemma StandsIs(text: string, phrase: string, i: int)
    ensures Stands(text, phrase, i) <==> OccursAt(Lower(text), phrase, i)
  {
    var l := Lower(text);
    if 0 <= i <= |text| - |phrase| {
      var part := l[i..i + |phrase|];
      assert forall k | 0 <= k < |phrase| :: part[k] == LowerChar(text[i + k]);
    }
  }

  lemma ContainsIs(text: string, phrase: string)
    ensures Contains(text, phrase) <==> Includes(Lower(text), phrase)
  {
    hide Stands, OccursAt, Lower;
    forall i ensures Stands(text, phrase, i) <==> OccursAt(Lower(text), phrase, i) { StandsIs(text, phrase, i); }
  }

  lemma ConfirmedIs(disk: Disk, f: FileName, phrase: string)
    ensures Confirmed(disk, f, phrase) <==> TextConfirms(disk, f, phrase)
  {
    hide ReadText, HasText, Contains, Includes;
    forall text ensures HasText(disk, f, text) <==> ReadText(disk, f) == Some(text) { TextIs(disk, f, text); }
    if ReadText(disk, f).Some? {
      assert HasText(disk, f, ReadText(disk, f).value);
      ContainsIs(ReadText(disk, f).value, phrase);
    }
  }

  // ---------------------------------------------------------------- the documents

  lemma PathIs(entry: Json, name: string)
    ensures Reads(Field(entry, Path), name) <==> M.PathText(entry) == name != ""
  {
    hide TextOr, Reads;
    ReadsText(Field(entry, Path), name);
  }

  lemma ListsIs(manifest: Json)
    ensures ListsFiles(manifest) <==> M.ListsExpectedPaths(manifest)
  {
    hide Reads, Manifested, NameOf, M.PathText;
    var v := Field(manifest, Artifacts);
    if v.Some? && v.value.Arr? {
      var entries := v.value.elems;
      forall k | 0 <= k < |entries| && k < 13 ensures Reads(Field(entries[k], Path), NameOf(Manifested()[k])) <==> M.PathText(entries[k]) == NameOf(Manifested()[k]) != "" {
        PathIs(entries[k], NameOf(Manifested()[k]));
      }
    }
  }

  lemma ManifestFineIs(manifest: Json)
    ensures ManifestFine(manifest) <==> ManifestAgrees(manifest)
  {
    hide Falsy, Truthy, Named, ListsFiles, M.ListsExpectedPaths, IsText;
    FalsyIs(manifest);
    NamedIs(manifest, Release);
    NamedIs(manifest, Status);
    ListsIs(manifest);
  }

  lemma EmbeddedAs(w: World, disk: Disk, checks: Json, key: Key, f: FileName, doc: Json)
    requires ReadJson(w, disk, f) == Some(doc)
    ensures EmbeddedAgrees(w, disk, checks, key, f) <==> Falsy(doc) || Field(checks, key) == Some(doc)
  {
    hide ReadJson, Falsy, Truthy, Field;
    FalsyIs(doc);
  }

  lemma EmbedsIs(w: World, disk: Disk, checks: Json, key: Key, f: FileName)
    ensures Embeds(w, disk, checks, key, f) <==> EmbeddedAgrees(w, disk, checks, key, f)
  {
    hide HasDocument, ReadJson, Falsy, Field, EmbeddedAgrees;
    if ReadJson(w, disk, f).Some? {
      var doc := ReadJson(w, disk, f).value;
      DocumentIs(w, disk, f, doc);
      EmbeddedAs(w, disk, checks, key, f, doc);
    } else {
      UnreadableAgreesNot(w, disk, checks, key, f);
    }
    forall doc | HasDocument(w, disk, f, doc) ensures ReadJson(w, disk, f) == Some(doc) { DocumentIs(w, disk, f, doc); }
  }

  lemma UnreadableAgreesNot(w: World, disk: Disk, checks: Json, key: Key, f: FileName)
    requires ReadJson(w, disk, f).None?
    ensures !EmbeddedAgrees(w, disk, checks, key, f)
  {
    hide ReadJson;
  }

  lemma EmbedsAllIs(w: World, disk: Disk, checks: Json)
    ensures EmbedsAll(w, disk, checks) <==> forall k | 0 <= k < 6 :: EmbeddedAgrees(w, disk, checks, Embedded()[k].0, Embedded()[k].1)
  {
    hide Embeds, EmbeddedAgrees;
    var e := Embedded();
    EmbedsIs(w, disk, checks, e[0].0, e[0].1);
    EmbedsIs(w, disk, checks, e[1].0, e[1].1);
    EmbedsIs(w, disk, checks, e[2].0, e[2].1);
    EmbedsIs(w, disk, checks, e[3].0, e[3].1);
    EmbedsIs(w, disk, checks, e[4].0, e[4].1);
    EmbedsIs(w, disk, checks, e[5].0, e[5].1);
  }

  lemma ChecksFineIs(w: World, disk: Disk, checks: Json)
    ensures ChecksFine(w, disk, checks) <==> ChecksAgree(w, disk, checks)
  {
    hide Falsy, Truthy, Named, EmbedsAll, EmbeddedAgrees, Embedded, IsText;
    FalsyIs(checks);
    NamedIs(checks, Release);
    NamedIs(checks, Profile);
    NamedIs(checks, Mode);
    EmbedsAllIs(w, disk, checks);
  }

  lemma SameNamedIs(a: Json, b: Json)
    ensures SameNamed(a, b) <==> !Clash(ReleaseOf(a), ReleaseOf(b))
  {
    hide TextOr, Reads;
    var v, u := Field(a, Release), Field(b, Release);
    ReadsText(v, TextOr(v));
    ReadsText(u, TextOr(u));
    forall t ensures Reads(v, t) <==> t != "" && TextOr(v) == t { ReadsText(v, t); }
    forall t ensures Reads(u, t) <==> t != "" && TextOr(u) == t { ReadsText(u, t); }
  }

  lemma OneReleaseIs(a: Json, b: Json, c: Json, d: Json)
    ensures OneReleaseNamed(a, b, c, d) <==> OneRelease(ReleaseOf(a), ReleaseOf(b), ReleaseOf(c), ReleaseOf(d))
  {
    hide SameNamed, ReleaseOf, Fits;
    SameNamedIs(a, b);
    SameNamedIs(a, c);
    SameNamedIs(a, d);
    SameNamedIs(b, c);
    SameNamedIs(b, d);
    SameNamedIs(c, d);
    PairsAreOne(ReleaseOf(a), ReleaseOf(b), ReleaseOf(c), ReleaseOf(d));
  }

  lemma PairsAreOne(a: string, b: string, c: string, d: string)
    ensures OneRelease(a, b, c, d) <==>
            !Clash(a, b) && !Clash(a, c) && !Clash(a, d) && !Clash(b, c) && !Clash(b, d) && !Clash(c, d)
  {
    var r := if a != "" then a else if b != "" then b else if c != "" then c else d;
    if !Clash(a, b) && !Clash(a, c) && !Clash(a, d) && !Clash(b, c) && !Clash(b, d) && !Clash(c, d) {
      assert Fits(a, r) && Fits(b, r) && Fits(c, r) && Fits(d, r);
    }
  }

  lemma FourAre(w: World, disk: Disk, manifest: Json, readiness: Json, pack: Json, checks: Json)
    ensures FourDocuments(w, disk, manifest, readiness, pack, checks) <==>
            && DocumentsParse(w, disk) && manifest == Document(w, disk, Manifest) && readiness == Document(w, disk, Readiness)
            && pack == Document(w, disk, PackJson) && checks == Document(w, disk, DrillChecks)
  {
    hide HasDocument, ReadJson;
    DocumentIs(w, disk, Manifest, manifest);
    DocumentIs(w, disk, Readiness, readiness);
    DocumentIs(w, disk, PackJson, pack);
    DocumentIs(w, disk, DrillChecks, checks);
  }

  lemma DocumentsAre(w: World, disk: Disk)
    ensures (exists manifest, readiness, pack, checks :: DocumentsCohere(w, disk, manifest, readiness, pack, checks)) <==>
            var manifest, readiness := Document(w, disk, Manifest), Document(w, disk, Readiness);
            var pack, checks := Document(w, disk, PackJson), Document(w, disk, DrillChecks);
            && DocumentsParse(w, disk) && ManifestAgrees(manifest) && ChecksAgree(w, disk, checks)
            && OneRelease(ReleaseOf(readiness), ReleaseOf(pack), ReleaseOf(manifest), ReleaseOf(checks))
  {
    hide FourDocuments, DocumentsParse, Document, ManifestFine, ManifestAgrees, ChecksFine, ChecksAgree, OneReleaseNamed, OneRelease, ReleaseOf;
    var manifest, readiness := Document(w, disk, Manifest), Document(w, disk, Readiness);
    var pack, checks := Document(w, disk, PackJson), Document(w, disk, DrillChecks);
    ManifestFineIs(manifest);
    ChecksFineIs(w, disk, checks);
    OneReleaseIs(readiness, pack, manifest, checks);
    FourAre(w, disk, manifest, readiness, pack, checks);
    assert DocumentsCohere(w, disk, manifest, readiness, pack, checks) ||
           !(DocumentsParse(w, disk) && ManifestAgrees(manifest) && ChecksAgree(w, disk, checks)
             && OneRelease(ReleaseOf(readiness), ReleaseOf(pack), ReleaseOf(manifest), ReleaseOf(checks)));
    forall m, r, p, k | DocumentsCohere(w, disk, m, r, p, k) ensures DocumentsCohere(w, disk, manifest, readiness, pack, checks) {
      FourAre(w, disk, m, r, p, k);
    }
  }

  lemma CoherentIs(w: World, disk: Disk)
    ensures Coherent(w, disk) <==> Agreement(w, disk)
  {
    hide DocumentsCohere, DocumentsParse, Document, ManifestAgrees, ChecksAgree, OneRelease, ReleaseOf, Confirmed, TextConfirms;
    DocumentsAre(w, disk);
    ConfirmedIs(disk, ManifestValidation, "valid release drill manifest");
    ConfirmedIs(disk, AoGateValidation, "valid dependency gate");
    assert M.ManifestPhrase() == "valid release drill manifest" && GatePhrase() == "valid dependency gate";
  }

  /** Found under one of its names. */
  ghost predicate Found(disk: Disk, f: FileName) { exists name :: FoundAs(disk, f, name) }

  predicate IsRequired(f: FileName) {
    f in {Matrix, DriftReport, DriftSummary, LatestBundle, AoGateValidation, PackMarkdown, PackJson, Checklist, Readiness, LegacyCore,
          LegacyCrypto, WorkerMapCoherence, ForgetForward, SignatureRefMap, VariantMap, DrillChecks, Manifest, ManifestValidation}
  }

  ghost predicate NothingLacks(disk: Disk) { forall f | IsRequired(f) :: Found(disk, f) }

  lemma FoundIs(disk: Disk, f: FileName)
    ensures Found(disk, f) <==> Resolve(disk, f).Some?
  {
    hide FoundAs, Resolve;
    forall name ensures FoundAs(disk, f, name) <==> Resolve(disk, f) == Some(name) { FoundIsResolved(disk, f, name); }
    if Resolve(disk, f).Some? { assert FoundAs(disk, f, Resolve(disk, f).value); }
  }

  lemma RequiredAre(f: FileName)
    ensures f in Required() <==> IsRequired(f)
  {
  }

  lemma NothingLacksIs(disk: Disk)
    ensures NothingLacks(disk) <==> MissingOf(disk, Required(), |Required()|) == []
  {
    hide Required, Found, Resolve, MissingOf, IsRequired;
    var required := Required();
    NothingMissingOf(disk, required, |required|);
    forall f ensures Found(disk, f) <==> Resolve(disk, f).Some? { FoundIs(disk, f); }
    forall f ensures f in required <==> IsRequired(f) { RequiredAre(f); }
    assert forall k | 0 <= k < |required| :: required[k] in required;
  }

  /** The strict check accepts a directory exactly when no required file is lacking and the directory agrees with itself. */
  lemma AcceptsExactly(w: World, disk: Disk)
    ensures MissingOf(disk, Required(), |Required()|) == [] && StrictIssues(w, disk) == [] <==> NothingLacks(disk) && Coherent(w, disk)
  {
    hide NothingLacks, Coherent, StrictIssues, Agreement, MissingOf, Required;
    NothingLacksIs(disk);
    StrictExact(w, disk);
    CoherentIs(w, disk);
  }

  // ---------------------------------------------------------------- the ledger

  ghost predicate ReportsReady(doc: Json) { exists t :: Reads(Field(doc, Status), t) && Lower(t) == "ready" }

  lemma ReportsReadyIs(doc: Json)
    ensures ReportsReady(doc) <==> L.IsReady(doc)
  {
    hide TextOr, Reads;
    var v := Field(doc, Status);
    ReadsText(v, TextOr(v));
    forall t ensures Reads(v, t) <==> t != "" && TextOr(v) == t { ReadsText(v, t); }
    assert |Lower(TextOr(v))| == |TextOr(v)|;
  }

  /** The ledger says ready exactly when pack and readiness report say so, the artifact check has `ok: true`, and both
      validation texts contain their confirmation. */
  lemma LedgerReadyExactly(w: World, disk: Disk)
    requires L.Buildable(w, disk)
    ensures L.OverallReady(L.LedgerChecks(w, disk)) <==>
            && ReportsReady(w.parse(disk[PackJson]).value) && ReportsReady(w.parse(disk[Readiness]).value)
            && Field(w.parse(disk[FileName.DrillCheck]).value, Ok) == Some(Bool(true))
            && ManifestValidation in disk && Contains(disk[ManifestValidation], "valid release drill manifest")
            && AoGateValidation in disk && Contains(disk[AoGateValidation], "valid dependency gate")
  {
    hide L.IsReady, ReportsReady, Contains, Includes, LedgerFiles;
    L.LedgerFilesInclude();
    ReportsReadyIs(w.parse(disk[PackJson]).value);
    ReportsReadyIs(w.parse(disk[Readiness]).value);
    ContainsIs(disk[ManifestValidation], "valid release drill manifest");
    ContainsIs(disk[AoGateValidation], "valid dependency gate");
    assert M.ManifestPhrase() == "valid release drill manifest" && GatePhrase() == "valid dependency gate";
  }
}
