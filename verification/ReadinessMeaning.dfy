/** The automation blockers of the decommission readiness check, said on the documents of the drill directory. */
module ReadinessMeaning {
  import opened Strings
  import opened Documents
  import opened DrillFiles
  import D = DrillCheck
  import opened DirectoryMeaning
  import opened ReadinessArtifacts

  // ---------------------------------------------------------------- words and lists

  ghost predicate Says(doc: Json, word: string) { exists t :: Reads(Field(doc, Status), t) && Lower(t) == word }

  ghost predicate ListsText(doc: Json, key: Key, t: string) {
    Field(doc, key).Some? && Field(doc, key).value.Arr? && exists e | e in Field(doc, key).value.elems :: Reads(Some(e), t)
  }

  ghost predicate ListsAny(doc: Json, key: Key) { exists t :: ListsText(doc, key, t) }

  /** There are texts in the list, all of them about the AO gate. */
  ghost predicate OnlyAbout(doc: Json, key: Key, aoRelated: string -> bool) {
    ListsAny(doc, key) && forall t :: ListsText(doc, key, t) ==> aoRelated(t)
  }

  /** The pack waits for the AO gate alone. */
  ghost predicate PackWaits(pack: Json, aoRelated: string -> bool) {
    OnlyAbout(pack, Blockers, aoRelated) || (Says(pack, "warning") && OnlyAbout(pack, Warnings, aoRelated))
  }

  ghost predicate ReadinessWaits(readiness: Json, pack: Json, aoRelated: string -> bool) {
    || OnlyAbout(readiness, Blockers, aoRelated) || (Says(readiness, "warning") && OnlyAbout(readiness, Warnings, aoRelated))
    || ((Says(readiness, "blocked") || Says(readiness, "warning")) && !ListsAny(readiness, Blockers) && !ListsAny(readiness, Warnings)
        && PackWaits(pack, aoRelated))
  }

  ghost predicate LedgerReady(ledger: Json) {
    if Field(ledger, OverallStatus).Some? && !Falsy(Field(ledger, OverallStatus).value)
    then exists t :: Reads(Field(ledger, OverallStatus), t) && Lower(t) == "ready"
    else Says(ledger, "ready")
  }

  ghost predicate Flag(checks: Json, key: Key, b: bool) { Field(checks, key) == Some(Bool(b)) }

  /** The ledger waits too: it lists no check results, or fails pack or readiness and nothing else. */
  ghost predicate LedgerWaits(ledger: Json) {
    var checks := Field(ledger, CheckList);
    if checks.Some? && checks.value.Obj? then
      && (Flag(checks.value, PackReady, false) || Flag(checks.value, ReadinessReady, false))
      && !Flag(checks.value, DrillCheckOk, false) && !Flag(checks.value, ManifestValidated, false) && !Flag(checks.value, AoGateValidated, false)
    else true
  }

  ghost predicate EvidenceFine(doc: Json) { Flag(doc, Ok, true) || Says(doc, "pass") || Says(doc, "ready") }

  lemma SaysIs(doc: Json, word: string)
    requires word != ""
    ensures Says(doc, word) <==> StatusOf(doc) == word
  {
    LowerReads(Field(doc, Status), word);
  }

  lemma LowerReads(v: Option<Json>, word: string)
    requires word != ""
    ensures (exists t :: Reads(v, t) && Lower(t) == word) <==> Lower(TextOr(v)) == word
  {
    hide TextOr, Reads;
    ReadsText(v, TextOr(v));
    forall t ensures Reads(v, t) <==> t != "" && TextOr(v) == t { ReadsText(v, t); }
    assert |Lower(TextOr(v))| == |TextOr(v)|;
  }

  lemma WordsAre(doc: Json)
    ensures (Says(doc, "ready") <==> SaysReady(doc)) && (Says(doc, "warning") <==> SaysWarning(doc))
    ensures (Says(doc, "blocked") <==> SaysBlocked(doc)) && (Says(doc, "pending") <==> SaysPending(doc))
    ensures EvidenceFine(doc) <==> EvidenceOk(doc)
  {
    hide Says, StatusOf;
    SaysIs(doc, "ready");
    SaysIs(doc, "warning");
    SaysIs(doc, "blocked");
    SaysIs(doc, "pending");
    SaysIs(doc, "pass");
  }

  lemma ListsIs(doc: Json, key: Key, t: string)
    ensures var es := Elements(Field(doc, key)); ListsText(doc, key, t) <==> exists i | 0 <= i < |es| :: t != "" && TextOr(Some(es[i])) == t
  {
    hide TextOr, Reads;
    var es := Elements(Field(doc, key));
    forall i | 0 <= i < |es| ensures es[i] in es && (Reads(Some(es[i]), t) <==> t != "" && TextOr(Some(es[i])) == t) { ReadsText(Some(es[i]), t); }
  }

  lemma ListsAnyIs(doc: Json, key: Key)
    ensures ListsAny(doc, key) <==> HasTexts(doc, key)
  {
    hide TextOr, ListsText, IsText;
    var es := Elements(Field(doc, key));
    if HasTexts(doc, key) {
      var i :| 0 <= i < |es| && IsText(Some(es[i]));
      ListsIs(doc, key, TextOr(Some(es[i])));
    }
    if ListsAny(doc, key) {
      var t :| ListsText(doc, key, t);
      ListsIs(doc, key, t);
    }
  }

  lemma OnlyAboutIs(doc: Json, key: Key, aoRelated: string -> bool)
    ensures OnlyAbout(doc, key, aoRelated) <==> AoOnly(doc, key, aoRelated)
  {
    hide ListsAny, HasTexts, AllAbout, ListsText, AoOnly, Field;
    ListsAnyIs(doc, key);
    AllAboutIs(doc, key, aoRelated);
    AoOnlyAbout(doc, key, aoRelated);
  }

  ghost predicate AllAbout(es: seq<Json>, aoRelated: string -> bool) {
    forall i | 0 <= i < |es| :: TextOr(Some(es[i])) != "" ==> aoRelated(TextOr(Some(es[i])))
  }

  lemma AoOnlyAbout(doc: Json, key: Key, aoRelated: string -> bool)
    ensures AoOnly(doc, key, aoRelated) <==> HasTexts(doc, key) && AllAbout(Elements(Field(doc, key)), aoRelated)
  {
    hide HasTexts, TextOr;
  }

  lemma AllAboutIs(doc: Json, key: Key, aoRelated: string -> bool)
    ensures (forall t :: ListsText(doc, key, t) ==> aoRelated(t)) <==> AllAbout(Elements(Field(doc, key)), aoRelated)
  {
    hide TextOr, ListsText, IsText;
    var es := Elements(Field(doc, key));
    forall t ensures ListsText(doc, key, t) <==> exists i | 0 <= i < |es| :: t != "" && TextOr(Some(es[i])) == t { ListsIs(doc, key, t); }
    if forall t :: ListsText(doc, key, t) ==> aoRelated(t) {
      forall i | 0 <= i < |es| && TextOr(Some(es[i])) != "" ensures aoRelated(TextOr(Some(es[i]))) {
        assert ListsText(doc, key, TextOr(Some(es[i])));
      }
    }
  }

  lemma PackWaitsIs(pack: Json, aoRelated: string -> bool)
    ensures PackWaits(pack, aoRelated) <==> PackAoPending(pack, aoRelated)
  {
    hide OnlyAbout, AoOnly, Says, StatusOf, SaysWarning;
    WordsAre(pack);
    OnlyAboutIs(pack, Blockers, aoRelated);
    OnlyAboutIs(pack, Warnings, aoRelated);
  }

  lemma ReadinessWaitsIs(readiness: Json, pack: Json, aoRelated: string -> bool)
    ensures ReadinessWaits(readiness, pack, aoRelated) <==> ReadinessAoPending(readiness, pack, aoRelated)
  {
    hide OnlyAbout, AoOnly, Says, StatusOf, SaysWarning, SaysBlocked, PackWaits, PackAoPending, ListsAny, HasTexts;
    WordsAre(readiness);
    OnlyAboutIs(readiness, Blockers, aoRelated);
    OnlyAboutIs(readiness, Warnings, aoRelated);
    ListsAnyIs(readiness, Blockers);
    ListsAnyIs(readiness, Warnings);
    PackWaitsIs(pack, aoRelated);
  }

  lemma LedgerReadyIs(ledger: Json)
    ensures LedgerReady(ledger) <==> LedgerStatus(ledger) == "ready"
  {
    hide Reads, TextOr, Falsy, Truthy;
    if Field(ledger, OverallStatus).Some? { FalsyIs(Field(ledger, OverallStatus).value); }
    LowerReads(Field(ledger, OverallStatus), "ready");
    SaysIs(ledger, "ready");
  }

  lemma LedgerWaitsIs(ledger: Json, pending: bool)
    ensures LedgerWaits(ledger) && pending <==> LedgerAoPending(ledger, pending)
  {
  }

  // ---------------------------------------------------------------- the blockers

  predicate IsInspected(f: FileName) {
    f in {PackJson, Readiness, LegacyCore, LegacyCrypto, WorkerMapCoherence, ForgetForward, SignatureRefMap, VariantMap, DrillChecks, Manifest,
          FileName.DrillCheck, LedgerJson}
  }

  /** Which status keeps a file from being content; `Null` stands for a document that is missing or does not parse. */
  ghost predicate Content(w: World, disk: Disk, f: FileName, aoRelated: string -> bool) {
    var doc, pack, readiness := D.Document(w, disk, f), D.Document(w, disk, PackJson), D.Document(w, disk, Readiness);
    match f
    case PackJson => Says(doc, "ready") || PackWaits(doc, aoRelated)
    case Readiness => Says(doc, "ready") || ReadinessWaits(doc, pack, aoRelated) || PackWaits(pack, aoRelated)
    case LegacyCore => EvidenceFine(doc)
    case LegacyCrypto => EvidenceFine(doc)
    case Manifest =>
      || Says(doc, "ready")
      || ((Says(doc, "warning") || Says(doc, "blocked") || Says(doc, "pending")) && (PackWaits(pack, aoRelated) || ReadinessWaits(readiness, pack, aoRelated)))
    case LedgerJson => LedgerReady(doc) || (LedgerWaits(doc) && (PackWaits(pack, aoRelated) || ReadinessWaits(readiness, pack, aoRelated)))
    case _ => true
  }

  /** The key under which a check result is embedded. */
  ghost predicate EmbeddedAs(key: Key, f: FileName) {
    || (key == LegacyCoreExtractionEvidence && f == LegacyCore) || (key == LegacyCryptoBoundaryEvidence && f == LegacyCrypto)
    || (key == Key.TemplateWorkerMapCoherence && f == WorkerMapCoherence) || (key == ForgetForwardConfig && f == ForgetForward)
    || (key == TemplateSignatureRefMap && f == SignatureRefMap) || (key == TemplateVariantMap && f == VariantMap)
  }

  /** The document names the release `r`. */
  ghost predicate NamesRelease(w: World, disk: Disk, gateRelease: string, r: string) {
    || (exists f | f in {PackJson, Readiness, DrillChecks, Manifest, LedgerJson} :: Reads(Field(D.Document(w, disk, f), Release), r))
    || (r == gateRelease && r != "")
  }

  /** When each blocker is pushed. */
  ghost predicate Pushes(w: World, disk: Disk, gateRelease: string, aoRelated: string -> bool, x: Blocker) {
    match x
    case MissingArtifact(f) => IsInspected(f) && !Found(disk, f)
    case InvalidJson(f) => IsInspected(f) && exists text :: HasText(disk, f, text) && w.parse(text) == None
    case NotReady(f) => Found(disk, f) && !Content(w, disk, f, aoRelated)
    case ReportsBlocked(f) =>
      f in {WorkerMapCoherence, ForgetForward, SignatureRefMap, VariantMap} && Found(disk, f) && Says(D.Document(w, disk, f), "blocked")
    case ChecksLack(key) =>
      Found(disk, DrillChecks)
      && if key == Strict then !exists b :: Field(D.Document(w, disk, DrillChecks), Strict) == Some(Bool(b))
         else (key == Release || key == Profile || key == Mode) && !Named(D.Document(w, disk, DrillChecks), key)
    case CheckNotOk => Found(disk, FileName.DrillCheck) && !Flag(D.Document(w, disk, FileName.DrillCheck), Ok, true)
    case NotEmbedded(key) =>
      exists f, doc, checks :: EmbeddedAs(key, f) && HasDocument(w, disk, f, doc) && HasDocument(w, disk, DrillChecks, checks) && Field(checks, key) == None
    case EmbeddedDiffers(key) =>
      exists f, doc, checks :: EmbeddedAs(key, f) && HasDocument(w, disk, f, doc) && HasDocument(w, disk, DrillChecks, checks)
        && Field(checks, key) != None && Field(checks, key) != Some(doc)
    case ReleaseMismatch => exists r, s :: NamesRelease(w, disk, gateRelease, r) && NamesRelease(w, disk, gateRelease, s) && r != s
  }

  // ---------------------------------------------------------------- the readings

  lemma ReadingIs(w: World, disk: Disk, f: FileName)
    ensures var r := Read(w, disk, f);
      && (r.Absent? <==> !Found(disk, f))
      && (r.Unparsable? <==> exists text :: HasText(disk, f, text) && w.parse(text) == None)
      && ValueOf(r) == D.Document(w, disk, f)
      && (forall doc :: HasDocument(w, disk, f, doc) <==> r == Reading.Holds(doc))
  {
    hide Found, HasText, HasDocument, D.Resolve;
    FoundIs(disk, f);
    forall text ensures HasText(disk, f, text) <==> D.ReadText(disk, f) == Some(text) { TextIs(disk, f, text); }
    forall doc ensures HasDocument(w, disk, f, doc) <==> D.ReadJson(w, disk, f) == Some(doc) { DocumentIs(w, disk, f, doc); }
    if D.ReadText(disk, f).Some? { assert HasText(disk, f, D.ReadText(disk, f).value); }
  }

  lemma {:induction false} ReadingsPush(w: World, disk: Disk, files: seq<FileName>, n: nat, x: Blocker)
    requires n <= |files|
    ensures x in ReadingBlockers(w, disk, files, n) <==> exists k | 0 <= k < n :: x in ReadingBlocker(files[k], Read(w, disk, files[k]))
  {
    hide Read, ReadingBlocker;
    if n > 0 { ReadingsPush(w, disk, files, n - 1, x); }
  }

  lemma InspectedAre(f: FileName)
    ensures f in Inspected() <==> IsInspected(f)
  {
  }

  lemma ReadingPushes(w: World, disk: Disk, gateRelease: string, aoRelated: string -> bool, x: Blocker)
    ensures x in ReadingBlockers(w, disk, Inspected(), 12) <==>
            (x.MissingArtifact? || x.InvalidJson?) && Pushes(w, disk, gateRelease, aoRelated, x)
  {
    hide Read, Inspected, IsInspected, Found, HasText, Content, HasDocument, NamesRelease;
    var files := Inspected();
    ReadingsPush(w, disk, files, 12, x);
    forall k | 0 <= k < 12 ensures files[k] in files {}
    if x.MissingArtifact? || x.InvalidJson? {
      InspectedAre(x.file);
      ReadingIs(w, disk, x.file);
    }
  }

  // ---------------------------------------------------------------- the statuses

  lemma UnlessIn(ok: bool, b: Blocker, x: Blocker)
    ensures x in Unless(ok, b) <==> !ok && x == b
  {
  }

  /** The status blockers of the first half of the list, and of the second. */
  ghost function FirstHalf(d: DrillDocuments, aoRelated: string -> bool): seq<Blocker> {
    var pack, readiness := ValueOf(d.pack), ValueOf(d.readiness);
    var packPending, readinessPending := PackAoPending(pack, aoRelated), ReadinessAoPending(readiness, pack, aoRelated);
    Unless(d.pack.Absent? || SaysReady(pack) || packPending, NotReady(PackJson))
    + Unless(d.readiness.Absent? || SaysReady(readiness) || readinessPending || packPending, NotReady(Readiness))
    + Unless(d.core.Absent? || EvidenceOk(ValueOf(d.core)), NotReady(LegacyCore))
    + Unless(d.crypto.Absent? || EvidenceOk(ValueOf(d.crypto)), NotReady(LegacyCrypto))
  }

  ghost function SecondHalf(d: DrillDocuments, aoRelated: string -> bool): seq<Blocker> {
    var pack, readiness, manifest, ledger := ValueOf(d.pack), ValueOf(d.readiness), ValueOf(d.manifest), ValueOf(d.ledger);
    var packPending, readinessPending := PackAoPending(pack, aoRelated), ReadinessAoPending(readiness, pack, aoRelated);
    Unless(d.workerMap.Absent? || !SaysBlocked(ValueOf(d.workerMap)), ReportsBlocked(WorkerMapCoherence))
    + Unless(d.forgetForward.Absent? || !SaysBlocked(ValueOf(d.forgetForward)), ReportsBlocked(ForgetForward))
    + Unless(d.signatureRefs.Absent? || !SaysBlocked(ValueOf(d.signatureRefs)), ReportsBlocked(SignatureRefMap))
    + Unless(d.variants.Absent? || !SaysBlocked(ValueOf(d.variants)), ReportsBlocked(VariantMap))
    + Unless(d.manifest.Absent? || SaysReady(manifest)
             || ((SaysWarning(manifest) || SaysBlocked(manifest) || SaysPending(manifest)) && (packPending || readinessPending)), NotReady(Manifest))
    + Unless(d.drillCheck.Absent? || IsTrue(ValueOf(d.drillCheck), Ok), CheckNotOk)
    + Unless(d.ledger.Absent? || LedgerStatus(ledger) == "ready" || LedgerAoPending(ledger, packPending || readinessPending), NotReady(LedgerJson))
  }

  lemma Halves(d: DrillDocuments, aoRelated: string -> bool)
    ensures StatusBlockers(d, aoRelated) == FirstHalf(d, aoRelated) + SecondHalf(d, aoRelated)
  {
    hide Unless, SaysReady, SaysBlocked, SaysWarning, SaysPending, EvidenceOk, LedgerStatus, PackAoPending, ReadinessAoPending, LedgerAoPending, IsTrue;
  }

  lemma PackPushes(w: World, disk: Disk, g: string, aoRelated: string -> bool)
    ensures var d := ReadAll(w, disk);
      Pushes(w, disk, g, aoRelated, NotReady(PackJson)) <==> !(d.pack.Absent? || SaysReady(ValueOf(d.pack)) || PackAoPending(ValueOf(d.pack), aoRelated))
  {
    hide Read, Found, HasText, HasDocument, NamesRelease, SaysReady, SaysBlocked, SaysWarning, SaysPending, EvidenceOk, PackAoPending, ReadinessAoPending;
    hide Says, EvidenceFine, PackWaits, ReadinessWaits, D.Document, LedgerReady, LedgerWaits, LedgerStatus, LedgerAoPending;
    ReadingIs(w, disk, PackJson);
    WordsAre(D.Document(w, disk, PackJson));
    PackWaitsIs(D.Document(w, disk, PackJson), aoRelated);
  }

  lemma ReadinessPushes(w: World, disk: Disk, g: string, aoRelated: string -> bool)
    ensures var d := ReadAll(w, disk);
      var pack, readiness := ValueOf(d.pack), ValueOf(d.readiness);
      var packPending, readinessPending := PackAoPending(pack, aoRelated), ReadinessAoPending(readiness, pack, aoRelated);
      Pushes(w, disk, g, aoRelated, NotReady(Readiness)) <==> !(d.readiness.Absent? || SaysReady(readiness) || readinessPending || packPending)
  {
    hide Read, Found, HasText, HasDocument, NamesRelease, SaysReady, SaysBlocked, SaysWarning, SaysPending, EvidenceOk, PackAoPending, ReadinessAoPending;
    hide Says, EvidenceFine, PackWaits, ReadinessWaits, D.Document, LedgerReady, LedgerWaits, LedgerStatus, LedgerAoPending;
    var pack, readiness := D.Document(w, disk, PackJson), D.Document(w, disk, Readiness);
    ReadingIs(w, disk, PackJson);
    ReadingIs(w, disk, Readiness);
    PackWaitsIs(pack, aoRelated);
    ReadinessWaitsIs(readiness, pack, aoRelated);
    WordsAre(readiness);
  }

  lemma CorePushes(w: World, disk: Disk, g: string, aoRelated: string -> bool)
    ensures var d := ReadAll(w, disk);
      Pushes(w, disk, g, aoRelated, NotReady(LegacyCore)) <==> !(d.core.Absent? || EvidenceOk(ValueOf(d.core)))
  {
    hide Read, Found, HasText, HasDocument, NamesRelease, SaysReady, SaysBlocked, SaysWarning, SaysPending, EvidenceOk, PackAoPending, ReadinessAoPending;
    hide Says, EvidenceFine, PackWaits, ReadinessWaits, D.Document, LedgerReady, LedgerWaits, LedgerStatus, LedgerAoPending;
    ReadingIs(w, disk, LegacyCore);
    WordsAre(D.Document(w, disk, LegacyCore));
  }

  lemma CryptoPushes(w: World, disk: Disk, g: string, aoRelated: string -> bool)
    ensures var d := ReadAll(w, disk);
      Pushes(w, disk, g, aoRelated, NotReady(LegacyCrypto)) <==> !(d.crypto.Absent? || EvidenceOk(ValueOf(d.crypto)))
  {
    hide Read, Found, HasText, HasDocument, NamesRelease, SaysReady, SaysBlocked, SaysWarning, SaysPending, EvidenceOk, PackAoPending, ReadinessAoPending;
    hide Says, EvidenceFine, PackWaits, ReadinessWaits, D.Document, LedgerReady, LedgerWaits, LedgerStatus, LedgerAoPending;
    ReadingIs(w, disk, LegacyCrypto);
    WordsAre(D.Document(w, disk, LegacyCrypto));
  }

  lemma WorkerMapPushes(w: World, disk: Disk, g: string, aoRelated: string -> bool)
    ensures var d := ReadAll(w, disk);
      Pushes(w, disk, g, aoRelated, ReportsBlocked(WorkerMapCoherence)) <==> !(d.workerMap.Absent? || !SaysBlocked(ValueOf(d.workerMap)))
  {
    hide Read, Found, HasText, HasDocument, NamesRelease, SaysReady, SaysBlocked, SaysWarning, SaysPending, EvidenceOk, PackAoPending, ReadinessAoPending;
    hide Says, EvidenceFine, PackWaits, ReadinessWaits, D.Document, LedgerReady, LedgerWaits, LedgerStatus, LedgerAoPending;
    ReadingIs(w, disk, WorkerMapCoherence);
    WordsAre(D.Document(w, disk, WorkerMapCoherence));
  }

  lemma ForgetForwardPushes(w: World, disk: Disk, g: string, aoRelated: string -> bool)
    ensures var d := ReadAll(w, disk);
      Pushes(w, disk, g, aoRelated, ReportsBlocked(ForgetForward)) <==> !(d.forgetForward.Absent? || !SaysBlocked(ValueOf(d.forgetForward)))
  {
    hide Read, Found, HasText, HasDocument, NamesRelease, SaysReady, SaysBlocked, SaysWarning, SaysPending, EvidenceOk, PackAoPending, ReadinessAoPending;
    hide Says, EvidenceFine, PackWaits, ReadinessWaits, D.Document, LedgerReady, LedgerWaits, LedgerStatus, LedgerAoPending;
    ReadingIs(w, disk, ForgetForward);
    WordsAre(D.Document(w, disk, ForgetForward));
  }

  lemma SignatureRefsPush(w: World, disk: Disk, g: string, aoRelated: string -> bool)
    ensures var d := ReadAll(w, disk);
      Pushes(w, disk, g, aoRelated, ReportsBlocked(SignatureRefMap)) <==> !(d.signatureRefs.Absent? || !SaysBlocked(ValueOf(d.signatureRefs)))
  {
    hide Read, Found, HasText, HasDocument, NamesRelease, SaysReady, SaysBlocked, SaysWarning, SaysPending, EvidenceOk, PackAoPending, ReadinessAoPending;
    hide Says, EvidenceFine, PackWaits, ReadinessWaits, D.Document, LedgerReady, LedgerWaits, LedgerStatus, LedgerAoPending;
    ReadingIs(w, disk, SignatureRefMap);
    WordsAre(D.Document(w, disk, SignatureRefMap));
  }

  lemma VariantsPush(w: World, disk: Disk, g: string, aoRelated: string -> bool)
    ensures var d := ReadAll(w, disk);
      Pushes(w, disk, g, aoRelated, ReportsBlocked(VariantMap)) <==> !(d.variants.Absent? || !SaysBlocked(ValueOf(d.variants)))
  {
    hide Read, Found, HasText, HasDocument, NamesRelease, SaysReady, SaysBlocked, SaysWarning, SaysPending, EvidenceOk, PackAoPending, ReadinessAoPending;
    hide Says, EvidenceFine, PackWaits, ReadinessWaits, D.Document, LedgerReady, LedgerWaits, LedgerStatus, LedgerAoPending;
    ReadingIs(w, disk, VariantMap);
    WordsAre(D.Document(w, disk, VariantMap));
  }

  lemma ManifestPushes(w: World, disk: Disk, g: string, aoRelated: string -> bool)
    ensures var d := ReadAll(w, disk);
      var pack, readiness := ValueOf(d.pack), ValueOf(d.readiness);
      var packPending, readinessPending := PackAoPending(pack, aoRelated), ReadinessAoPending(readiness, pack, aoRelated);
      var manifest := ValueOf(d.manifest);
      Pushes(w, disk, g, aoRelated, NotReady(Manifest)) <==>
      !(d.manifest.Absent? || SaysReady(manifest) || ((SaysWarning(manifest) || SaysBlocked(manifest) || SaysPending(manifest)) && (packPending || readinessPending)))
  {
    hide Read, Found, HasText, HasDocument, NamesRelease, SaysReady, SaysBlocked, SaysWarning, SaysPending, EvidenceOk, PackAoPending, ReadinessAoPending;
    hide Says, EvidenceFine, PackWaits, ReadinessWaits, D.Document, LedgerReady, LedgerWaits, LedgerStatus, LedgerAoPending;
    var pack, readiness := D.Document(w, disk, PackJson), D.Document(w, disk, Readiness);
    ReadingIs(w, disk, PackJson);
    ReadingIs(w, disk, Readiness);
    PackWaitsIs(pack, aoRelated);
    ReadinessWaitsIs(readiness, pack, aoRelated);
    ReadingIs(w, disk, Manifest);
    WordsAre(D.Document(w, disk, Manifest));
  }

  lemma CheckPushes(w: World, disk: Disk, g: string, aoRelated: string -> bool)
    ensures var d := ReadAll(w, disk);
      Pushes(w, disk, g, aoRelated, CheckNotOk) <==> !(d.drillCheck.Absent? || IsTrue(ValueOf(d.drillCheck), Ok))
  {
    hide Read, Found, HasText, HasDocument, NamesRelease, SaysReady, SaysBlocked, SaysWarning, SaysPending, EvidenceOk, PackAoPending, ReadinessAoPending;
    hide Says, EvidenceFine, PackWaits, ReadinessWaits, D.Document, LedgerReady, LedgerWaits, LedgerStatus, LedgerAoPending;
    ReadingIs(w, disk, FileName.DrillCheck);
  }

  lemma LedgerPushes(w: World, disk: Disk, g: string, aoRelated: string -> bool)
    ensures var d := ReadAll(w, disk);
      var pack, readiness := ValueOf(d.pack), ValueOf(d.readiness);
      var packPending, readinessPending := PackAoPending(pack, aoRelated), ReadinessAoPending(readiness, pack, aoRelated);
      Pushes(w, disk, g, aoRelated, NotReady(LedgerJson)) <==> !(d.ledger.Absent? || LedgerStatus(ValueOf(d.ledger)) == "ready" || LedgerAoPending(ValueOf(d.ledger), packPending || readinessPending))
  {
    hide Read, Found, HasText, HasDocument, NamesRelease, SaysReady, SaysBlocked, SaysWarning, SaysPending, EvidenceOk, PackAoPending, ReadinessAoPending;
    hide Says, EvidenceFine, PackWaits, ReadinessWaits, D.Document, LedgerReady, LedgerWaits, LedgerStatus, LedgerAoPending;
    var pack, readiness := D.Document(w, disk, PackJson), D.Document(w, disk, Readiness);
    ReadingIs(w, disk, PackJson);
    ReadingIs(w, disk, Readiness);
    PackWaitsIs(pack, aoRelated);
    ReadinessWaitsIs(readiness, pack, aoRelated);
    ReadingIs(w, disk, LedgerJson);
    LedgerReadyIs(D.Document(w, disk, LedgerJson));
    LedgerWaitsIs(D.Document(w, disk, LedgerJson), PackWaits(pack, aoRelated) || ReadinessWaits(readiness, pack, aoRelated));
  }

  lemma FirstPushes(w: World, disk: Disk, g: string, aoRelated: string -> bool, x: Blocker)
    ensures x in FirstHalf(ReadAll(w, disk), aoRelated) <==>
            x.NotReady? && x.file in {PackJson, Readiness, LegacyCore, LegacyCrypto} && Pushes(w, disk, g, aoRelated, x)
  {
    hide Pushes, Read, SaysReady, EvidenceOk, PackAoPending, ReadinessAoPending, ReadAll, ValueOf;
    PackPushes(w, disk, g, aoRelated);
    ReadinessPushes(w, disk, g, aoRelated);
    CorePushes(w, disk, g, aoRelated);
    CryptoPushes(w, disk, g, aoRelated);
  }

  lemma SecondPushes(w: World, disk: Disk, g: string, aoRelated: string -> bool, x: Blocker)
    ensures x in SecondHalf(ReadAll(w, disk), aoRelated) <==>
            && ((x.ReportsBlocked? && x.file in {WorkerMapCoherence, ForgetForward, SignatureRefMap, VariantMap}) || x.CheckNotOk?
                || (x.NotReady? && x.file in {Manifest, LedgerJson}))
            && Pushes(w, disk, g, aoRelated, x)
  {
    hide Pushes, Read, SaysReady, SaysBlocked, SaysWarning, SaysPending, EvidenceOk, PackAoPending, ReadinessAoPending, LedgerStatus, LedgerAoPending,
      IsTrue, ReadAll, ValueOf;
    WorkerMapPushes(w, disk, g, aoRelated);
    ForgetForwardPushes(w, disk, g, aoRelated);
    SignatureRefsPush(w, disk, g, aoRelated);
    VariantsPush(w, disk, g, aoRelated);
    ManifestPushes(w, disk, g, aoRelated);
    CheckPushes(w, disk, g, aoRelated);
    LedgerPushes(w, disk, g, aoRelated);
  }

  /** No file but those twelve has a status blocker. */
  lemma StatusPushes(w: World, disk: Disk, g: string, aoRelated: string -> bool, x: Blocker)
    ensures x in StatusBlockers(ReadAll(w, disk), aoRelated) <==>
            (x.NotReady? || x.ReportsBlocked? || x.CheckNotOk?) && Pushes(w, disk, g, aoRelated, x)
  {
    hide FirstHalf, SecondHalf, ReadAll, StatusBlockers, Pushes;
    Halves(ReadAll(w, disk), aoRelated);
    FirstPushes(w, disk, g, aoRelated, x);
    SecondPushes(w, disk, g, aoRelated, x);
    OthersPushNothing(w, disk, g, aoRelated, x);
  }

  lemma OthersPushNothing(w: World, disk: Disk, g: string, aoRelated: string -> bool, x: Blocker)
    ensures x.NotReady? && Pushes(w, disk, g, aoRelated, x) ==> x.file in {PackJson, Readiness, LegacyCore, LegacyCrypto, Manifest, LedgerJson}
    ensures x.ReportsBlocked? && Pushes(w, disk, g, aoRelated, x) ==> x.file in {WorkerMapCoherence, ForgetForward, SignatureRefMap, VariantMap}
  {
    hide Found, Says, EvidenceFine, PackWaits, ReadinessWaits, D.Document, LedgerReady, LedgerWaits, HasDocument, HasText, NamesRelease;
  }

  // ---------------------------------------------------------------- the embedded results and the releases

  lemma ChecksPush(w: World, disk: Disk, g: string, aoRelated: string -> bool, x: Blocker)
    ensures x in ChecksBlockers(ReadAll(w, disk)) <==> x.ChecksLack? && Pushes(w, disk, g, aoRelated, x)
  {
    hide Read, Found, HasText, HasDocument, NamesRelease, Content, D.Document, Named, IsText;
    ReadingIs(w, disk, DrillChecks);
    var c := D.Document(w, disk, DrillChecks);
    NamedIs(c, Release);
    NamedIs(c, Profile);
    NamedIs(c, Mode);
  }

  lemma EmbeddedPushes(w: World, disk: Disk, key: Key, f: FileName, x: Blocker)
    ensures var checks, artifact := Read(w, disk, DrillChecks), Read(w, disk, f);
      && (checks.Holds? ==> (x in EmbeddedBlocker(checks.value, key, artifact) <==>
            || (x == NotEmbedded(key) && artifact.Holds? && Field(checks.value, key) == None)
            || (x == EmbeddedDiffers(key) && artifact.Holds? && Field(checks.value, key) != None && Field(checks.value, key) != Some(artifact.value))))
  {
    hide Read, Field;
  }

  /** A check result is embedded under its own key alone. */
  ghost predicate PushesUnder(w: World, disk: Disk, key: Key, f: FileName, x: Blocker) {
    exists doc, checks :: HasDocument(w, disk, f, doc) && HasDocument(w, disk, DrillChecks, checks)
      && (|| (x == NotEmbedded(key) && Field(checks, key) == None)
          || (x == EmbeddedDiffers(key) && Field(checks, key) != None && Field(checks, key) != Some(doc)))
  }

  lemma UnderIs(w: World, disk: Disk, key: Key, f: FileName, x: Blocker)
    ensures var checks := Read(w, disk, DrillChecks);
      PushesUnder(w, disk, key, f, x) <==> checks.Holds? && x in EmbeddedBlocker(checks.value, key, Read(w, disk, f))
  {
    hide Read, Field, EmbeddedBlocker, HasDocument, HasText, Found, D.Document;
    ReadingIs(w, disk, DrillChecks);
    ReadingIs(w, disk, f);
    EmbeddedPushes(w, disk, key, f, x);
    var checks, artifact := Read(w, disk, DrillChecks), Read(w, disk, f);
    if checks.Holds? && artifact.Holds? {
      assert HasDocument(w, disk, DrillChecks, checks.value) && HasDocument(w, disk, f, artifact.value);
    }
  }

  lemma UnderPushes(w: World, disk: Disk, g: string, aoRelated: string -> bool, key: Key, f: FileName, x: Blocker)
    requires EmbeddedAs(key, f) && PushesUnder(w, disk, key, f, x)
    ensures (x.NotEmbedded? || x.EmbeddedDiffers?) && Pushes(w, disk, g, aoRelated, x)
  {
    hide Field, HasDocument, Found, HasText, NamesRelease, Content, D.Document;
  }

  lemma PushesOne(w: World, disk: Disk, g: string, aoRelated: string -> bool, x: Blocker) returns (key: Key, f: FileName)
    requires (x.NotEmbedded? || x.EmbeddedDiffers?) && Pushes(w, disk, g, aoRelated, x)
    ensures EmbeddedAs(key, f) && PushesUnder(w, disk, key, f, x)
  {
    hide Field, HasDocument, Found, HasText, NamesRelease, Content, D.Document, EmbeddedAs;
    if x.NotEmbedded? {
      key := x.key;
      var g, doc, checks :| EmbeddedAs(key, g) && HasDocument(w, disk, g, doc) && HasDocument(w, disk, DrillChecks, checks) && Field(checks, key) == None;
      f := g;
    } else {
      key := x.key;
      var g, doc, checks :| EmbeddedAs(key, g) && HasDocument(w, disk, g, doc) && HasDocument(w, disk, DrillChecks, checks)
        && Field(checks, key) != None && Field(checks, key) != Some(doc);
      f := g;
    }
  }

  ghost predicate PushesUnderAny(w: World, disk: Disk, x: Blocker) {
    || PushesUnder(w, disk, LegacyCoreExtractionEvidence, LegacyCore, x) || PushesUnder(w, disk, LegacyCryptoBoundaryEvidence, LegacyCrypto, x)
    || PushesUnder(w, disk, Key.TemplateWorkerMapCoherence, WorkerMapCoherence, x) || PushesUnder(w, disk, ForgetForwardConfig, ForgetForward, x)
    || PushesUnder(w, disk, TemplateSignatureRefMap, SignatureRefMap, x) || PushesUnder(w, disk, TemplateVariantMap, VariantMap, x)
  }

  lemma AnyIs(w: World, disk: Disk, x: Blocker)
    ensures PushesUnderAny(w, disk, x) <==> exists key, f :: EmbeddedAs(key, f) && PushesUnder(w, disk, key, f, x)
  {
    hide PushesUnder;
    assert EmbeddedAs(LegacyCoreExtractionEvidence, LegacyCore) && EmbeddedAs(LegacyCryptoBoundaryEvidence, LegacyCrypto);
    assert EmbeddedAs(Key.TemplateWorkerMapCoherence, WorkerMapCoherence) && EmbeddedAs(ForgetForwardConfig, ForgetForward);
    assert EmbeddedAs(TemplateSignatureRefMap, SignatureRefMap) && EmbeddedAs(TemplateVariantMap, VariantMap);
  }

  lemma UnderItsKey(w: World, disk: Disk, g: string, aoRelated: string -> bool, x: Blocker)
    ensures (x.NotEmbedded? || x.EmbeddedDiffers?) && Pushes(w, disk, g, aoRelated, x) <==> PushesUnderAny(w, disk, x)
  {
    hide Pushes, PushesUnder, PushesUnderAny, EmbeddedAs;
    AnyIs(w, disk, x);
    if (x.NotEmbedded? || x.EmbeddedDiffers?) && Pushes(w, disk, g, aoRelated, x) { var key, f := PushesOne(w, disk, g, aoRelated, x); }
    if PushesUnderAny(w, disk, x) {
      var key, f :| EmbeddedAs(key, f) && PushesUnder(w, disk, key, f, x);
      UnderPushes(w, disk, g, aoRelated, key, f, x);
    }
  }

  lemma EmbeddedPush(w: World, disk: Disk, g: string, aoRelated: string -> bool, x: Blocker)
    ensures x in EmbeddedBlockers(ReadAll(w, disk)) <==> (x.NotEmbedded? || x.EmbeddedDiffers?) && Pushes(w, disk, g, aoRelated, x)
  {
    hide Pushes, PushesUnder, EmbeddedBlocker, Read;
    UnderItsKey(w, disk, g, aoRelated, x);
    UnderIs(w, disk, LegacyCoreExtractionEvidence, LegacyCore, x);
    UnderIs(w, disk, LegacyCryptoBoundaryEvidence, LegacyCrypto, x);
    UnderIs(w, disk, Key.TemplateWorkerMapCoherence, WorkerMapCoherence, x);
    UnderIs(w, disk, ForgetForwardConfig, ForgetForward, x);
    UnderIs(w, disk, TemplateSignatureRefMap, SignatureRefMap, x);
    UnderIs(w, disk, TemplateVariantMap, VariantMap, x);
  }

  lemma ReleaseIs(doc: Json, r: string)
    ensures Reads(Field(doc, Release), r) <==> r != "" && D.ReleaseOf(doc) == r
  {
    hide TextOr;
    ReadsText(Field(doc, Release), r);
  }

  lemma NamesIs(w: World, disk: Disk, g: string, r: string)
    ensures NamesRelease(w, disk, g, r) <==> r != "" && r in Releases(ReadAll(w, disk), g)
  {
    hide Read, D.Document, D.ReleaseOf, Found, HasText, HasDocument, Reads;
    ReadingIs(w, disk, PackJson);
    ReadingIs(w, disk, Readiness);
    ReadingIs(w, disk, DrillChecks);
    ReadingIs(w, disk, Manifest);
    ReadingIs(w, disk, LedgerJson);
    ReleaseIs(D.Document(w, disk, PackJson), r);
    ReleaseIs(D.Document(w, disk, Readiness), r);
    ReleaseIs(D.Document(w, disk, DrillChecks), r);
    ReleaseIs(D.Document(w, disk, Manifest), r);
    ReleaseIs(D.Document(w, disk, LedgerJson), r);
  }

  lemma AlignedIs(releases: seq<string>)
    ensures Aligned(releases) <==> forall r, s | r in releases && s in releases :: r == "" || s == "" || r == s
  {
    assert forall i | 0 <= i < |releases| :: releases[i] in releases;
  }

  lemma ReleasesPush(w: World, disk: Disk, g: string, aoRelated: string -> bool)
    ensures Aligned(Releases(ReadAll(w, disk), g)) <==> !Pushes(w, disk, g, aoRelated, ReleaseMismatch)
  {
    hide Releases, ReadAll, NamesRelease, Aligned;
    var releases := Releases(ReadAll(w, disk), g);
    AlignedIs(releases);
    forall r ensures NamesRelease(w, disk, g, r) <==> r != "" && r in releases { NamesIs(w, disk, g, r); }
  }

  /** The embedded results are the value `null` and some check result is there to be compared. */
  ghost predicate AsksNull(w: World, disk: Disk) {
    && HasDocument(w, disk, DrillChecks, Null)
    && exists f, doc :: f in {LegacyCore, LegacyCrypto, WorkerMapCoherence, ForgetForward, SignatureRefMap, VariantMap} && HasDocument(w, disk, f, doc)
  }

  lemma ThrowsIs(w: World, disk: Disk)
    ensures Throws(ReadAll(w, disk)) <==> AsksNull(w, disk)
  {
    hide Read, D.Document, Found, HasText, HasDocument;
    ReadingIs(w, disk, DrillChecks);
    HasAny(w, disk, LegacyCore);
    HasAny(w, disk, LegacyCrypto);
    HasAny(w, disk, WorkerMapCoherence);
    HasAny(w, disk, ForgetForward);
    HasAny(w, disk, SignatureRefMap);
    HasAny(w, disk, VariantMap);
  }

  lemma HasAny(w: World, disk: Disk, f: FileName)
    ensures Read(w, disk, f).Holds? <==> exists doc :: HasDocument(w, disk, f, doc)
  {
    hide Read, D.Document, Found, HasText, HasDocument;
    ReadingIs(w, disk, f);
    if Read(w, disk, f).Holds? { assert HasDocument(w, disk, f, Read(w, disk, f).value); }
  }

  lemma OnePushes(w: World, disk: Disk, g: string, aoRelated: string -> bool, x: Blocker)
    requires !Throws(ReadAll(w, disk))
    ensures x in AutomationBlockersOf(w, disk, g, aoRelated).value <==> Pushes(w, disk, g, aoRelated, x)
  {
    hide ReadAll, Throws, Inspected, ReadingBlockers, StatusBlockers, ChecksBlockers, EmbeddedBlockers, Releases, Aligned, Pushes;
    ReadingPushes(w, disk, g, aoRelated, x);
    StatusPushes(w, disk, g, aoRelated, x);
    ChecksPush(w, disk, g, aoRelated, x);
    EmbeddedPush(w, disk, g, aoRelated, x);
    ReleasesPush(w, disk, g, aoRelated);
  }

  /** Which automation blockers the readiness check has about a drill directory, for every directory; it throws exactly when
      it asks the value `null` for an embedded result. */
  lemma AutomationExact(w: World, disk: Disk, g: string, aoRelated: string -> bool)
    ensures var blockers := AutomationBlockersOf(w, disk, g, aoRelated);
      && (blockers == None <==> AsksNull(w, disk))
      && (blockers != None ==> forall x :: x in blockers.value <==> Pushes(w, disk, g, aoRelated, x))
      && (blockers == Some([]) <==> !AsksNull(w, disk) && forall x :: !Pushes(w, disk, g, aoRelated, x))
  {
    hide Pushes, AsksNull, Throws, ReadAll;
    ThrowsIs(w, disk);
    if !Throws(ReadAll(w, disk)) {
      var blockers := AutomationBlockersOf(w, disk, g, aoRelated).value;
      forall x ensures x in blockers <==> Pushes(w, disk, g, aoRelated, x) { OnePushes(w, disk, g, aoRelated, x); }
      if blockers != [] { assert blockers[0] in blockers; }
    }
  }
}
