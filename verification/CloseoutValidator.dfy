/** The validator of closeout artifacts, and its agreement with the run that writes them. */
module CloseoutValidator {
  import opened Numbers
  import opened Strings
  import opened Documents
  import ManualProofCheck
  import C = Closeout

  datatype Issue =
    | NotAnObject | MissingField(key: Key) | NotText(key: Key) | NotAnArray(key: Key)
    | StepNotObject(i: nat) | StepField(i: nat, key: Key) | StepExitCode(i: nat)
    | ValidationsNotObject | ProofsNotObject | ProofsField(key: Key) | ProofsStatus | ProofsCount(key: Key) | ProofsArray(key: Key)
    | ProofNotObject(i: nat) | ProofField(i: nat, key: Key)

  datatype Verdict = Invalid | Ready | Blocked | Pending

  datatype Evaluation = Evaluation(malformed: bool, ready: bool, verdict: Verdict, issues: seq<Issue>, blockers: seq<string>)

  // ---------------------------------------------------------------- single fields

  function StateIssues(payload: Json, key: Key): seq<Issue> {
    if Field(payload, key).None? then [MissingField(key)] else if !IsText(Field(payload, key)) then [NotText(key)] else []
  }

  function StateWord(payload: Json, key: Key): string { Lower(TextOr(Field(payload, key))) }

  function Blank(v: Json, key: Key, issue: Issue): seq<Issue> { if IsText(Field(v, key)) then [] else [issue] }

  function StepIssues(step: Json, i: nat): seq<Issue> {
    if !step.Obj? then [StepNotObject(i)]
    else Blank(step, Id, StepField(i, Id)) + Blank(step, Label, StepField(i, Label)) + Blank(step, Key.Status, StepField(i, Key.Status))
         + (if Field(step, ExitCode).Some? && !IsInteger(Field(step, ExitCode).value) then [StepExitCode(i)] else [])
  }

  function StepListIssues(steps: seq<Json>, n: nat): seq<Issue>
    requires n <= |steps|
  {
    if n == 0 then [] else StepListIssues(steps, n - 1) + StepIssues(steps[n - 1], n - 1)
  }

  function StepsIssues(payload: Json): seq<Issue> {
    var v := Field(payload, Steps);
    if v.None? then [MissingField(Steps)] else if !v.value.Arr? then [NotAnArray(Steps)]
    else StepListIssues(v.value.elems, |v.value.elems|)
  }

  // ---------------------------------------------------------------- the manual proofs

  function ProofFields(): (r: seq<Key>)
    ensures |r| == 9
  {
    [Key.Status, RequiredCount, ProvidedCount, MissingCount, MissingProofKeys, MissingProofLabels, Blockers, Warnings, Proofs]
  }

  function ProofCounts(): (r: seq<Key>)
    ensures |r| == 3
  {
    [RequiredCount, ProvidedCount, MissingCount]
  }

  function ProofArrays(): (r: seq<Key>)
    ensures |r| == 5
  {
    [MissingProofKeys, MissingProofLabels, Blockers, Warnings, Proofs]
  }

  function AbsentFields(value: Json, keys: seq<Key>, n: nat): seq<Issue>
    requires n <= |keys|
  {
    if n == 0 then []
    else if Field(value, keys[n - 1]).None? then AbsentFields(value, keys, n - 1) + [ProofsField(keys[n - 1])]
    else AbsentFields(value, keys, n - 1)
  }

  function BadCounts(value: Json, keys: seq<Key>, n: nat): seq<Issue>
    requires n <= |keys|
  {
    if n == 0 then []
    else if Field(value, keys[n - 1]).Some? && !IsIntegerLike(Field(value, keys[n - 1]).value)
    then BadCounts(value, keys, n - 1) + [ProofsCount(keys[n - 1])]
    else BadCounts(value, keys, n - 1)
  }

  function BadArrays(value: Json, keys: seq<Key>, n: nat): seq<Issue>
    requires n <= |keys|
  {
    if n == 0 then []
    else if Field(value, keys[n - 1]).Some? && !Field(value, keys[n - 1]).value.Arr?
    then BadArrays(value, keys, n - 1) + [ProofsArray(keys[n - 1])]
    else BadArrays(value, keys, n - 1)
  }

  function ProofIssues(proof: Json, i: nat): seq<Issue> {
    if !proof.Obj? then [ProofNotObject(i)]
    else Blank(proof, ProofKey, ProofField(i, ProofKey)) + Blank(proof, Label, ProofField(i, Label)) + Blank(proof, Link, ProofField(i, Link))
  }

  function ProofListIssues(proofs: seq<Json>, n: nat): seq<Issue>
    requires n <= |proofs|
  {
    if n == 0 then [] else ProofListIssues(proofs, n - 1) + ProofIssues(proofs[n - 1], n - 1)
  }

  function KnownStatus(value: Json): bool {
    !IsText(Field(value, Key.Status))
    || StateWord(value, Key.Status) == "complete" || StateWord(value, Key.Status) == "pending" || StateWord(value, Key.Status) == "blocked"
  }

  function ManualIssues(value: Json): seq<Issue> {
    var proofs := Elements(Field(value, Proofs));
    AbsentFields(value, ProofFields(), 9) + (if KnownStatus(value) then [] else [ProofsStatus])
    + BadCounts(value, ProofCounts(), 3) + BadArrays(value, ProofArrays(), 5) + ProofListIssues(proofs, |proofs|)
  }

  /** The manual-proof section; `None` when there is none to look into. */
  function ManualSection(payload: Json): Option<Json> {
    var v := Field(payload, Validations);
    if v.None? || !v.value.Obj? then None else Field(v.value, ManualProofs)
  }

  function ValidationIssues(payload: Json): seq<Issue> {
    var v, section := Field(payload, Validations), ManualSection(payload);
    (if v.Some? && !v.value.Obj? then [ValidationsNotObject] else [])
    + (if section.None? then [] else if !section.value.Obj? then [ProofsNotObject] else ManualIssues(section.value))
  }

  // ---------------------------------------------------------------- the lists

  function TextItems(items: seq<Json>, n: nat): seq<string>
    requires n <= |items|
  {
    if n == 0 then []
    else if IsText(Some(items[n - 1])) then TextItems(items, n - 1) + [TextOr(Some(items[n - 1]))]
    else TextItems(items, n - 1)
  }

  function ListIssues(payload: Json, key: Key): seq<Issue> {
    var v := Field(payload, key);
    if v.Some? && !v.value.Arr? then [NotAnArray(key)] else []
  }

  function TextsOf(payload: Json, key: Key): seq<string> { var items := Elements(Field(payload, key)); TextItems(items, |items|) }

  function ManualBlockers(payload: Json): seq<string> {
    var section := ManualSection(payload);
    if section.None? || !section.value.Obj? then [] else FromProofs(TextsOf(section.value, Blockers))
  }

  function Marked(t: string): string { "manualProofs: " + t }

  function FromProofs(texts: seq<string>): (r: seq<string>)
    ensures |r| == |texts| && forall i | 0 <= i < |r| :: r[i] == Marked(texts[i])
  {
    seq(|texts|, i requires 0 <= i < |texts| => Marked(texts[i]))
  }

  function AllIssues(payload: Json): seq<Issue> {
    StateIssues(payload, Key.Status) + StateIssues(payload, CloseoutState) + StateIssues(payload, AutomationState)
    + StateIssues(payload, AoManualState) + StepsIssues(payload) + ValidationIssues(payload)
    + ListIssues(payload, Blockers) + ListIssues(payload, AutomationBlockers) + ListIssues(payload, AoManualBlockers) + ListIssues(payload, Warnings)
  }

  function AllBlockers(payload: Json): seq<string> {
    TextsOf(payload, Blockers) + TextsOf(payload, AutomationBlockers) + TextsOf(payload, AoManualBlockers) + ManualBlockers(payload)
  }

  predicate StatesReady(payload: Json) {
    && StateWord(payload, Key.Status) == "ready" && StateWord(payload, CloseoutState) == "ready"
    && StateWord(payload, AutomationState) == "complete" && StateWord(payload, AoManualState) == "complete"
  }

  ghost predicate SaysBlocked(payload: Json) {
    || Includes(StateWord(payload, CloseoutState), "blocked") || StateWord(payload, AutomationState) == "blocked"
    || StateWord(payload, AoManualState) == "blocked" || StateWord(payload, Key.Status) == "blocked"
  }

  ghost function Evaluate(payload: Json): Evaluation {
    if !payload.Obj? then Evaluation(true, false, Invalid, [NotAnObject], [])
    else
      var issues, blockers := AllIssues(payload), AllBlockers(payload);
      var ready := StatesReady(payload) && blockers == [] && issues == [];
      Evaluation(issues != [], ready,
                 if issues != [] then Invalid else if ready then Ready
                 else if blockers != [] || SaysBlocked(payload) then Blocked else Pending,
                 issues, blockers)
  }

  // ---------------------------------------------------------------- the validator's loops

  method InspectSteps(payload: Json) returns (issues: seq<Issue>)
    ensures issues == StepsIssues(payload)
  {
    hide StepIssues;
    var v := Field(payload, Steps);
    if v.None? { return [MissingField(Steps)]; }
    if !v.value.Arr? { return [NotAnArray(Steps)]; }
    issues := [];
    for i := 0 to |v.value.elems|
      invariant issues == StepListIssues(v.value.elems, i)
    {
      issues := issues + StepIssues(v.value.elems[i], i);
    }
  }

  method ValidateManualProofs(value: Json) returns (issues: seq<Issue>)
    requires value.Obj?
    ensures issues == ManualIssues(value)
  {
    hide ProofFields, ProofCounts, ProofArrays, ProofIssues, KnownStatus, IsIntegerLike, Field;
    var fields, counts, arrays := ProofFields(), ProofCounts(), ProofArrays();
    var absent: seq<Issue>, badCounts: seq<Issue>, badArrays: seq<Issue>, entries: seq<Issue> := [], [], [], [];
    for i := 0 to 9
      invariant absent == AbsentFields(value, fields, i)
    {
      if Field(value, fields[i]).None? { absent := absent + [ProofsField(fields[i])]; }
    }
    for i := 0 to 3
      invariant badCounts == BadCounts(value, counts, i)
    {
      if Field(value, counts[i]).Some? && !IsIntegerLike(Field(value, counts[i]).value) { badCounts := badCounts + [ProofsCount(counts[i])]; }
    }
    for i := 0 to 5
      invariant badArrays == BadArrays(value, arrays, i)
    {
      if Field(value, arrays[i]).Some? && !Field(value, arrays[i]).value.Arr? { badArrays := badArrays + [ProofsArray(arrays[i])]; }
    }
    var proofs := Elements(Field(value, Proofs));
    for i := 0 to |proofs|
      invariant entries == ProofListIssues(proofs, i)
    {
      entries := entries + ProofIssues(proofs[i], i);
    }
    issues := absent + (if KnownStatus(value) then [] else [ProofsStatus]) + badCounts + badArrays + entries;
  }

  method CollectTexts(payload: Json, key: Key) returns (texts: seq<string>)
    ensures texts == TextsOf(payload, key)
  {
    hide IsText, TextOr;
    var items := Elements(Field(payload, key));
    texts := [];
    for i := 0 to |items|
      invariant texts == TextItems(items, i)
    {
      if IsText(Some(items[i])) { texts := texts + [TextOr(Some(items[i]))]; }
    }
  }

  method EvaluateCloseout(payload: Json) returns (malformed: bool, ready: bool, issues: seq<Issue>, blockers: seq<string>)
    ensures var e := Evaluate(payload); malformed == e.malformed && ready == e.ready && issues == e.issues && blockers == e.blockers
  {
    hide StateIssues, StepsIssues, ManualIssues, TextsOf, StatesReady, SaysBlocked, Field;
    if !payload.Obj? { return true, false, [NotAnObject], []; }
    var states := StateIssues(payload, Key.Status) + StateIssues(payload, CloseoutState) + StateIssues(payload, AutomationState) + StateIssues(payload, AoManualState);
    var steps := InspectSteps(payload);
    var v, section := Field(payload, Validations), ManualSection(payload);
    var validations: seq<Issue> := if v.Some? && !v.value.Obj? then [ValidationsNotObject] else [];
    var proofIssues: seq<Issue>, proofBlockers: seq<string> := [], [];
    if section.Some? {
      if !section.value.Obj? {
        proofIssues := [ProofsNotObject];
      } else {
        proofIssues := ValidateManualProofs(section.value);
        var texts := CollectTexts(section.value, Blockers);
        proofBlockers := FromProofs(texts);
      }
    }
    issues := states + steps + (validations + proofIssues) + ListIssues(payload, Blockers) + ListIssues(payload, AutomationBlockers)
              + ListIssues(payload, AoManualBlockers) + ListIssues(payload, Warnings);
    var all := CollectTexts(payload, Blockers);
    var automation := CollectTexts(payload, AutomationBlockers);
    var manual := CollectTexts(payload, AoManualBlockers);
    blockers := all + automation + manual + proofBlockers;
    malformed := issues != [];
    ready := StatesReady(payload) && blockers == [] && issues == [];
  }

  // ---------------------------------------------------------------- the artifact of a run

  /** The fixed texts of the runner. */
  datatype Wording = Wording(blocker: C.Blocker -> string, id: C.StepId -> string, title: C.StepId -> string)

  ghost predicate Worded(w: Wording) {
    (forall b :: NonBlank(w.blocker(b))) && (forall s :: NonBlank(w.id(s))) && (forall s :: NonBlank(w.title(s)))
  }

  function StatusText(s: C.Status): string {
    match s
    case Passed => "passed"
    case Warning => "warning"
    case Blocked => "blocked"
    case Failed => "failed"
    case Skipped => "skipped"
  }

  function RunText(s: C.RunStatus): string {
    match s
    case RunReady => "ready"
    case RunBlocked => "blocked"
    case RunFailed => "failed"
  }

  function CloseText(s: C.CloseState): string {
    match s
    case Ready => "ready"
    case AoManualPending => "ao-manual-pending"
    case AoManualBlocked => "ao-manual-blocked"
    case AutomationBlocked => "automation-blocked"
  }

  function StateText(s: C.State): string {
    match s
    case Complete => "complete"
    case Pending => "pending"
    case StateBlocked => "blocked"
  }

  function BlockerTexts(w: Wording, blockers: seq<C.Blocker>): (r: Json)
    ensures r.Arr? && |r.elems| == |blockers| && forall i | 0 <= i < |blockers| :: r.elems[i] == Str(w.blocker(blockers[i]))
  {
    Arr(seq(|blockers|, i requires 0 <= i < |blockers| => Str(w.blocker(blockers[i]))))
  }

  function StepDocument(w: Wording, id: C.StepId, status: C.Status, exitCode: Option<Safe>): Json {
    Obj((if exitCode.Some? then map[ExitCode := Whole(exitCode.value)] else map[])
        + map[Id := Str(w.id(id)), Label := Str(w.title(id)), Key.Status := Str(StatusText(status))])
  }

  function RanDocument(w: Wording, id: C.StepId, r: C.Ran): Json { StepDocument(w, id, C.StepStatus(id, r), Some(r.exitCode)) }

  /** What a step ran; `None` for the skipped one. */
  function RanOf(i: C.Inputs, id: C.StepId): Option<C.Ran> {
    match id
    case GateEvidence => Some(i.gate)
    case Readiness => Some(i.readiness)
    case Hosting => i.hosting
    case Summary => Some(i.summary)
    case Signoff => Some(i.signoff)
    case EvidenceLog => Some(C.LogRan(i.logExit, i.logFile))
    case ProofLinks => Some(i.proofs)
  }

  function StepDocumentOf(w: Wording, i: C.Inputs, id: C.StepId): Json {
    if RanOf(i, id).Some? then RanDocument(w, id, RanOf(i, id).value) else StepDocument(w, id, C.Skipped, None)
  }

  function StepDocuments(w: Wording, i: C.Inputs): (r: seq<Json>)
    ensures |r| == 7 && forall k | 0 <= k < 7 :: r[k] == StepDocumentOf(w, i, C.PlannedSteps()[k])
  {
    seq(7, k requires 0 <= k < 7 => StepDocumentOf(w, i, C.PlannedSteps()[k]))
  }

  function OrNull(value: Json): Json { if Truthy(value) then value else Null }

  /** What `run-decommission-closeout --json` prints. */
  function Artifact(w: Wording, i: C.Inputs, warnings: seq<string>): Json {
    var e := C.Total(i);
    Obj(map[Key.Status := Str(RunText(C.StatusOf(e))), CloseoutState := Str(CloseText(C.CloseoutOf(e))),
            AutomationState := Str(StateText(C.AutomationOf(e))), AoManualState := Str(StateText(C.AoManualOf(e))),
            Blockers := BlockerTexts(w, C.BlockersOf(e)), AutomationBlockers := BlockerTexts(w, e.adds),
            AoManualBlockers := BlockerTexts(w, e.manualAdds), Warnings := ManualProofCheck.Texts(warnings),
            Steps := Arr(StepDocuments(w, i)),
            Validations := Obj(map[ManualProofs := OrNull(C.Payload(i.proofs)), SignoffRecord := OrNull(C.Payload(i.signoff)),
                                   FinalMigrationSummary := OrNull(C.Payload(i.summary))])])
  }

  // ---------------------------------------------------------------- what the children promise

  /** A child that failed or was killed without any output; the runner reads that as `{}`. */
  predicate Died(r: C.Ran) { r.exitCode != 0 && r.parsed == Some(Obj(map[])) }

  /** The final summary check reports no status of its own and exits with 0 exactly when it has no issues. */
  predicate SummaryPromise(r: C.Ran) {
    r.parsed.Some? && !Died(r) ==>
      Field(C.Payload(r), Key.Status).None? && Field(C.Payload(r), Blockers).None? && (r.exitCode == 0 <==> C.Listed(r, Issues) == [])
  }

  /** The sign-off check reports `blocked` exactly when it has blockers, otherwise `ok`. */
  predicate SignoffPromise(r: C.Ran) {
    r.parsed.Some? && !Died(r) ==> Field(C.Payload(r), Key.Status) == Some(Str(if C.Listed(r, Blockers) != [] then "blocked" else "ok"))
  }

  /** The proof check prints its assessment of some log. */
  ghost predicate ProofsPromise(r: C.Ran) {
    r.parsed.Some? && !Died(r) ==> exists log, strict, file, blockerText, warningText ::
      Assesses(r.parsed.value, log, strict, file, blockerText, warningText)
  }

  ghost predicate Assesses(payload: Json, log: Json, strict: bool, file: string, blockerText: string, warningText: string) {
    payload == ManualProofCheck.AssessmentDocument(ManualProofCheck.Assessed(log), strict, file, blockerText, warningText)
  }

  ghost predicate Promises(i: C.Inputs) { SummaryPromise(i.summary) && SignoffPromise(i.signoff) && ProofsPromise(i.proofs) }

  // ---------------------------------------------------------------- steps and states never make it malformed

  lemma RunWord(s: C.RunStatus)
    ensures TextOr(Some(Str(RunText(s)))) == RunText(s) != "" && (Lower(RunText(s)) == "ready" <==> s == C.RunReady)
  {
    hide TextOr, IsText;
    PlainWord(RunText(s));
    assert Lower("ready") == "ready";
    assert |Lower(RunText(s))| == |RunText(s)|;
  }

  lemma CloseWord(s: C.CloseState)
    ensures TextOr(Some(Str(CloseText(s)))) == CloseText(s) != "" && (Lower(CloseText(s)) == "ready" <==> s == C.CloseState.Ready)
  {
    hide TextOr, IsText;
    PlainWord(CloseText(s));
    assert Lower("ready") == "ready";
    assert |Lower(CloseText(s))| == |CloseText(s)|;
  }

  lemma StateWordOf(s: C.State)
    ensures TextOr(Some(Str(StateText(s)))) == StateText(s) != "" && (Lower(StateText(s)) == "complete" <==> s == C.State.Complete)
  {
    hide TextOr, IsText;
    PlainWord(StateText(s));
    assert Lower("complete") == "complete";
    assert |Lower(StateText(s))| == |StateText(s)|;
  }

  lemma StatusTextIsText(s: C.Status)
    ensures IsText(Some(Str(StatusText(s))))
  {
    hide TextOr, IsText;
    PlainWord(StatusText(s));
  }

  lemma StepDocumentFine(w: Wording, id: C.StepId, status: C.Status, exitCode: Option<Safe>, k: nat)
    requires Worded(w)
    ensures StepIssues(StepDocument(w, id, status, exitCode), k) == []
  {
    hide StatusText, NonBlank;
    StatusTextIsText(status);
    var d := StepDocument(w, id, status, exitCode);
    assert NonBlank(w.id(id)) && NonBlank(w.title(id));
    assert Field(d, Id) == Some(Str(w.id(id))) && Field(d, Label) == Some(Str(w.title(id))) && Field(d, Key.Status) == Some(Str(StatusText(status)));
    if exitCode.Some? {
      assert Field(d, ExitCode) == Some(Whole(exitCode.value));
    } else {
      assert Field(d, ExitCode).None?;
    }
  }

  lemma {:induction false} StepListFine(w: Wording, i: C.Inputs, n: nat)
    requires Worded(w) && n <= 7
    ensures StepListIssues(StepDocuments(w, i), n) == []
  {
    hide StepDocumentOf, StepIssues, StepDocuments, C.PlannedSteps, Worded;
    if n > 0 {
      StepListFine(w, i, n - 1);
      OneStepFine(w, i, C.PlannedSteps()[n - 1], n - 1);
    }
  }

  lemma OneStepFine(w: Wording, i: C.Inputs, id: C.StepId, k: nat)
    requires Worded(w)
    ensures StepIssues(StepDocumentOf(w, i, id), k) == []
  {
    hide StepIssues, StepDocument, Worded, RanOf;
    if RanOf(i, id).Some? {
      var r := RanOf(i, id).value;
      StepDocumentFine(w, id, C.StepStatus(id, r), Some(r.exitCode), k);
    } else {
      StepDocumentFine(w, id, C.Skipped, None, k);
    }
  }

  // ---------------------------------------------------------------- the proof section

  lemma FilledText(s: string)
    requires ManualProofCheck.Filled(s)
    ensures IsText(Some(Str(s)))
  {
  }

  lemma FilledProofFine(p: ManualProofCheck.Proof, k: nat)
    requires ManualProofCheck.Filled(p.key) && ManualProofCheck.Filled(p.title) && ManualProofCheck.Filled(p.link)
    ensures ProofIssues(ManualProofCheck.ProofDocument(p), k) == []
  {
    hide IsText, ManualProofCheck.Filled;
    FilledText(p.key);
    FilledText(p.title);
    FilledText(p.link);
  }

  lemma {:induction false} CompleteProofsFine(a: ManualProofCheck.Assessment, n: nat)
    requires n <= |a.proofs|
    requires forall k | 0 <= k < n :: var p := a.proofs[k]; ManualProofCheck.Filled(p.key) && ManualProofCheck.Filled(p.title) && ManualProofCheck.Filled(p.link)
    ensures ProofListIssues(ManualProofCheck.ProofDocuments(a.proofs).elems, n) == []
  {
    hide ManualProofCheck.Filled, ProofIssues, ManualProofCheck.ProofDocument;
    if n > 0 {
      CompleteProofsFine(a, n - 1);
      FilledProofFine(a.proofs[n - 1], n - 1);
    }
  }

  lemma BlankProof(p: ManualProofCheck.Proof, k: nat)
    requires p.link == ""
    ensures ProofIssues(ManualProofCheck.ProofDocument(p), k) != []
  {
    hide IsText;
    BlankText();
  }

  lemma {:induction false} BlankLinkFound(a: ManualProofCheck.Assessment, n: nat, k: nat)
    requires k < n <= |a.proofs| && a.proofs[k].link == ""
    ensures ProofListIssues(ManualProofCheck.ProofDocuments(a.proofs).elems, n) != []
  {
    hide ProofIssues, ManualProofCheck.ProofDocument;
    if k < n - 1 {
      BlankLinkFound(a, n - 1, k);
    } else {
      BlankProof(a.proofs[k], k);
    }
  }

  lemma BlankText()
    ensures !IsText(Some(Str("")))
  {
  }

  lemma {:induction false} NoAbsentFields(value: Json, keys: seq<Key>, n: nat)
    requires n <= |keys| && forall k | 0 <= k < n :: Field(value, keys[k]).Some?
    ensures AbsentFields(value, keys, n) == []
  {
    if n > 0 { NoAbsentFields(value, keys, n - 1); }
  }

  lemma AssessmentFields(a: ManualProofCheck.Assessment, strict: bool, file: string, b: string, m: string, key: Key)
    requires ManualProofCheck.Counted(a)
    requires key in ProofFields()
    ensures Field(ManualProofCheck.AssessmentDocument(a, strict, file, b, m), key).Some?
  {
  }

  lemma {:induction false} NoBadCounts(value: Json, keys: seq<Key>, n: nat)
    requires n <= |keys| && forall k | 0 <= k < n :: Field(value, keys[k]).Some? && IsIntegerLike(Field(value, keys[k]).value)
    ensures BadCounts(value, keys, n) == []
  {
    hide IsIntegerLike;
    if n > 0 { NoBadCounts(value, keys, n - 1); }
  }

  lemma {:induction false} NoBadArrays(value: Json, keys: seq<Key>, n: nat)
    requires n <= |keys| && forall k | 0 <= k < n :: IsArray(Field(value, keys[k]))
    ensures BadArrays(value, keys, n) == []
  {
    if n > 0 { NoBadArrays(value, keys, n - 1); }
  }

  lemma CountField(a: ManualProofCheck.Assessment, strict: bool, file: string, b: string, m: string, key: Key)
    requires ManualProofCheck.Counted(a)
    requires key in ProofCounts()
    ensures var v := Field(ManualProofCheck.AssessmentDocument(a, strict, file, b, m), key); v.Some? && IsIntegerLike(v.value)
  {
  }

  lemma ArrayField(a: ManualProofCheck.Assessment, strict: bool, file: string, b: string, m: string, key: Key)
    requires ManualProofCheck.Counted(a)
    requires key in ProofArrays()
    ensures IsArray(Field(ManualProofCheck.AssessmentDocument(a, strict, file, b, m), key))
  {
  }

  lemma CountsAndArrays(a: ManualProofCheck.Assessment, strict: bool, file: string, b: string, m: string)
    requires ManualProofCheck.Counted(a)
    ensures var d := ManualProofCheck.AssessmentDocument(a, strict, file, b, m);
      BadCounts(d, ProofCounts(), 3) == [] && BadArrays(d, ProofArrays(), 5) == []
  {
    hide ProofCounts, ProofArrays, IsIntegerLike, ManualProofCheck.AssessmentDocument, Field;
    var d := ManualProofCheck.AssessmentDocument(a, strict, file, b, m);
    forall k | 0 <= k < 3 ensures Field(d, ProofCounts()[k]).Some? && IsIntegerLike(Field(d, ProofCounts()[k]).value) {
      CountField(a, strict, file, b, m, ProofCounts()[k]);
    }
    forall k | 0 <= k < 5 ensures IsArray(Field(d, ProofArrays()[k])) { ArrayField(a, strict, file, b, m, ProofArrays()[k]); }
    NoBadCounts(d, ProofCounts(), 3);
    NoBadArrays(d, ProofArrays(), 5);
  }

  lemma StatusKnown(a: ManualProofCheck.Assessment, strict: bool, file: string, b: string, m: string)
    requires ManualProofCheck.Counted(a)
    ensures KnownStatus(ManualProofCheck.AssessmentDocument(a, strict, file, b, m))
  {
    hide TextOr, IsText;
    PlainWord(ManualProofCheck.StateText(a.state));
    assert Lower("complete") == "complete" && Lower("pending") == "pending" && Lower("blocked") == "blocked";
  }

  /** The section is well formed when the proofs are complete, and never when a link is blank. */
  lemma ManualIssuesOf(log: Json, strict: bool, file: string, b: string, m: string)
    ensures var a := ManualProofCheck.Assessed(log); var d := ManualProofCheck.AssessmentDocument(a, strict, file, b, m);
      (a.state == ManualProofCheck.Complete ==> ManualIssues(d) == []) && (a.state == ManualProofCheck.Pending ==> ManualIssues(d) != [])
  {
    hide ManualProofCheck.Assessed, ManualProofCheck.Filled, ProofFields, ProofCounts, ProofArrays, KnownStatus, AbsentFields, BadCounts, BadArrays, ProofListIssues;
    var a := ManualProofCheck.Assessed(log);
    var d := ManualProofCheck.AssessmentDocument(a, strict, file, b, m);
    ManualProofCheck.AssessmentConsistent(log);
    forall k | 0 <= k < 9 ensures Field(d, ProofFields()[k]).Some? { AssessmentFields(a, strict, file, b, m, ProofFields()[k]); }
    NoAbsentFields(d, ProofFields(), 9);
    CountsAndArrays(a, strict, file, b, m);
    StatusKnown(a, strict, file, b, m);
    assert Elements(Field(d, Proofs)) == ManualProofCheck.ProofDocuments(a.proofs).elems;
    if a.state == ManualProofCheck.Complete { CompleteProofsFine(a, 4); }
    if a.state == ManualProofCheck.Pending {
      var k :| 0 <= k < |a.proofs| && a.proofs[k].link == "";
      BlankLinkFound(a, |a.proofs|, k);
    }
  }

  // ---------------------------------------------------------------- run and validator agree

  lemma AssessedWord(r: C.Ran, log: Json, strict: bool, file: string, b: string, m: string)
    requires r.parsed.Some? && Assesses(r.parsed.value, log, strict, file, b, m)
    ensures C.Word(r, Key.Status) == Lower(ManualProofCheck.StateText(ManualProofCheck.Assessed(log).state))
  {
    hide TextOr, IsText, ManualProofCheck.Assessed, Lower, ManualProofCheck.StateText;
    var a := ManualProofCheck.Assessed(log);
    StateTextPlain(a.state);
    assert Field(C.Payload(r), Key.Status) == Some(Str(ManualProofCheck.StateText(a.state)));
  }

  lemma StateTextPlain(s: ManualProofCheck.ProofState)
    ensures IsText(Some(Str(ManualProofCheck.StateText(s)))) && TextOr(Some(Str(ManualProofCheck.StateText(s)))) == ManualProofCheck.StateText(s)
  {
    hide TextOr, IsText;
    PlainWord(ManualProofCheck.StateText(s));
  }

  lemma StepStatusOfProofs(r: C.Ran, log: Json, strict: bool, file: string, b: string, m: string)
    requires r.parsed.Some? && Assesses(r.parsed.value, log, strict, file, b, m)
    ensures var a := ManualProofCheck.Assessed(log);
      && (a.state == ManualProofCheck.Complete <==> C.StepStatus(C.ProofLinks, r) == C.Passed)
      && (a.state == ManualProofCheck.Pending <==> C.StepStatus(C.ProofLinks, r) == C.Status.Blocked)
  {
    hide C.Word, ManualProofCheck.Assessed;
    AssessedWord(r, log, strict, file, b, m);
    assert Lower("complete") == "complete" && Lower("pending") == "pending" && Lower("blocked") == "blocked";
  }

  lemma QuietSummary(r: C.Ran)
    requires SummaryPromise(r)
    ensures !C.SilentSummary(r)
  {
    hide TextOr;
    if Died(r) { WithoutStatus(C.Summary, r); }
    assert r.parsed.Some? ==> C.Listed(r, Blockers) == [];
    assert TextOr(None) == "" by { NoText(); }
  }

  lemma NoText()
    ensures TextOr(None) == "" && Lower("") == ""
  {
  }

  lemma QuietSignoff(r: C.Ran)
    requires SignoffPromise(r)
    ensures !C.SilentSignoff(r)
  {
    hide TextOr, IsText;
    if Died(r) { WithoutStatus(C.Signoff, r); }
    PlainWord("blocked");
    assert Lower("blocked") == "blocked";
  }

  lemma QuietProofs(r: C.Ran)
    requires ProofsPromise(r)
    ensures !C.SilentPending(r)
  {
    hide ManualProofCheck.Assessed, C.StepStatus;
    if r.parsed.None? || Died(r) {
      WithoutStatus(C.ProofLinks, r);
    } else {
      var log, strict, file, b, m :| Assesses(r.parsed.value, log, strict, file, b, m);
      StepStatusOfProofs(r, log, strict, file, b, m);
      ManualProofCheck.AssessmentConsistent(log);
      var a := ManualProofCheck.Assessed(log);
      assert C.Listed(r, MissingProofLabels) == ManualProofCheck.Texts(a.missingLabels).elems;
    }
  }

  lemma WithoutStatus(id: C.StepId, r: C.Ran)
    requires id in {C.Summary, C.Signoff, C.ProofLinks} && (r.parsed.None? || Died(r))
    ensures C.StepStatus(id, r) == C.Failed
  {
    hide TextOr;
    NoText();
    assert Field(C.Payload(r), Key.Status) == None;
  }

  ghost predicate FineArtifact(w: Wording, i: C.Inputs, warnings: seq<string>) {
    var d := Artifact(w, i, warnings);
    && StateIssues(d, Key.Status) == [] && StateIssues(d, CloseoutState) == [] && StateIssues(d, AutomationState) == []
    && StateIssues(d, AoManualState) == [] && StepsIssues(d) == []
    && ListIssues(d, Blockers) == [] && ListIssues(d, AutomationBlockers) == [] && ListIssues(d, AoManualBlockers) == [] && ListIssues(d, Warnings) == []
  }

  lemma ArtifactFields(w: Wording, i: C.Inputs, warnings: seq<string>)
    ensures var d := Artifact(w, i, warnings); var e := C.Total(i);
      && Field(d, Key.Status) == Some(Str(RunText(C.StatusOf(e)))) && Field(d, CloseoutState) == Some(Str(CloseText(C.CloseoutOf(e))))
      && Field(d, AutomationState) == Some(Str(StateText(C.AutomationOf(e)))) && Field(d, AoManualState) == Some(Str(StateText(C.AoManualOf(e))))
      && Field(d, Steps) == Some(Arr(StepDocuments(w, i)))
      && Field(d, Blockers) == Some(BlockerTexts(w, C.BlockersOf(e)))
      && Field(d, AutomationBlockers) == Some(BlockerTexts(w, e.adds)) && Field(d, AoManualBlockers) == Some(BlockerTexts(w, e.manualAdds))
      && ListIssues(d, Blockers) == [] && ListIssues(d, AutomationBlockers) == [] && ListIssues(d, AoManualBlockers) == [] && ListIssues(d, Warnings) == []
      && ManualSection(d) == Some(OrNull(C.Payload(i.proofs))) && IsObject(Field(d, Validations))
  {
    hide StepDocuments, RunText, CloseText, StateText, C.Total, C.StatusOf, C.CloseoutOf, C.AutomationOf, C.AoManualOf;
  }

  predicate IsObject(v: Option<Json>) { v.Some? && v.value.Obj? }

  lemma StateFine(d: Json, key: Key, text: string)
    requires Field(d, key) == Some(Str(text)) && TextOr(Some(Str(text))) == text != ""
    ensures StateIssues(d, key) == [] && StateWord(d, key) == Lower(text)
  {
    hide TextOr;
  }

  lemma ArtifactStates(w: Wording, i: C.Inputs, warnings: seq<string>)
    ensures var d := Artifact(w, i, warnings);
      && StateIssues(d, Key.Status) == [] && StateIssues(d, CloseoutState) == []
      && StateIssues(d, AutomationState) == [] && StateIssues(d, AoManualState) == []
      && (StatesReady(d) <==> C.StatusOf(C.Total(i)) == C.RunReady)
  {
    hide Artifact, StepDocuments, TextOr, RunText, CloseText, StateText, C.Total, StateIssues, StateWord, Lower, ListIssues, ManualSection, BlockerTexts;
    var d, e := Artifact(w, i, warnings), C.Total(i);
    ArtifactFields(w, i, warnings);
    RunWord(C.StatusOf(e));
    CloseWord(C.CloseoutOf(e));
    StateWordOf(C.AutomationOf(e));
    StateWordOf(C.AoManualOf(e));
    StateFine(d, Key.Status, RunText(C.StatusOf(e)));
    StateFine(d, CloseoutState, CloseText(C.CloseoutOf(e)));
    StateFine(d, AutomationState, StateText(C.AutomationOf(e)));
    StateFine(d, AoManualState, StateText(C.AoManualOf(e)));
  }

  lemma ArtifactFine(w: Wording, i: C.Inputs, warnings: seq<string>)
    requires Worded(w)
    ensures FineArtifact(w, i, warnings)
    ensures StatesReady(Artifact(w, i, warnings)) <==> C.StatusOf(C.Total(i)) == C.RunReady
    ensures ManualSection(Artifact(w, i, warnings)) == Some(OrNull(C.Payload(i.proofs)))
    ensures ValidationIssues(Artifact(w, i, warnings)) == if OrNull(C.Payload(i.proofs)).Obj? then ManualIssues(OrNull(C.Payload(i.proofs))) else [ProofsNotObject]
  {
    hide Artifact, StepDocuments, StepListIssues, ManualIssues, Worded, StateIssues, StatesReady, ListIssues, ManualSection;
    hide C.Total, C.StatusOf, C.CloseoutOf, C.AutomationOf, C.AoManualOf, BlockerTexts;
    ArtifactFields(w, i, warnings);
    ArtifactStates(w, i, warnings);
    StepListFine(w, i, 7);
  }

  lemma {:induction false} AllTexts(items: seq<Json>, n: nat)
    requires n <= |items| && forall k | 0 <= k < n :: IsText(Some(items[k]))
    ensures TextItems(items, n) == [] <==> n == 0
  {
    hide IsText, TextOr;
  }

  lemma BlockerTextsListed(w: Wording, i: C.Inputs, warnings: seq<string>)
    requires Worded(w)
    ensures var d := Artifact(w, i, warnings);
      TextsOf(d, Blockers) == [] && TextsOf(d, AutomationBlockers) == [] && TextsOf(d, AoManualBlockers) == [] <==> C.BlockersOf(C.Total(i)) == []
  {
    hide Artifact, C.Total, Field, StepDocuments, RunText, CloseText, StateText, TextItems, NonBlank;
    ArtifactFields(w, i, warnings);
    var e := C.Total(i);
    AllTexts(BlockerTexts(w, C.BlockersOf(e)).elems, |C.BlockersOf(e)|);
    AllTexts(BlockerTexts(w, e.adds).elems, |e.adds|);
    AllTexts(BlockerTexts(w, e.manualAdds).elems, |e.manualAdds|);
  }

  lemma ProofBlockersListed(i: C.Inputs)
    requires C.BlockersOf(C.Total(i)) == []
    ensures C.Listed(i.proofs, Blockers) == []
  {
    hide C.StepStatus, C.Listed, C.GateEffect, C.ReadinessEffect, C.HostingEffect, C.SummaryEffect, C.SignoffEffect, C.LogEffect, C.After, C.EffectOf;
    C.Unfold(i);
  }

  lemma CompleteProofs(r: C.Ran)
    requires ProofsPromise(r) && C.StepStatus(C.ProofLinks, r) == C.Passed
    ensures SectionFine(OrNull(C.Payload(r)))
  {
    hide C.StepStatus, ManualProofCheck.Assessed, ManualIssues;
    if r.parsed.None? || Died(r) {
      WithoutStatus(C.ProofLinks, r);
    } else {
      var log, strict, file, b, m :| Assesses(r.parsed.value, log, strict, file, b, m);
      ProofStates(r, log, strict, file, b, m);
      ManualIssuesOf(log, strict, file, b, m);
    }
  }

  lemma ProofStates(r: C.Ran, log: Json, strict: bool, file: string, b: string, m: string)
    requires r.parsed.Some? && Assesses(r.parsed.value, log, strict, file, b, m)
    requires C.StepStatus(C.ProofLinks, r) != C.Failed && C.StepStatus(C.ProofLinks, r) != C.Status.Blocked
    ensures ManualProofCheck.Assessed(log).state == ManualProofCheck.Complete
  {
    hide ManualProofCheck.Assessed, C.RawStatus;
    StepStatusOfProofs(r, log, strict, file, b, m);
    BlockedFails(r, log, strict, file, b, m);
  }

  lemma BlockedFails(r: C.Ran, log: Json, strict: bool, file: string, b: string, m: string)
    requires r.parsed.Some? && Assesses(r.parsed.value, log, strict, file, b, m)
    ensures ManualProofCheck.Assessed(log).state == ManualProofCheck.Blocked ==> C.StepStatus(C.ProofLinks, r) == C.Failed
  {
    hide C.Word, ManualProofCheck.Assessed;
    AssessedWord(r, log, strict, file, b, m);
    assert Lower("complete") == "complete" && Lower("pending") == "pending" && Lower("blocked") == "blocked";
  }

  /** What the validator asks of the proof section. */
  ghost predicate SectionFine(section: Json) { section.Obj? && ManualIssues(section) == [] }

  /** For every closeout: the validator judges the printed artifact `ready` exactly when the run says `ready`, lists no
      blocker, and the proof check printed a well-formed section. */
  lemma ValidatorExact(w: Wording, i: C.Inputs, warnings: seq<string>)
    requires Worded(w)
    ensures Evaluate(Artifact(w, i, warnings)).ready <==>
      C.StatusOf(C.Total(i)) == C.RunReady && C.BlockersOf(C.Total(i)) == [] && SectionFine(OrNull(C.Payload(i.proofs)))
  {
    hide Artifact, ManualIssues, Worded, TextsOf, C.StatusOf, C.Total, C.BlockersOf, StatesReady, StateIssues, StepsIssues, ListIssues, ValidationIssues, ManualSection;
    ArtifactFine(w, i, warnings);
    ArtifactIsObject(w, i, warnings);
    BlockerTextsListed(w, i, warnings);
    if C.BlockersOf(C.Total(i)) == [] {
      ProofBlockersListed(i);
      NoSectionTexts(C.Payload(i.proofs));
    }
  }

  lemma NoSectionTexts(payload: Json)
    requires Elements(Field(payload, Blockers)) == []
    ensures TextsOf(OrNull(payload), Blockers) == []
  {
  }

  /** Producer and validator agree: when no step reports silently and the section of a passed proof check is well formed,
      the run ends `ready` exactly when its blocker list is empty, and the validator judges the printed artifact `ready`
      in exactly that case. */
  lemma RunAndValidatorAgree(w: Wording, i: C.Inputs, warnings: seq<string>)
    requires Worded(w)
    requires !C.SilentSummary(i.summary) && !C.SilentSignoff(i.signoff) && !C.SilentPending(i.proofs)
    requires C.StepStatus(C.ProofLinks, i.proofs) == C.Passed ==> SectionFine(OrNull(C.Payload(i.proofs)))
    ensures C.StatusOf(C.Total(i)) == C.RunReady <==> C.BlockersOf(C.Total(i)) == []
    ensures Evaluate(Artifact(w, i, warnings)).ready <==> C.StatusOf(C.Total(i)) == C.RunReady
  {
    hide Artifact, Evaluate, SectionFine, Worded, C.SilentSummary, C.SilentSignoff, C.SilentPending, C.StepStatus, C.StatusOf, C.Total, C.BlockersOf;
    C.ReadyIffNoBlockers(i);
    ValidatorExact(w, i, warnings);
    if C.StatusOf(C.Total(i)) == C.RunReady { ReadyProofs(i); }
  }

  lemma ReadyProofs(i: C.Inputs)
    requires C.StatusOf(C.Total(i)) == C.RunReady
    ensures C.StepStatus(C.ProofLinks, i.proofs) == C.Passed
  {
    hide C.StepStatus, C.Listed, C.GateEffect, C.ReadinessEffect, C.HostingEffect, C.SummaryEffect, C.SignoffEffect, C.LogEffect, C.After, C.EffectOf;
    C.Unfold(i);
    C.ProofStatuses(i.proofs);
  }

  /** The repository's own checks, also when they die without output, meet the conditions of that agreement. */
  lemma PromisesSuffice(i: C.Inputs)
    requires Promises(i)
    ensures !C.SilentSummary(i.summary) && !C.SilentSignoff(i.signoff) && !C.SilentPending(i.proofs)
    ensures C.StepStatus(C.ProofLinks, i.proofs) == C.Passed ==> SectionFine(OrNull(C.Payload(i.proofs)))
  {
    hide ProofsPromise, SummaryPromise, SignoffPromise, SectionFine, C.StepStatus, C.SilentSummary, C.SilentSignoff, C.SilentPending;
    QuietSummary(i.summary);
    QuietSignoff(i.signoff);
    QuietProofs(i.proofs);
    if C.StepStatus(C.ProofLinks, i.proofs) == C.Passed { CompleteProofs(i.proofs); }
  }

  lemma ArtifactIsObject(w: Wording, i: C.Inputs, warnings: seq<string>)
    ensures Artifact(w, i, warnings).Obj?
  {
  }

  /** A pending closeout never validates: the blank proof link makes its artifact malformed. */
  lemma PendingIsMalformed(w: Wording, i: C.Inputs, warnings: seq<string>, log: Json, strict: bool, file: string, b: string, m: string)
    requires Worded(w) && i.proofs.parsed.Some? && Assesses(i.proofs.parsed.value, log, strict, file, b, m)
    requires ManualProofCheck.Assessed(log).state == ManualProofCheck.Pending
    ensures Evaluate(Artifact(w, i, warnings)).malformed && Evaluate(Artifact(w, i, warnings)).verdict == Invalid
  {
    hide Artifact, ManualIssues, ManualProofCheck.Assessed, StateIssues, StepsIssues, ListIssues, TextsOf, StatesReady, SaysBlocked, Worded, ValidationIssues;
    ArtifactFine(w, i, warnings);
    ManualIssuesOf(log, strict, file, b, m);
    ArtifactIsObject(w, i, warnings);
    assert OrNull(C.Payload(i.proofs)) == i.proofs.parsed.value;
  }
}
