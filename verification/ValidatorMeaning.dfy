/** What the validator of closeout artifacts reports about any payload, said on the values of the payload. */
module ValidatorMeaning {
  import opened Numbers
  import opened Strings
  import opened Documents
  import opened CloseoutValidator
  import C = Closeout
  import R = CloseoutMeaning

  /** No text, or only white space. */
  ghost predicate Lacks(value: Json, key: Key) { forall t :: !Reads(Field(value, key), t) }

  ghost predicate Absent(value: Json, key: Key) { !value.Obj? || key !in value.fields }

  ghost predicate NotArray(value: Json, key: Key) { value.Obj? && key in value.fields && !value.fields[key].Arr? }

  /** The manual-proof section of the payload. */
  ghost predicate Section(payload: Json, section: Json) {
    && payload.Obj? && Validations in payload.fields
    && var v := payload.fields[Validations]; v.Obj? && ManualProofs in v.fields && v.fields[ManualProofs] == section
  }

  ghost predicate UnknownWord(value: Json, key: Key) {
    exists t :: Reads(Field(value, key), t) && Lower(t) != "complete" && Lower(t) != "pending" && Lower(t) != "blocked"
  }

  ghost predicate StepWrong(steps: seq<Json>, n: nat, x: Issue)
    requires n <= |steps|
  {
    match x
    case StepNotObject(i) => i < n && !steps[i].Obj?
    case StepField(i, key) => i < n && steps[i].Obj? && (key == Id || key == Label || key == Key.Status) && Lacks(steps[i], key)
    case StepExitCode(i) => i < n && steps[i].Obj? && !Absent(steps[i], ExitCode) && !IsInteger(steps[i].fields[ExitCode])
    case _ => false
  }

  ghost predicate ProofWrong(proofs: seq<Json>, n: nat, x: Issue)
    requires n <= |proofs|
  {
    match x
    case ProofNotObject(i) => i < n && !proofs[i].Obj?
    case ProofField(i, key) => i < n && proofs[i].Obj? && (key == ProofKey || key == Label || key == Link) && Lacks(proofs[i], key)
    case _ => false
  }

  ghost predicate SectionWrong(section: Json, x: Issue) {
    match x
    case ProofsField(key) =>
      && Absent(section, key)
      && (|| key == Key.Status || key == RequiredCount || key == ProvidedCount || key == MissingCount || key == MissingProofKeys
          || key == MissingProofLabels || key == Blockers || key == Warnings || key == Proofs)
    case ProofsStatus => UnknownWord(section, Key.Status)
    case ProofsCount(key) =>
      && (key == RequiredCount || key == ProvidedCount || key == MissingCount)
      && !Absent(section, key) && (!IsInteger(section.fields[key]) || section.fields[key].n.units < 0)
    case ProofsArray(key) =>
      && NotArray(section, key)
      && (key == MissingProofKeys || key == MissingProofLabels || key == Blockers || key == Warnings || key == Proofs)
    case _ => var proofs := Elements(Field(section, Proofs)); ProofWrong(proofs, |proofs|, x)
  }

  ghost predicate IsState(key: Key) { key == Key.Status || key == CloseoutState || key == AutomationState || key == AoManualState }
  ghost predicate IsList(key: Key) { key == Blockers || key == AutomationBlockers || key == AoManualBlockers || key == Warnings }

  /** When each issue is reported. */
  ghost predicate Wrong(payload: Json, x: Issue) {
    match x
    case NotAnObject => !payload.Obj?
    case MissingField(key) => payload.Obj? && (IsState(key) || key == Steps) && Absent(payload, key)
    case NotText(key) => payload.Obj? && IsState(key) && !Absent(payload, key) && Lacks(payload, key)
    case NotAnArray(key) => (IsList(key) || key == Steps) && NotArray(payload, key)
    case ValidationsNotObject => !Absent(payload, Validations) && !payload.fields[Validations].Obj?
    case ProofsNotObject => exists section :: Section(payload, section) && !section.Obj?
    case StepNotObject(_) => var steps := Elements(Field(payload, Steps)); StepWrong(steps, |steps|, x)
    case StepField(_, _) => var steps := Elements(Field(payload, Steps)); StepWrong(steps, |steps|, x)
    case StepExitCode(_) => var steps := Elements(Field(payload, Steps)); StepWrong(steps, |steps|, x)
    case _ => exists section :: Section(payload, section) && section.Obj? && SectionWrong(section, x)
  }

  // ---------------------------------------------------------------- single fields

  lemma LacksText(value: Json, key: Key)
    ensures Lacks(value, key) <==> !IsText(Field(value, key))
  {
    hide TextOr, Reads, IsText;
    ReadsText(Field(value, key), TextOr(Field(value, key)));
    forall t ensures Reads(Field(value, key), t) <==> t != "" && TextOr(Field(value, key)) == t { ReadsText(Field(value, key), t); }
  }

  lemma StateWrong(payload: Json, key: Key, x: Issue)
    requires payload.Obj? && IsState(key)
    ensures x in StateIssues(payload, key) <==>
            (x == MissingField(key) && Absent(payload, key)) || (x == NotText(key) && !Absent(payload, key) && Lacks(payload, key))
  {
    hide IsText, Lacks;
    LacksText(payload, key);
  }

  lemma ListWrong(payload: Json, key: Key, x: Issue)
    ensures x in ListIssues(payload, key) <==> x == NotAnArray(key) && NotArray(payload, key)
  {
  }

  // ---------------------------------------------------------------- steps and proofs

  lemma BlankWrong(v: Json, key: Key, issue: Issue, x: Issue)
    ensures x in Blank(v, key, issue) <==> x == issue && Lacks(v, key)
  {
    hide IsText, Lacks;
    LacksText(v, key);
  }

  lemma StepIssuesWrong(step: Json, i: nat, x: Issue)
    ensures x in StepIssues(step, i) <==>
            || (x == StepNotObject(i) && !step.Obj?)
            || (x.StepField? && x.i == i && step.Obj? && (x.key == Id || x.key == Label || x.key == Key.Status) && Lacks(step, x.key))
            || (x == StepExitCode(i) && step.Obj? && !Absent(step, ExitCode) && !IsInteger(step.fields[ExitCode]))
  {
    hide Blank, Lacks, IsInteger;
    BlankWrong(step, Id, StepField(i, Id), x);
    BlankWrong(step, Label, StepField(i, Label), x);
    BlankWrong(step, Key.Status, StepField(i, Key.Status), x);
  }

  lemma OneStep(steps: seq<Json>, n: nat, x: Issue)
    requires 0 < n <= |steps|
    ensures StepWrong(steps, n, x) <==> StepWrong(steps, n - 1, x) || x in StepIssues(steps[n - 1], n - 1)
  {
    hide StepIssues, Lacks, IsInteger;
    StepIssuesWrong(steps[n - 1], n - 1, x);
  }

  lemma {:induction false} StepsWrong(steps: seq<Json>, n: nat, x: Issue)
    requires n <= |steps|
    ensures x in StepListIssues(steps, n) <==> StepWrong(steps, n, x)
  {
    hide StepIssues, StepWrong;
    if n > 0 {
      StepsWrong(steps, n - 1, x);
      OneStep(steps, n, x);
    } else {
      NoStep(steps, x);
    }
  }

  lemma NoStep(steps: seq<Json>, x: Issue)
    ensures !StepWrong(steps, 0, x)
  {
    hide Lacks, IsInteger;
  }

  lemma ProofIssuesWrong(proof: Json, i: nat, x: Issue)
    ensures x in ProofIssues(proof, i) <==>
            || (x == ProofNotObject(i) && !proof.Obj?)
            || (x.ProofField? && x.i == i && proof.Obj? && (x.key == ProofKey || x.key == Label || x.key == Link) && Lacks(proof, x.key))
  {
    hide Blank, Lacks;
    BlankWrong(proof, ProofKey, ProofField(i, ProofKey), x);
    BlankWrong(proof, Label, ProofField(i, Label), x);
    BlankWrong(proof, Link, ProofField(i, Link), x);
  }

  lemma OneProof(proofs: seq<Json>, n: nat, x: Issue)
    requires 0 < n <= |proofs|
    ensures ProofWrong(proofs, n, x) <==> ProofWrong(proofs, n - 1, x) || x in ProofIssues(proofs[n - 1], n - 1)
  {
    hide ProofIssues, Lacks;
    ProofIssuesWrong(proofs[n - 1], n - 1, x);
  }

  lemma {:induction false} ProofsWrong(proofs: seq<Json>, n: nat, x: Issue)
    requires n <= |proofs|
    ensures x in ProofListIssues(proofs, n) <==> ProofWrong(proofs, n, x)
  {
    hide ProofIssues, ProofWrong;
    if n > 0 {
      ProofsWrong(proofs, n - 1, x);
      OneProof(proofs, n, x);
    } else {
      NoProof(proofs, x);
    }
  }

  lemma NoProof(proofs: seq<Json>, x: Issue)
    ensures !ProofWrong(proofs, 0, x)
  {
    hide Lacks;
  }

  // ---------------------------------------------------------------- the manual-proof section

  lemma {:induction false} AbsentWrong(value: Json, keys: seq<Key>, n: nat, x: Issue)
    requires n <= |keys|
    ensures x in AbsentFields(value, keys, n) <==> x.ProofsField? && x.key in keys[..n] && Absent(value, x.key)
  {
    if n > 0 {
      AbsentWrong(value, keys, n - 1, x);
      assert keys[..n] == keys[..n - 1] + [keys[n - 1]];
    }
  }

  lemma {:induction false} CountsWrong(value: Json, keys: seq<Key>, n: nat, x: Issue)
    requires n <= |keys|
    ensures x in BadCounts(value, keys, n) <==> x.ProofsCount? && x.key in keys[..n] && CountWrong(value, x.key)
  {
    hide IsInteger;
    if n > 0 {
      CountsWrong(value, keys, n - 1, x);
      assert keys[..n] == keys[..n - 1] + [keys[n - 1]];
    }
  }

  ghost predicate CountWrong(value: Json, key: Key) {
    !Absent(value, key) && (!IsInteger(value.fields[key]) || value.fields[key].n.units < 0)
  }

  lemma {:induction false} ArraysWrong(value: Json, keys: seq<Key>, n: nat, x: Issue)
    requires n <= |keys|
    ensures x in BadArrays(value, keys, n) <==> x.ProofsArray? && x.key in keys[..n] && NotArray(value, x.key)
  {
    if n > 0 {
      ArraysWrong(value, keys, n - 1, x);
      assert keys[..n] == keys[..n - 1] + [keys[n - 1]];
    }
  }

  lemma WordUnknown(value: Json)
    ensures UnknownWord(value, Key.Status) <==> !KnownStatus(value)
  {
    hide TextOr, Reads, IsText, Lower;
    var v := Field(value, Key.Status);
    ReadsText(v, TextOr(v));
    forall t ensures Reads(v, t) <==> t != "" && TextOr(v) == t { ReadsText(v, t); }
  }

  lemma ManualWrong(section: Json, x: Issue)
    requires section.Obj?
    ensures x in ManualIssues(section) <==> IsManual(x) && SectionWrong(section, x)
  {
    hide KnownStatus, UnknownWord, IsInteger, AbsentFields, BadCounts, BadArrays, ProofListIssues, ProofWrong;
    var proofs := Elements(Field(section, Proofs));
    AbsentWrong(section, ProofFields(), 9, x);
    WordUnknown(section);
    CountsWrong(section, ProofCounts(), 3, x);
    ArraysWrong(section, ProofArrays(), 5, x);
    ProofsWrong(proofs, |proofs|, x);
    assert ProofFields()[..9] == ProofFields() && ProofCounts()[..3] == ProofCounts() && ProofArrays()[..5] == ProofArrays();
    OnlyProofs(proofs, x);
  }

  predicate IsManual(x: Issue) {
    x.ProofsField? || x.ProofsStatus? || x.ProofsCount? || x.ProofsArray? || x.ProofNotObject? || x.ProofField?
  }

  lemma OnlyProofs(proofs: seq<Json>, x: Issue)
    ensures ProofWrong(proofs, |proofs|, x) ==> x.ProofNotObject? || x.ProofField?
  {
    hide Lacks;
  }

  lemma SectionIs(payload: Json, section: Json)
    ensures Section(payload, section) <==> ManualSection(payload) == Some(section)
  {
  }

  lemma ValidationsWrong(payload: Json, x: Issue)
    ensures x in ValidationIssues(payload) <==> (x.ValidationsNotObject? || x.ProofsNotObject? || IsManual(x)) && Wrong(payload, x)
  {
    hide ManualIssues, SectionWrong, StepWrong, Lacks, Section, ManualSection;
    forall section ensures Section(payload, section) <==> ManualSection(payload) == Some(section) { SectionIs(payload, section); }
    if ManualSection(payload).Some? {
      var section := ManualSection(payload).value;
      assert Section(payload, section);
      if section.Obj? { ManualWrong(section, x); }
    }
  }

  lemma StepsGroup(payload: Json, x: Issue)
    requires payload.Obj?
    ensures x in StepsIssues(payload) <==>
            || ((x == MissingField(Steps) || x == NotAnArray(Steps)) && Wrong(payload, x))
            || ((x.StepNotObject? || x.StepField? || x.StepExitCode?) && Wrong(payload, x))
  {
    hide StepListIssues, StepWrong, Lacks, SectionWrong, Section;
    var steps := Elements(Field(payload, Steps));
    StepsWrong(steps, |steps|, x);
    OnlySteps(steps, x);
    NoStep([], x);
  }

  lemma OnlySteps(steps: seq<Json>, x: Issue)
    ensures StepWrong(steps, |steps|, x) ==> x.StepNotObject? || x.StepField? || x.StepExitCode?
  {
    hide Lacks, IsInteger;
  }

  lemma StatesGroup(payload: Json, x: Issue)
    requires payload.Obj?
    ensures x in StateIssues(payload, Key.Status) + StateIssues(payload, CloseoutState) + StateIssues(payload, AutomationState)
                 + StateIssues(payload, AoManualState)
            <==> (x.MissingField? || x.NotText?) && IsState(x.key) && Wrong(payload, x)
  {
    hide StateIssues, StepWrong, SectionWrong, Section, Lacks, Absent, NotArray;
    StateWrong(payload, Key.Status, x);
    StateWrong(payload, CloseoutState, x);
    StateWrong(payload, AutomationState, x);
    StateWrong(payload, AoManualState, x);
  }

  lemma ListsGroup(payload: Json, x: Issue)
    requires payload.Obj?
    ensures x in ListIssues(payload, Blockers) + ListIssues(payload, AutomationBlockers) + ListIssues(payload, AoManualBlockers)
                 + ListIssues(payload, Warnings)
            <==> x.NotAnArray? && IsList(x.key) && Wrong(payload, x)
  {
    hide ListIssues, StepWrong, SectionWrong, Section, Lacks, Absent, NotArray;
    ListWrong(payload, Blockers, x);
    ListWrong(payload, AutomationBlockers, x);
    ListWrong(payload, AoManualBlockers, x);
    ListWrong(payload, Warnings, x);
  }

  lemma Groups(payload: Json, x: Issue)
    ensures var states := StateIssues(payload, Key.Status) + StateIssues(payload, CloseoutState) + StateIssues(payload, AutomationState)
                          + StateIssues(payload, AoManualState);
      var lists := ListIssues(payload, Blockers) + ListIssues(payload, AutomationBlockers) + ListIssues(payload, AoManualBlockers)
                   + ListIssues(payload, Warnings);
      x in AllIssues(payload) <==> x in states || x in StepsIssues(payload) || x in ValidationIssues(payload) || x in lists
  {
    hide StateIssues, StepsIssues, ValidationIssues, ListIssues;
  }

  lemma AllWrong(payload: Json, x: Issue)
    requires payload.Obj?
    ensures x in AllIssues(payload) <==> Wrong(payload, x)
  {
    hide AllIssues, StateIssues, StepsIssues, ValidationIssues, ListIssues, StepWrong, SectionWrong, Section, Lacks, Absent, NotArray;
    Groups(payload, x);
    StatesGroup(payload, x);
    StepsGroup(payload, x);
    ValidationsWrong(payload, x);
    ListsGroup(payload, x);
  }

  /** Which issues the validator reports, for every payload; it is malformed exactly when one applies. */
  lemma IssuesExact(payload: Json)
    ensures forall x :: x in Evaluate(payload).issues <==> Wrong(payload, x)
    ensures Evaluate(payload).malformed <==> exists x :: Wrong(payload, x)
  {
    hide AllIssues, AllBlockers, Wrong, StatesReady, SaysBlocked;
    var issues := Evaluate(payload).issues;
    forall x ensures x in issues <==> Wrong(payload, x) {
      if payload.Obj? { AllWrong(payload, x); } else { OnlyNotAnObject(payload, x); }
    }
    if issues != [] { assert issues[0] in issues; }
  }

  lemma OnlyNotAnObject(payload: Json, x: Issue)
    requires !payload.Obj?
    ensures Wrong(payload, x) <==> x == NotAnObject
  {
    hide SectionWrong, Lacks;
    NoStep([], x);
  }

  // ---------------------------------------------------------------- the blockers and the verdict

  ghost predicate Lists(value: Json, key: Key, t: string) {
    !Absent(value, key) && value.fields[key].Arr? && exists e | e in value.fields[key].elems :: Reads(Some(e), t)
  }

  /** The texts that hold the artifact back. */
  ghost predicate HoldsBack(payload: Json, b: string) {
    || Lists(payload, Blockers, b) || Lists(payload, AutomationBlockers, b) || Lists(payload, AoManualBlockers, b)
    || exists section, t :: Section(payload, section) && Lists(section, Blockers, t) && b == "manualProofs: " + t
  }

  ghost predicate StateIs(payload: Json, key: Key, word: string) { exists t :: Reads(Field(payload, key), t) && Lower(t) == word }

  lemma {:induction false} ItemTexts(items: seq<Json>, n: nat, t: string)
    requires n <= |items|
    ensures t in TextItems(items, n) <==> exists k | 0 <= k < n :: Reads(Some(items[k]), t)
  {
    hide Reads, TextOr, IsText;
    if n > 0 {
      ItemTexts(items, n - 1, t);
      ReadsText(Some(items[n - 1]), t);
      ReadsText(Some(items[n - 1]), TextOr(Some(items[n - 1])));
    }
  }

  lemma TextsListed(value: Json, key: Key, t: string)
    ensures t in TextsOf(value, key) <==> Lists(value, key, t)
  {
    hide Reads, TextItems;
    var items := Elements(Field(value, key));
    ItemTexts(items, |items|, t);
    assert forall k | 0 <= k < |items| :: items[k] in items;
  }

  lemma MarkedTexts(payload: Json, b: string)
    ensures b in ManualBlockers(payload) <==> exists section, t :: Section(payload, section) && Lists(section, Blockers, t) && b == "manualProofs: " + t
  {
    hide Section, ManualSection, Lists, TextsOf;
    forall section ensures Section(payload, section) <==> ManualSection(payload) == Some(section) { SectionIs(payload, section); }
    if ManualSection(payload).Some? {
      var section := ManualSection(payload).value;
      assert Section(payload, section);
      var texts := TextsOf(section, Blockers);
      forall t ensures t in texts <==> Lists(section, Blockers, t) { TextsListed(section, Blockers, t); }
      if !section.Obj? { assert forall t :: !Lists(section, Blockers, t) by { NoLists(section, Blockers); } }
      if b in ManualBlockers(payload) {
        var k :| 0 <= k < |texts| && b == Marked(texts[k]);
        assert texts[k] in texts;
      }
    }
  }

  lemma NoLists(section: Json, key: Key)
    requires !section.Obj?
    ensures forall t :: !Lists(section, key, t)
  {
  }

  lemma BlockersHold(payload: Json, b: string)
    ensures b in AllBlockers(payload) <==> HoldsBack(payload, b)
  {
    hide Section, ManualBlockers, Lists, TextsOf;
    TextsListed(payload, Blockers, b);
    TextsListed(payload, AutomationBlockers, b);
    TextsListed(payload, AoManualBlockers, b);
    MarkedTexts(payload, b);
  }

  lemma StateWordIs(payload: Json, key: Key, word: string)
    requires word != ""
    ensures StateWord(payload, key) == word <==> StateIs(payload, key, word)
  {
    hide Reads, TextOr;
    var v := Field(payload, key);
    ReadsText(v, TextOr(v));
    forall t ensures Reads(v, t) <==> t != "" && TextOr(v) == t { ReadsText(v, t); }
    assert |Lower(TextOr(v))| == |TextOr(v)|;
  }

  /** A state word that contains `blocked`. */
  ghost predicate MentionsBlocked(payload: Json) { exists t :: Reads(Field(payload, CloseoutState), t) && Includes(Lower(t), "blocked") }

  lemma WordMentions(payload: Json)
    ensures Includes(StateWord(payload, CloseoutState), "blocked") <==> MentionsBlocked(payload)
  {
    hide Reads, TextOr;
    var v := Field(payload, CloseoutState);
    ReadsText(v, TextOr(v));
    forall t ensures Reads(v, t) <==> t != "" && TextOr(v) == t { ReadsText(v, t); }
    assert |Lower(TextOr(v))| == |TextOr(v)|;
    EmptyMentionsNothing();
  }

  lemma EmptyMentionsNothing()
    ensures Lower("") == "" && !Includes("", "blocked")
  {
  }

  ghost predicate ReadyWords(payload: Json) {
    && StateIs(payload, Key.Status, "ready") && StateIs(payload, CloseoutState, "ready")
    && StateIs(payload, AutomationState, "complete") && StateIs(payload, AoManualState, "complete")
  }

  ghost predicate BlockedWords(payload: Json) {
    || MentionsBlocked(payload) || StateIs(payload, AutomationState, "blocked")
    || StateIs(payload, AoManualState, "blocked") || StateIs(payload, Key.Status, "blocked")
  }

  /** The validator's verdict on every payload: ready exactly when the four state words say so, nothing is wrong and no list
      holds a text; invalid exactly when something is wrong; of the others, blocked exactly for a listed text or a blocked word. */
  lemma EvaluationExact(payload: Json)
    ensures var e := Evaluate(payload);
      && (e.ready <==> ReadyWords(payload) && (forall x :: !Wrong(payload, x)) && forall b :: !HoldsBack(payload, b))
      && (payload.Obj? ==> forall b :: b in e.blockers <==> HoldsBack(payload, b))
      && (e.verdict == Ready <==> e.ready)
      && (e.verdict == Invalid <==> exists x :: Wrong(payload, x))
      && (e.verdict == Blocked <==> (forall x :: !Wrong(payload, x)) && ((exists b :: HoldsBack(payload, b)) || BlockedWords(payload)))
  {
    hide AllIssues, AllBlockers, Wrong, HoldsBack, StateWord, StateIs, MentionsBlocked;
    IssuesExact(payload);
    WordsMean(payload);
    if payload.Obj? {
      var blockers := AllBlockers(payload);
      forall b ensures b in blockers <==> HoldsBack(payload, b) { BlockersHold(payload, b); }
      if blockers != [] { assert blockers[0] in blockers; }
      if StatesReady(payload) { ReadyNotBlocked(payload); }
    } else {
      NoWords(payload);
      assert Wrong(payload, NotAnObject) by { OnlyNotAnObject(payload, NotAnObject); }
    }
  }

  lemma WordsMean(payload: Json)
    ensures StatesReady(payload) <==> ReadyWords(payload)
    ensures SaysBlocked(payload) <==> BlockedWords(payload)
  {
    hide StateWord, StateIs, MentionsBlocked, Includes;
    StateWordIs(payload, Key.Status, "ready");
    StateWordIs(payload, CloseoutState, "ready");
    StateWordIs(payload, AutomationState, "complete");
    StateWordIs(payload, AoManualState, "complete");
    StateWordIs(payload, AutomationState, "blocked");
    StateWordIs(payload, AoManualState, "blocked");
    StateWordIs(payload, Key.Status, "blocked");
    WordMentions(payload);
  }

  lemma NoWords(payload: Json)
    requires !payload.Obj?
    ensures !ReadyWords(payload)
  {
  }

  /** Ready words exclude blocked ones. */
  lemma ReadyNotBlocked(payload: Json)
    requires StatesReady(payload)
    ensures !SaysBlocked(payload)
  {
    hide StateWord;
  }

  // ---------------------------------------------------------------- the artifact

  ghost predicate PrintsTexts(w: Wording, value: Option<Json>, blockers: seq<C.Blocker>) {
    && value.Some? && value.value.Arr? && |value.value.elems| == |blockers|
    && forall k | 0 <= k < |blockers| :: value.value.elems[k] == Str(w.blocker(blockers[k]))
  }

  /** What the artifact of a run says, from the words of its children. */
  lemma ArtifactExact(w: Wording, i: C.Inputs, warnings: seq<string>)
    ensures var d := Artifact(w, i, warnings);
      && Field(d, Key.Status) == Some(Str(if R.LogLost(i.logFile) || i.logExit != 0 then "failed"
                                          else if R.AutomationTrouble(i) || R.ManualTrouble(i) || R.ManualOpen(i) then "blocked" else "ready"))
      && Field(d, CloseoutState) == Some(Str(if R.AutomationTrouble(i) then "automation-blocked" else if R.ManualTrouble(i) then "ao-manual-blocked"
                                             else if R.ManualOpen(i) then "ao-manual-pending" else "ready"))
      && Field(d, AutomationState) == Some(Str(if R.AutomationTrouble(i) then "blocked" else "complete"))
      && Field(d, AoManualState) == Some(Str(if R.ManualTrouble(i) then "blocked" else if R.ManualOpen(i) then "pending" else "complete"))
      && PrintsTexts(w, Field(d, AutomationBlockers), R.AutomationList(i)) && PrintsTexts(w, Field(d, AoManualBlockers), R.ManualList(i))
      && PrintsTexts(w, Field(d, Blockers), R.AutomationList(i) + R.ManualList(i))
  {
    hide C.Total, C.StatusOf, C.CloseoutOf, C.AutomationOf, C.AoManualOf, R.LogLost, R.AutomationTrouble, R.ManualTrouble, R.ManualOpen,
      R.AutomationList, R.ManualList, Artifact, ListIssues, ManualSection, StepDocuments;
    R.ClosesAs(i);
    ArtifactFields(w, i, warnings);
  }
}
