/** The two verdicts before production: the decommission readiness check and the GO/NO-GO summary built on it. */
module ProductionReadiness {
  import opened Strings
  import opened Sorting
  import opened Documents
  import AoGate
  import M = ManualProofCheck
  import C = Closeout

  /** A JSON file as its reader finds it. */
  datatype JsonFile = Absent | Unparsable | Holds(value: Json)

  datatype State = Complete | Pending | Blocked

  /** The texts of the messages, and the rewriting that turns a message into an instruction. */
  datatype Wording = Wording(gate: AoGate.Blocker -> string, gateAbsent: string, gateUnparsable: string,
                             logAbsent: string, logUnparsable: string, logNotObject: string, missingLink: string -> string,
                             actionable: string -> string)

  /** No message is blank, and rewriting keeps it that way. */
  ghost predicate Worded(w: Wording) {
    && (forall b :: NonBlank(w.gate(b))) && NonBlank(w.gateAbsent) && NonBlank(w.gateUnparsable)
    && NonBlank(w.logAbsent) && NonBlank(w.logUnparsable) && NonBlank(w.logNotObject)
    && (forall l :: NonBlank(w.missingLink(l))) && (forall m :: NonBlank(m) ==> NonBlank(w.actionable(m)))
  }

  // ---------------------------------------------------------------- readiness

  datatype Readiness = Readiness(automation: State, aoManual: State, automationBlockers: seq<string>, aoManualBlockers: seq<string>)

  function GateTexts(w: Wording, blockers: seq<AoGate.Blocker>): (r: seq<string>)
    ensures |r| == |blockers|
  {
    seq(|blockers|, i requires 0 <= i < |blockers| => w.gate(blockers[i]))
  }

  function GateValue(file: JsonFile): Json { if file.Holds? then file.value else Null }

  function FileBlockers(w: Wording, file: JsonFile): seq<string> {
    match file
    case Absent => [w.gateAbsent]
    case Unparsable => [w.gateUnparsable]
    case Holds(_) => []
  }

  function FromGate(s: AoGate.GateState): State {
    match s
    case Complete => Complete
    case Pending => Pending
    case GateBlocked => Blocked
  }

  /** `assessDecommissionReadiness`, given what the artifact checks pushed. */
  function Assess(w: Wording, automationBlockers: seq<string>, gateFile: JsonFile): Readiness {
    var gate := AoGate.GateSummary(GateValue(gateFile));
    Readiness(if automationBlockers == [] then Complete else Blocked, FromGate(gate.status), automationBlockers,
              FileBlockers(w, gateFile) + GateTexts(w, gate.blockers))
  }

  predicate IsReady(r: Readiness) { r.automation == Complete && r.aoManual == Complete }

  /** Each channel is complete exactly when its blocker list is empty, so the check is ready exactly when it has no blocker. */
  lemma ChannelsMatch(w: Wording, automationBlockers: seq<string>, gateFile: JsonFile)
    ensures var r := Assess(w, automationBlockers, gateFile);
      && (r.automation == Complete <==> r.automationBlockers == [])
      && (r.aoManual == Complete <==> r.aoManualBlockers == [])
      && (IsReady(r) <==> r.automationBlockers + r.aoManualBlockers == [])
  {
    hide AoGate.GateSummary;
    AoGate.GateCounts(GateValue(gateFile));
    NoGate();
  }

  lemma NoGate()
    ensures AoGate.GateSummary(Null).status == AoGate.GateBlocked
  {
  }

  // ---------------------------------------------------------------- distinct texts

  /** The distinct trimmed texts among the first `n` values. */
  function Unique(values: seq<string>, n: nat): seq<string>
    requires n <= |values|
  {
    if n == 0 then []
    else
      var seen, text := Unique(values, n - 1), Trim(values[n - 1]);
      if text == "" || text in seen then seen else seen + [text]
  }

  method UniqueStrings(values: seq<string>) returns (output: seq<string>)
    ensures output == Unique(values, |values|)
  {
    hide Trim;
    var seen: set<string> := {};
    output := [];
    for i := 0 to |values|
      invariant output == Unique(values, i)
      invariant forall s :: s in seen <==> s in output
    {
      var normalized := Trim(values[i]);
      if normalized != "" && normalized !in seen {
        seen := seen + {normalized};
        output := output + [normalized];
      }
    }
  }

  lemma {:induction false} UniqueAre(values: seq<string>, n: nat)
    requires n <= |values|
    ensures NoDuplicates(Unique(values, n))
    ensures forall s :: s in Unique(values, n) <==> s != "" && exists i | 0 <= i < n :: Trim(values[i]) == s
  {
    hide Trim;
    if n > 0 { UniqueAre(values, n - 1); }
  }

  /** De-duplication of non-blank texts loses the list only when it was empty. */
  lemma {:induction false} UniqueEmpty(values: seq<string>, n: nat)
    requires n <= |values| && forall i | 0 <= i < n :: NonBlank(values[i])
    ensures Unique(values, n) == [] <==> n == 0
    ensures forall i | 0 <= i < |Unique(values, n)| :: NonBlank(Unique(values, n)[i])
  {
    hide Trim;
    if n > 0 {
      UniqueEmpty(values, n - 1);
      TrimIdempotent(values[n - 1]);
    }
  }

  function Distinct(values: seq<string>): seq<string> { Unique(values, |values|) }

  function Rewritten(w: Wording, values: seq<string>): (r: seq<string>)
    ensures |r| == |values| && forall i | 0 <= i < |values| :: r[i] == w.actionable(values[i])
  {
    seq(|values|, i requires 0 <= i < |values| => w.actionable(values[i]))
  }

  // ---------------------------------------------------------------- GO or NO-GO

  datatype ProofReport = ProofReport(state: M.ProofState, blockers: seq<string>)

  function MissingLinks(w: Wording, labels: seq<string>): (r: seq<string>)
    ensures |r| == |labels| && forall i | 0 <= i < |labels| :: r[i] == w.missingLink(labels[i])
  {
    seq(|labels|, i requires 0 <= i < |labels| => w.missingLink(labels[i]))
  }

  /** `readManualProofSummary` */
  function ReadProofs(w: Wording, logFile: JsonFile): ProofReport {
    match logFile
    case Absent => ProofReport(M.Blocked, [w.logAbsent])
    case Unparsable => ProofReport(M.Blocked, [w.logUnparsable])
    case Holds(log) =>
      var a := M.Assessed(log);
      ProofReport(a.state, (if a.blocked then [w.logNotObject] else []) + MissingLinks(w, a.missingLabels))
  }

  /** `normalizeManualProofState` */
  function ProofState(p: ProofReport): State {
    if p.blockers != [] then Blocked else if p.state == M.Complete then Complete else Pending
  }

  /** `computeAoManualState` */
  function Joined(a: State, b: State): State {
    if a == Blocked || b == Blocked then Blocked else if a == Pending || b == Pending then Pending else Complete
  }

  datatype Summary = Summary(go: bool, closeout: C.CloseState, aoManual: State, proofs: State,
                             automationBlockers: seq<string>, aoManualBlockers: seq<string>, proofBlockers: seq<string>,
                             blockers: seq<string>)

  function CloseoutOf(automation: State, aoManual: State): C.CloseState {
    if automation != Complete then C.AutomationBlocked
    else match aoManual
      case Complete => C.CloseState.Ready
      case Pending => C.AoManualPending
      case Blocked => C.AoManualBlocked
  }

  /** The summary before the fallback blocker. */
  function Summarize(w: Wording, r: Readiness, logFile: JsonFile): Summary {
    var proofs := ReadProofs(w, logFile);
    var aoManual := Joined(r.aoManual, ProofState(proofs));
    var closeout := CloseoutOf(r.automation, aoManual);
    var automation, gate, manual := Distinct(Rewritten(w, r.automationBlockers)), Distinct(Rewritten(w, r.aoManualBlockers)), Distinct(Rewritten(w, proofs.blockers));
    Summary(closeout == C.CloseState.Ready, closeout, aoManual, ProofState(proofs), automation, gate, manual, Distinct(automation + gate + manual))
  }

  method BuildSummary(w: Wording, automationBlockers: seq<string>, gateFile: JsonFile, logFile: JsonFile, fallback: C.CloseState -> string)
    returns (s: Summary)
    requires Worded(w) && forall i | 0 <= i < |automationBlockers| :: NonBlank(automationBlockers[i])
    ensures s == Summarize(w, Assess(w, automationBlockers, gateFile), logFile)
  {
    hide Assess, ReadProofs, Unique, Rewritten, Worded;
    var readiness := Assess(w, automationBlockers, gateFile);
    var proofs := ReadProofs(w, logFile);
    var manualProofState := ProofState(proofs);
    var aoManualState := Joined(readiness.aoManual, manualProofState);
    var closeoutState := CloseoutOf(readiness.automation, aoManualState);
    var automation := UniqueStrings(Rewritten(w, readiness.automationBlockers));
    var aoManual := UniqueStrings(Rewritten(w, readiness.aoManualBlockers));
    var manual := UniqueStrings(Rewritten(w, proofs.blockers));
    var blockers := UniqueStrings(automation + aoManual + manual);
    var go := closeoutState == C.CloseState.Ready;
    FallbackNeverNeeded(w, automationBlockers, gateFile, logFile);
    if !go && blockers == [] {
      blockers := blockers + [fallback(closeoutState)];
    }
    s := Summary(go, closeoutState, aoManualState, manualProofState, automation, aoManual, manual, blockers);
  }

  lemma DistinctEmpty(w: Wording, values: seq<string>)
    requires Worded(w) && forall i | 0 <= i < |values| :: NonBlank(values[i])
    ensures Distinct(Rewritten(w, values)) == [] <==> values == []
    ensures forall i | 0 <= i < |Distinct(Rewritten(w, values))| :: NonBlank(Distinct(Rewritten(w, values))[i])
  {
    hide NonBlank, Unique;
    UniqueEmpty(Rewritten(w, values), |values|);
  }

  lemma ProofTexts(w: Wording, logFile: JsonFile)
    requires Worded(w)
    ensures var p := ReadProofs(w, logFile);
      && (forall i | 0 <= i < |p.blockers| :: NonBlank(p.blockers[i]))
      && (ProofState(p) == Complete <==> p.blockers == []) && ProofState(p) != Pending
  {
    hide NonBlank, M.Assessed;
    if logFile.Holds? { M.AssessmentConsistent(logFile.value); }
  }

  lemma GateTextsFine(w: Wording, automationBlockers: seq<string>, gateFile: JsonFile)
    requires Worded(w)
    ensures var r := Assess(w, automationBlockers, gateFile); forall i | 0 <= i < |r.aoManualBlockers| :: NonBlank(r.aoManualBlockers[i])
  {
    hide NonBlank, AoGate.GateSummary;
  }

  /** The decision is GO exactly when the rewritten, de-duplicated blocker list is empty, so the fallback blocker is never
      pushed; and the manual proofs are never reported pending, since every missing link is a blocker. */
  lemma FallbackNeverNeeded(w: Wording, automationBlockers: seq<string>, gateFile: JsonFile, logFile: JsonFile)
    requires Worded(w) && forall i | 0 <= i < |automationBlockers| :: NonBlank(automationBlockers[i])
    ensures var s := Summarize(w, Assess(w, automationBlockers, gateFile), logFile);
      && (s.go <==> s.blockers == [])
      && s.proofs != Pending
      && (s.proofs == Complete <==> s.proofBlockers == [])
  {
    hide Assess, ReadProofs, Worded, Rewritten, Distinct, NonBlank, ProofState;
    var r := Assess(w, automationBlockers, gateFile);
    ChannelsMatch(w, automationBlockers, gateFile);
    GateTextsFine(w, automationBlockers, gateFile);
    ProofTexts(w, logFile);
    AutomationList(w, automationBlockers, gateFile);
    DistinctEmpty(w, r.automationBlockers);
    DistinctEmpty(w, r.aoManualBlockers);
    DistinctEmpty(w, ReadProofs(w, logFile).blockers);
    var s := Summarize(w, r, logFile);
    CombinedEmpty(s.automationBlockers, s.aoManualBlockers, s.proofBlockers);
  }

  lemma AutomationList(w: Wording, automationBlockers: seq<string>, gateFile: JsonFile)
    ensures Assess(w, automationBlockers, gateFile).automationBlockers == automationBlockers
  {
    hide AoGate.GateSummary;
  }

  lemma CombinedEmpty(a: seq<string>, b: seq<string>, c: seq<string>)
    requires (forall i | 0 <= i < |a| :: NonBlank(a[i])) && (forall i | 0 <= i < |b| :: NonBlank(b[i])) && (forall i | 0 <= i < |c| :: NonBlank(c[i]))
    ensures Distinct(a + b + c) == [] <==> a == [] && b == [] && c == []
  {
    hide NonBlank, Unique;
    var all := a + b + c;
    forall i | 0 <= i < |all| ensures NonBlank(all[i]) {
      if i < |a| {} else if i < |a| + |b| { assert all[i] == b[i - |a|]; } else { assert all[i] == c[i - |a| - |b|]; }
    }
    UniqueEmpty(all, |all|);
  }

  // ---------------------------------------------------------------- the closeout and the summary

  function StateText(s: State): string {
    match s
    case Complete => "complete"
    case Pending => "pending"
    case Blocked => "blocked"
  }

  /** What the readiness check prints with `--json`, as far as the closeout reads it. */
  function ReadinessDocument(r: Readiness): Json {
    Obj(map[Status := Str(if IsReady(r) then "ready" else "blocked"), AutomationState := Str(StateText(r.automation)),
            AoManualState := Str(StateText(r.aoManual)), Blockers := M.Texts(r.automationBlockers + r.aoManualBlockers),
            AutomationBlockers := M.Texts(r.automationBlockers), AoManualBlockers := M.Texts(r.aoManualBlockers)])
  }

  lemma StateWord(s: State)
    ensures TextOr(Some(Str(StateText(s)))) == StateText(s) && Lower(StateText(s)) == StateText(s)
  {
    hide TextOr, IsText;
    PlainWord(StateText(s));
  }

  lemma DocumentStates(r: Readiness)
    ensures Field(ReadinessDocument(r), AutomationState) == Some(Str(StateText(r.automation)))
    ensures Field(ReadinessDocument(r), AoManualState) == Some(Str(StateText(r.aoManual)))
  {
    hide StateText;
  }

  lemma ReadinessWords(r: Readiness, ran: C.Ran)
    requires ran.parsed == Some(ReadinessDocument(r))
    ensures C.Word(ran, AutomationState) == StateText(r.automation) && C.Word(ran, AoManualState) == StateText(r.aoManual)
  {
    hide TextOr, StateText, Lower, ReadinessDocument, Field, IsText;
    StateWord(r.automation);
    StateWord(r.aoManual);
    DocumentStates(r);
  }

  lemma NoFlags(i: C.Inputs)
    requires C.StatusOf(C.Total(i)) == C.RunReady
    ensures var e := C.ReadinessEffect(i.readiness); !e.automation && !e.manualBlocked && !e.manualPending
    ensures var e := C.ProofsEffect(i.proofs); !e.manualBlocked && !e.manualPending
  {
    hide C.GateEffect, C.ReadinessEffect, C.HostingEffect, C.SummaryEffect, C.SignoffEffect, C.LogEffect, C.ProofsEffect, C.After, C.EffectOf;
    C.Unfold(i);
  }

  lemma CleanReadiness(r: Readiness, ran: C.Ran)
    requires r.automation in {Complete, Blocked} && ran.parsed == Some(ReadinessDocument(r))
    requires var e := C.ReadinessEffect(ran); !e.automation && !e.manualBlocked && !e.manualPending
    ensures IsReady(r)
  {
    hide C.Word, C.Listed, C.EachOr, C.StepStatus, ReadinessDocument;
    ReadinessWords(r, ran);
  }

  lemma CleanProofs(log: Json, ran: C.Ran, strict: bool, file: string, b: string, m: string)
    requires ran.parsed == Some(M.AssessmentDocument(M.Assessed(log), strict, file, b, m))
    requires var e := C.ProofsEffect(ran); !e.manualBlocked && !e.manualPending
    ensures M.Assessed(log).missingLabels == [] && !M.Assessed(log).blocked
  {
    hide C.Listed, C.StepStatus, M.Assessed, M.AssessmentDocument;
    ListsOfAssessment(ran, log, strict, file, b, m);
  }

  /** A closeout that ends `ready` over the same readiness report and the same evidence log means GO. */
  lemma CloseoutReadyMeansGo(w: Wording, r: Readiness, log: Json, i: C.Inputs, strict: bool, file: string, b: string, m: string)
    requires r.automation in {Complete, Blocked}
    requires i.readiness.parsed == Some(ReadinessDocument(r))
    requires i.proofs.parsed == Some(M.AssessmentDocument(M.Assessed(log), strict, file, b, m))
    requires C.StatusOf(C.Total(i)) == C.RunReady
    ensures Summarize(w, r, Holds(log)).go
  {
    hide C.ReadinessEffect, C.ProofsEffect, C.StatusOf, C.Total, M.Assessed, ReadinessDocument, M.AssessmentDocument, Distinct;
    NoFlags(i);
    CleanReadiness(r, i.readiness);
    CleanProofs(log, i.proofs, strict, file, b, m);
    M.AssessmentConsistent(log);
  }

  lemma ListsOfAssessment(ran: C.Ran, log: Json, strict: bool, file: string, b: string, m: string)
    requires ran.parsed == Some(M.AssessmentDocument(M.Assessed(log), strict, file, b, m))
    ensures |C.Listed(ran, MissingProofLabels)| == |M.Assessed(log).missingLabels|
    ensures |C.Listed(ran, Blockers)| == if M.Assessed(log).blocked then 1 else 0
  {
    hide M.Assessed;
    var a := M.Assessed(log);
    assert C.Listed(ran, MissingProofLabels) == M.Texts(a.missingLabels).elems;
    assert C.Listed(ran, Blockers) == M.Texts(if a.blocked then [b] else []).elems;
  }

  /** The two scripts name a missing proof link differently: pending for the closeout, blocked for the summary. */
  lemma MissingLinkIsBlocked(w: Wording, r: Readiness, log: Json)
    requires Worded(w) && IsReady(r) && M.Assessed(log).state == M.Pending
    ensures Summarize(w, r, Holds(log)).closeout == C.AoManualBlocked
  {
    hide M.Assessed, Distinct, Worded, Rewritten, M.Filled, MissingLinks;
    M.AssessmentConsistent(log);
  }
}
