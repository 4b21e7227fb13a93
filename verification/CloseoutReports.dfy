/** The closeout over the documents that the repository's own checks print: it is ready exactly when every check is content. */
module CloseoutReports {
  import opened Numbers
  import opened Strings
  import opened Documents
  import opened Closeout
  import opened CloseoutMeaning
  import AoGate
  import M = ManualProofCheck
  import P = ProductionReadiness

  // ---------------------------------------------------------------- the documents

  /** `rest` stands for the further fields of a document. */
  function GateRan(v: AoGate.Validation, rest: map<Key, Json>): Ran {
    var result := if v.issues != [] then "ERROR" else if v.warnings != [] then "WARNING" else "OK";
    Ran(if v.issues != [] then 3 else 0, Some(Obj(rest + map[ResultKey := Str(result), CloseoutReady := Bool(v.closeoutReady)])))
  }

  function ReadinessRan(r: P.Readiness, strict: bool): Ran {
    Ran(if strict && r.automationBlockers + r.aoManualBlockers != [] then 3 else 0, Some(P.ReadinessDocument(r)))
  }

  predicate HasSeverity(issues: seq<Json>, severity: string) { exists j | j in issues :: Field(j, Severity) == Some(Str(severity)) }

  function HostingRan(issues: seq<Json>, rest: map<Key, Json>): Ran {
    var status := if HasSeverity(issues, "critical") then "fail" else if HasSeverity(issues, "warning") then "warn" else "pass";
    Ran(if HasSeverity(issues, "critical") then 3 else 0, Some(Obj(rest + map[Key.Status := Str(status), Issues := Arr(issues)])))
  }

  /** The summary check prints no status and no blockers. */
  function SummaryRan(issues: seq<Json>, rest: map<Key, Json>): Ran {
    Ran(if issues != [] then 3 else 0, Some(Obj((rest - {Key.Status, Blockers}) + map[Issues := Arr(issues)])))
  }

  function SignoffRan(blockers: seq<Json>, rest: map<Key, Json>): Ran {
    Ran(if blockers != [] then 3 else 0,
        Some(Obj(rest + map[Key.Status := Str(if blockers != [] then "blocked" else "ok"), Blockers := Arr(blockers)])))
  }

  function ProofsRan(log: Json, strict: bool, file: string, blockerText: string, warningText: string, exitCode: Safe): Ran {
    Ran(exitCode, Some(M.AssessmentDocument(M.Assessed(log), strict, file, blockerText, warningText)))
  }

  // ---------------------------------------------------------------- what the words mean here

  lemma WordIs(r: Ran, key: Key, text: string)
    requires Field(Payload(r), key) == Some(Str(text)) && text != "" && !IsSpace(text[0]) && !IsSpace(text[|text| - 1])
    ensures Word(r, key) == Lower(text)
  {
    hide TextOr, IsText, Lower;
    PlainWord(text);
  }

  lemma GateReports(v: AoGate.Validation, rest: map<Key, Json>)
    ensures GateFails(GateRan(v, rest)) <==> v.issues != []
    ensures GateOpens(GateRan(v, rest)) <==> v.issues == [] && v.warnings != []
  {
    hide Word;
    var result := if v.issues != [] then "ERROR" else if v.warnings != [] then "WARNING" else "OK";
    assert Field(Payload(GateRan(v, rest)), ResultKey) == Some(Str(result));
    WordIs(GateRan(v, rest), ResultKey, result);
    assert Lower("ERROR") == "error" && Lower("WARNING") == "warning" && Lower("OK") == "ok";
  }

  /** The evidence check calls a gate ready for closeout exactly when it has neither issues nor warnings. */
  lemma GateReady(rules: AoGate.Rules, gate: Json, strict: bool)
    ensures var v := AoGate.Validated(rules, gate, strict); v.closeoutReady <==> v.issues == [] && v.warnings == []
  {
    hide AoGate.ScanChecks, AoGate.HeadIssues, AoGate.RequiredIssues, AoGate.PresenceIssues, AoGate.Distinct;
  }

  /** A closeout over an evidence check of a gate can be ready only when the check calls the gate ready for closeout. */
  lemma ReadyNeedsGate(i: Inputs, rules: AoGate.Rules, gate: Json, strict: bool, rest: map<Key, Json>)
    requires i.gate == GateRan(AoGate.Validated(rules, gate, strict), rest) && CloseoutOf(Total(i)) == CloseState.Ready
    ensures AoGate.Validated(rules, gate, strict).closeoutReady
  {
    hide GateFails, GateOpens, GateRan, AoGate.Validated, Total, AutomationList, ManualList, ReadinessFails, ReadinessBlocks, HostingFails, RecordFails, ProofsFail, Word, Listed;
    ClosesAs(i);
    GateReports(AoGate.Validated(rules, gate, strict), rest);
    GateReady(rules, gate, strict);
  }

  /** A closeout that would be ready without any blocker over a clean gate: over a gate with warnings alone it ends
      pending with the one blocker about the open gate, over a gate with issues blocked with the one about its failure. */
  lemma OnlyTheGate(i: Inputs, clean: AoGate.Validation, v: AoGate.Validation, rest: map<Key, Json>)
    requires i.gate == GateRan(clean, rest) && clean.issues == [] && clean.warnings == []
    requires CloseoutOf(Total(i)) == CloseState.Ready && BlockersOf(Total(i)) == []
    ensures var e := Total(i.(gate := GateRan(v, rest)));
      && (v.issues == [] && v.warnings != [] ==> CloseoutOf(e) == AoManualPending && BlockersOf(e) == [Note(GateOpen)])
      && (v.issues != [] ==> CloseoutOf(e) == AutomationBlocked && BlockersOf(e) == [Note(GateFailed)])
  {
    hide GateFails, GateOpens, GateRan, Total, ReadinessFails, ReadinessBlocks, HostingFails, RecordFails, ProofsFail, Word, Listed, Reported, All, HostingBlockers, Truthy;
    ClosesAs(i);
    ClosesAs(i.(gate := GateRan(v, rest)));
    GateReports(clean, rest);
    GateReports(v, rest);
  }

  lemma ReadinessReports(r: P.Readiness, strict: bool)
    requires r.automation in {P.Complete, P.Blocked}
    ensures var ran := ReadinessRan(r, strict);
      && !ReadinessFails(ran) && !ReadinessBlocks(ran)
      && (Word(ran, AutomationState) == "blocked" <==> r.automation != P.Complete)
      && (Word(ran, AoManualState) == "blocked" || Word(ran, AoManualState) == "pending" <==> r.aoManual != P.Complete)
  {
    hide Word, P.ReadinessDocument;
    P.ReadinessWords(r, ReadinessRan(r, strict));
    ReadinessStatusWord(r, strict);
  }

  lemma ReadinessStatusWord(r: P.Readiness, strict: bool)
    ensures Word(ReadinessRan(r, strict), Key.Status) == if P.IsReady(r) then "ready" else "blocked"
  {
    hide Word, M.Texts, P.StateText;
    var word := if P.IsReady(r) then "ready" else "blocked";
    assert Field(P.ReadinessDocument(r), Key.Status) == Some(Str(word));
    WordIs(ReadinessRan(r, strict), Key.Status, word);
    assert Lower("ready") == "ready" && Lower("blocked") == "blocked";
  }

  lemma HostingReports(issues: seq<Json>, rest: map<Key, Json>)
    ensures HostingFails(HostingRan(issues, rest)) <==> HasSeverity(issues, "critical")
    ensures Listed(HostingRan(issues, rest), Issues) == issues
  {
    hide Word, HasSeverity;
    var status := if HasSeverity(issues, "critical") then "fail" else if HasSeverity(issues, "warning") then "warn" else "pass";
    assert Field(Payload(HostingRan(issues, rest)), Key.Status) == Some(Str(status));
    WordIs(HostingRan(issues, rest), Key.Status, status);
    assert Lower("fail") == "fail" && Lower("warn") == "warn" && Lower("pass") == "pass";
  }

  lemma SummaryReports(issues: seq<Json>, rest: map<Key, Json>)
    ensures RecordFails(SummaryRan(issues, rest)) <==> issues != []
  {
    hide Word;
    NoWord(SummaryRan(issues, rest), Key.Status);
  }

  lemma SignoffReports(blockers: seq<Json>, rest: map<Key, Json>)
    ensures RecordFails(SignoffRan(blockers, rest)) <==> blockers != []
  {
    hide Word;
    var status := if blockers != [] then "blocked" else "ok";
    assert Field(Payload(SignoffRan(blockers, rest)), Key.Status) == Some(Str(status));
    WordIs(SignoffRan(blockers, rest), Key.Status, status);
    assert Lower("blocked") == "blocked" && Lower("ok") == "ok";
  }

  lemma ProofsReport(log: Json, strict: bool, file: string, b: string, m: string, exitCode: Safe)
    ensures var r := ProofsRan(log, strict, file, b, m, exitCode); var state := M.Assessed(log).state;
      && (ProofsFail(r) <==> state == M.Blocked) && (Word(r, Key.Status) == "pending" <==> state == M.Pending)
      && (Listed(r, Blockers) == [] <==> state != M.Blocked) && (Listed(r, MissingProofLabels) == [] <==> state == M.Complete)
  {
    hide Word, M.Assessed, M.AssessmentDocument, Listed;
    var r, a := ProofsRan(log, strict, file, b, m, exitCode), M.Assessed(log);
    M.AssessmentConsistent(log);
    P.ListsOfAssessment(r, log, strict, file, b, m);
    ProofsWord(r, log, strict, file, b, m);
  }

  lemma ProofsWord(r: Ran, log: Json, strict: bool, file: string, b: string, m: string)
    requires r.parsed == Some(M.AssessmentDocument(M.Assessed(log), strict, file, b, m))
    ensures Word(r, Key.Status) == M.StateText(M.Assessed(log).state)
  {
    hide Word, M.Assessed, M.Texts, M.ProofDocuments;
    var word := M.StateText(M.Assessed(log).state);
    assert Field(Payload(r), Key.Status) == Some(Str(word));
    WordIs(r, Key.Status, word);
    assert Lower("complete") == "complete" && Lower("pending") == "pending" && Lower("blocked") == "blocked";
  }

  // ---------------------------------------------------------------- all seven together

  /** What the seven steps of a closeout found. */
  datatype Findings = Findings(gate: AoGate.Validation, readiness: P.Readiness, hosting: Option<seq<Json>>,
                               summaryIssues: seq<Json>, signoffBlockers: seq<Json>, logExit: Safe, logFile: LogFile, log: Json)

  /** Their further circumstances, which do not matter. */
  datatype Details = Details(strict: bool, gate: map<Key, Json>, hosting: map<Key, Json>, summary: map<Key, Json>, signoff: map<Key, Json>,
                             file: string, blockerText: string, warningText: string, proofsExit: Safe)

  function InputsOf(f: Findings, d: Details): Inputs {
    Inputs(GateRan(f.gate, d.gate), ReadinessRan(f.readiness, d.strict),
           if f.hosting.Some? then Some(HostingRan(f.hosting.value, d.hosting)) else None,
           SummaryRan(f.summaryIssues, d.summary), SignoffRan(f.signoffBlockers, d.signoff), f.logExit, f.logFile,
           ProofsRan(f.log, d.strict, d.file, d.blockerText, d.warningText, d.proofsExit))
  }

  /** A closeout is ready exactly when the gate has no issues and no warnings, the readiness check is ready, the hosting
      check has no critical issue, the summary and the sign-off record have nothing open, the evidence log was written and
      is complete, and every manual proof is linked. */
  lemma ReadyExactly(f: Findings, d: Details)
    requires f.readiness.automation in {P.Complete, P.Blocked}
    ensures CloseoutOf(Total(InputsOf(f, d))) == CloseState.Ready <==>
      && f.gate.issues == [] && f.gate.warnings == []
      && P.IsReady(f.readiness)
      && (f.hosting.Some? ==> !HasSeverity(f.hosting.value, "critical"))
      && f.summaryIssues == [] && f.signoffBlockers == []
      && f.logExit == 0 && f.logFile.LogRead? && (Truthy(f.logFile.log) ==> Field(f.logFile.log, Key.Status) == Some(Str("complete")))
      && M.Assessed(f.log).state == M.Complete
  {
    hide Total, AutomationList, ManualList, Word, Listed, GateFails, GateOpens, ReadinessFails, ReadinessBlocks, HostingFails, RecordFails, ProofsFail, M.Assessed;
    hide GateRan, ReadinessRan, HostingRan, SummaryRan, SignoffRan, ProofsRan;
    ClosesAs(InputsOf(f, d));
    GateReports(f.gate, d.gate);
    ReadinessReports(f.readiness, d.strict);
    if f.hosting.Some? { HostingReports(f.hosting.value, d.hosting); }
    SummaryReports(f.summaryIssues, d.summary);
    SignoffReports(f.signoffBlockers, d.signoff);
    ProofsReport(f.log, d.strict, d.file, d.blockerText, d.warningText, d.proofsExit);
  }
}
