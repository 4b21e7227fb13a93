/** What a closeout makes of the words its seven children report, step by step and in the end. */
module CloseoutMeaning {
  import opened Numbers
  import opened Strings
  import opened Documents
  import opened Closeout

  // ---------------------------------------------------------------- what the children say

  predicate GateFails(r: Ran) { Word(r, ResultKey) != "ok" && Word(r, ResultKey) != "warning" && r.exitCode != 0 }

  predicate GateOpens(r: Ran) {
    || Word(r, ResultKey) == "warning"
    || (Word(r, ResultKey) != "ok" && r.exitCode == 0 && Field(Payload(r), CloseoutReady) != Some(Bool(true)))
  }

  predicate ReadinessFails(r: Ran) { Word(r, Key.Status) != "ready" && Word(r, Key.Status) != "blocked" && r.exitCode != 0 }

  predicate Unsplit(r: Ran) { Word(r, AutomationState) == "" && Word(r, AoManualState) == "" }

  /** A report without separate states that does not say `ready`. */
  predicate ReadinessBlocks(r: Ran) {
    Unsplit(r) && Word(r, Key.Status) != "ready" && (Word(r, Key.Status) == "blocked" || r.exitCode == 0)
  }

  predicate HostingFails(r: Ran) {
    || Word(r, Key.Status) == "fail"
    || (Word(r, Key.Status) != "pass" && Word(r, Key.Status) != "warn" && (r.exitCode != 0 || r.parsed.None?))
  }

  /** A record check (summary or sign-off) that does not pass. */
  predicate RecordFails(r: Ran) { Word(r, Key.Status) != "complete" && (Word(r, Key.Status) == "blocked" || r.exitCode != 0 || r.parsed.None?) }

  predicate LogLost(file: LogFile) { !file.LogRead? }
  predicate LogOpen(file: LogFile) { file.LogRead? && Truthy(file.log) && Field(file.log, Key.Status) != Some(Str("complete")) }

  predicate ProofsFail(r: Ran) {
    || Word(r, Key.Status) == "blocked"
    || (Word(r, Key.Status) != "complete" && Word(r, Key.Status) != "pending" && (r.exitCode != 0 || r.parsed.None?))
  }

  // ---------------------------------------------------------------- what follows

  predicate AutomationTrouble(i: Inputs) {
    || GateFails(i.gate)
    || ReadinessFails(i.readiness) || ReadinessBlocks(i.readiness) || Word(i.readiness, AutomationState) == "blocked"
    || (i.hosting.Some? && (HostingFails(i.hosting.value) || exists j | j in Listed(i.hosting.value, Issues) :: IsCritical(j)))
    || RecordFails(i.summary) || RecordFails(i.signoff)
    || LogLost(i.logFile) || LogOpen(i.logFile) || i.logExit != 0
    || ProofsFail(i.proofs)
  }

  predicate ManualTrouble(i: Inputs) { Word(i.readiness, AoManualState) == "blocked" || Listed(i.proofs, Blockers) != [] }

  predicate ManualOpen(i: Inputs) {
    || GateOpens(i.gate) || Word(i.readiness, AoManualState) == "pending"
    || Word(i.proofs, Key.Status) == "pending" || Listed(i.proofs, MissingProofLabels) != []
  }

  function When(c: bool, notice: Notice): seq<Blocker> { if c then [Note(notice)] else [] }

  /** The reported items, or a note when there are none. */
  function Reported(c: bool, source: Source, items: seq<Json>, notice: Notice): (r: seq<Blocker>)
    ensures !c ==> r == []
    ensures c && items == [] ==> r == [Note(notice)]
    ensures c && items != [] ==> |r| == |items| && forall k | 0 <= k < |items| :: r[k] == Item(source, items[k])
  {
    if !c then [] else if items == [] then [Note(notice)] else seq(|items|, k requires 0 <= k < |items| => Item(source, items[k]))
  }

  /** The messages of the critical issues among the first `n`. */
  function Critical(issues: seq<Json>, n: nat): seq<Blocker>
    requires n <= |issues|
  {
    if n == 0 then []
    else Critical(issues, n - 1)
         + if Field(issues[n - 1], Severity) != Some(Str("critical")) then []
           else if Field(issues[n - 1], Message).Some? then [Item(FromHosting, Field(issues[n - 1], Message).value)] else [Item(FromHosting, Null)]
  }

  function HostingBlockers(r: Option<Ran>): seq<Blocker> {
    if r.None? then []
    else
      var issues := Listed(r.value, Issues);
      When(HostingFails(r.value), HostingFailed) + Critical(issues, |issues|)
  }

  function All(source: Source, items: seq<Json>): (r: seq<Blocker>)
    ensures |r| == |items| && forall k | 0 <= k < |items| :: r[k] == Item(source, items[k])
  {
    seq(|items|, k requires 0 <= k < |items| => Item(source, items[k]))
  }

  /** The automation blockers of a closeout, in order. */
  function AutomationList(i: Inputs): seq<Blocker> {
    var r := i.readiness;
    When(GateFails(i.gate), GateFailed)
    + (When(ReadinessFails(r), ReadinessFailed)
       + Reported(ReadinessBlocks(r), FromReadiness, Listed(r, Blockers), ReadinessBlocked)
       + Reported(Word(r, AutomationState) == "blocked", FromReadiness, Listed(r, AutomationBlockers), ReadinessAutomation))
    + HostingBlockers(i.hosting)
    + (When(RecordFails(i.summary), SummaryBlocked) + (All(FromSummary, Listed(i.summary, Issues)) + All(FromSummary, Listed(i.summary, Blockers))))
    + (When(RecordFails(i.signoff), SignoffBlocked) + All(FromSignoff, Listed(i.signoff, Blockers)))
    + (When(i.logFile == LogAbsent, LogMissing) + When(i.logFile == LogUnreadable, LogInvalid) + When(LogOpen(i.logFile), LogIncomplete)
       + When(i.logExit != 0, LogStepFailed))
    + When(ProofsFail(i.proofs), ProofsFailed)
  }

  /** The AO and manual blockers of a closeout, in order. */
  function ManualList(i: Inputs): seq<Blocker> {
    var r := i.readiness;
    When(GateOpens(i.gate), GateOpen)
    + (Reported(Word(r, AoManualState) == "blocked", FromReadiness, Listed(r, AoManualBlockers), ReadinessManual)
       + Reported(Word(r, AoManualState) == "pending", FromReadiness, Listed(r, AoManualBlockers), ReadinessPending))
    + (All(FromProofs, Listed(i.proofs, Blockers)) + All(MissingProof, Listed(i.proofs, MissingProofLabels)))
  }

  // ---------------------------------------------------------------- step by step

  lemma GateMeans(r: Ran)
    ensures GateEffect(r) == Effect(GateFails(r), false, GateOpens(r), false, When(GateFails(r), GateFailed), When(GateOpens(r), GateOpen))
  {
    hide Word;
    NoWordWithoutPayload(r, ResultKey);
  }

  lemma NoWordWithoutPayload(r: Ran, key: Key)
    ensures r.parsed.None? ==> Word(r, key) == ""
  {
    if r.parsed.None? { NoWord(r, key); }
  }

  lemma ReadinessMeans(r: Ran)
    ensures ReadinessEffect(r) == Effect(
      ReadinessFails(r) || ReadinessBlocks(r) || Word(r, AutomationState) == "blocked",
      Word(r, AoManualState) == "blocked", Word(r, AoManualState) == "pending", false,
      When(ReadinessFails(r), ReadinessFailed)
      + Reported(ReadinessBlocks(r), FromReadiness, Listed(r, Blockers), ReadinessBlocked)
      + Reported(Word(r, AutomationState) == "blocked", FromReadiness, Listed(r, AutomationBlockers), ReadinessAutomation),
      Reported(Word(r, AoManualState) == "blocked", FromReadiness, Listed(r, AoManualBlockers), ReadinessManual)
      + Reported(Word(r, AoManualState) == "pending", FromReadiness, Listed(r, AoManualBlockers), ReadinessPending))
  {
    hide Word, Listed, EachOr, Reported, StepStatus, When;
    ReadinessStatus(r);
    SameReports(FromReadiness, Listed(r, Blockers), ReadinessBlocked);
    SameReports(FromReadiness, Listed(r, AutomationBlockers), ReadinessAutomation);
    SameReports(FromReadiness, Listed(r, AoManualBlockers), ReadinessManual);
    SameReports(FromReadiness, Listed(r, AoManualBlockers), ReadinessPending);
    WhenIs(ReadinessFailed);
    OwnReadiness(r);
  }

  lemma WhenIs(notice: Notice)
    ensures When(true, notice) == [Note(notice)] && When(false, notice) == []
  {
  }

  lemma OwnReadiness(r: Ran)
    ensures ReadinessOwn(r) == Effect(ReadinessFails(r) || ReadinessBlocks(r), false, false, false,
      When(ReadinessFails(r), ReadinessFailed) + Reported(ReadinessBlocks(r), FromReadiness, Listed(r, Blockers), ReadinessBlocked), [])
  {
    hide Word, Listed, EachOr, StepStatus, Reported;
    ReadinessStatus(r);
    SameReports(FromReadiness, Listed(r, Blockers), ReadinessBlocked);
  }

  lemma ReadinessStatus(r: Ran)
    ensures StepStatus(Readiness, r) == Failed <==> ReadinessFails(r)
    ensures StepStatus(Readiness, r) == Blocked <==> Word(r, Key.Status) != "ready" && !ReadinessFails(r)
  {
    hide Word;
    NoWordWithoutPayload(r, Key.Status);
  }

  lemma SameReports(source: Source, items: seq<Json>, notice: Notice)
    ensures Reported(true, source, items, notice) == EachOr(source, items, notice) && Reported(false, source, items, notice) == []
  {
  }

  lemma HostingMeans(r: Ran)
    ensures HostingEffect(r) == Effect(HostingFails(r) || exists j | j in Listed(r, Issues) :: IsCritical(j), false, false, false, HostingBlockers(Some(r)), [])
  {
    hide Word, Listed, CriticalIssues, Critical, StepStatus, HostingFails;
    var issues := Listed(r, Issues);
    HostingStatus(r);
    SameCritical(issues, |issues|);
    NothingCritical(issues, |issues|);
  }

  lemma HostingStatus(r: Ran)
    ensures StepStatus(Hosting, r) == Failed <==> HostingFails(r)
  {
    hide Word;
    NoWordWithoutPayload(r, Key.Status);
  }

  lemma {:induction false} SameCritical(issues: seq<Json>, n: nat)
    requires n <= |issues|
    ensures Critical(issues, n) == CriticalIssues(issues, n)
  {
    if n > 0 { SameCritical(issues, n - 1); }
  }

  lemma RecordStatus(id: StepId, r: Ran)
    requires id in {Summary, Signoff}
    ensures StepStatus(id, r) != Passed <==> RecordFails(r)
  {
    hide Word;
    NoWordWithoutPayload(r, Key.Status);
  }

  lemma RecordsMean(summary: Ran, signoff: Ran)
    ensures SummaryEffect(summary) == Effect(RecordFails(summary), false, false, false,
      When(RecordFails(summary), SummaryBlocked) + (All(FromSummary, Listed(summary, Issues)) + All(FromSummary, Listed(summary, Blockers))), [])
    ensures SignoffEffect(signoff) == Effect(RecordFails(signoff), false, false, false,
      When(RecordFails(signoff), SignoffBlocked) + All(FromSignoff, Listed(signoff, Blockers)), [])
  {
    hide Listed, StepStatus, RecordFails;
    RecordStatus(Summary, summary);
    RecordStatus(Signoff, signoff);
  }

  lemma LogMeans(exitCode: Safe, file: LogFile)
    ensures LogEffect(exitCode, file) == Effect(LogLost(file) || LogOpen(file) || exitCode != 0, false, false, LogLost(file) || exitCode != 0,
      When(file == LogAbsent, LogMissing) + When(file == LogUnreadable, LogInvalid) + When(LogOpen(file), LogIncomplete)
      + When(exitCode != 0, LogStepFailed), [])
  {
    hide Truthy, Field;
  }

  lemma ProofsMean(r: Ran)
    ensures ProofsEffect(r) == Effect(ProofsFail(r), Listed(r, Blockers) != [],
      Word(r, Key.Status) == "pending" || Listed(r, MissingProofLabels) != [], false, When(ProofsFail(r), ProofsFailed),
      All(FromProofs, Listed(r, Blockers)) + All(MissingProof, Listed(r, MissingProofLabels)))
  {
    hide Listed, StepStatus, ProofsFail, Word;
    ProofsStatus(r);
    ProofStatuses(r);
    assert forall b: seq<Blocker> :: b + [] == b && [] + b == b;
  }

  lemma ProofsStatus(r: Ran)
    ensures StepStatus(ProofLinks, r) == Failed <==> ProofsFail(r)
    ensures StepStatus(ProofLinks, r) == Blocked <==> Word(r, Key.Status) == "pending"
  {
    hide Word;
    NoWordWithoutPayload(r, Key.Status);
  }

  // ---------------------------------------------------------------- in the end

  /** For every closeout: what the children's words come to. */
  lemma ClosesAs(i: Inputs)
    ensures Total(i).adds == AutomationList(i) && Total(i).manualAdds == ManualList(i)
    ensures CloseoutOf(Total(i)) == if AutomationTrouble(i) then AutomationBlocked
                                    else if ManualTrouble(i) then AoManualBlocked
                                    else if ManualOpen(i) then AoManualPending else CloseState.Ready
    ensures StatusOf(Total(i)) == if LogLost(i.logFile) || i.logExit != 0 then RunFailed
                                  else if AutomationTrouble(i) || ManualTrouble(i) || ManualOpen(i) then RunBlocked else RunReady
    ensures AutomationOf(Total(i)) == if AutomationTrouble(i) then StateBlocked else State.Complete
    ensures AoManualOf(Total(i)) == if ManualTrouble(i) then StateBlocked else if ManualOpen(i) then State.Pending else State.Complete
  {
    hide After, GateEffect, ReadinessEffect, HostingEffect, SummaryEffect, SignoffEffect, LogEffect, ProofsEffect;
    hide Word, Listed, When, Reported, All, Critical, GateFails, GateOpens, ReadinessFails, ReadinessBlocks, HostingFails, RecordFails, LogLost, LogOpen, ProofsFail, HostingBlockers;
    Unfold(i);
    GateMeans(i.gate);
    ReadinessMeans(i.readiness);
    if i.hosting.Some? { HostingMeans(i.hosting.value); }
    NoHosting();
    RecordsMean(i.summary, i.signoff);
    LogMeans(i.logExit, i.logFile);
    ProofsMean(i.proofs);
    var none: seq<Blocker> := [];
    assert forall b: seq<Blocker> :: b + none == b && none + b == b;
  }

  lemma NoHosting()
    ensures HostingBlockers(None) == []
  {
  }
}
