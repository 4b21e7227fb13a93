/** The decommission closeout: seven steps whose outcomes set flags and push blockers, and one verdict at the end. */
module Closeout {
  import opened Numbers
  import opened Strings
  import opened Documents

  datatype StepId = GateEvidence | Readiness | Hosting | Summary | Signoff | EvidenceLog | ProofLinks
  datatype Status = Passed | Warning | Blocked | Failed | Skipped

  /** A finished child: its exit code, and its standard output as JSON when that parses. */
  datatype Ran = Ran(exitCode: Safe, parsed: Option<Json>)

  /** What the runner finds where the evidence log should be. */
  datatype LogFile = LogAbsent | LogUnreadable | LogRead(log: Json)

  /** The hosting step is skipped when no profile is given. */
  datatype Inputs = Inputs(gate: Ran, readiness: Ran, hosting: Option<Ran>, summary: Ran, signoff: Ran,
                           logExit: Safe, logFile: LogFile, proofs: Ran)

  datatype Notice =
    | GateFailed | GateOpen | ReadinessFailed | ReadinessBlocked | ReadinessAutomation | ReadinessManual | ReadinessPending
    | HostingFailed | SummaryBlocked | SignoffBlocked | LogMissing | LogInvalid | LogIncomplete | LogStepFailed | ProofsFailed

  datatype Source = FromReadiness | FromHosting | FromSummary | FromSignoff | FromProofs | MissingProof

  /** A fixed message, or the text of a reported item behind its source's prefix. */
  datatype Blocker = Note(notice: Notice) | Item(source: Source, item: Json)

  function Payload(r: Ran): Json { if r.parsed.Some? then r.parsed.value else Null }

  function Word(r: Ran, key: Key): string { Lower(TextOr(Field(Payload(r), key))) }

  // ---------------------------------------------------------------- step results

  function ByExit(r: Ran): Status { if r.exitCode == 0 then Passed else Failed }

  function RawStatus(id: StepId, r: Ran): Status {
    match id
    case GateEvidence =>
      if Word(r, ResultKey) == "ok" then Passed
      else if Word(r, ResultKey) == "warning" then Warning
      else if r.exitCode == 0 && Field(Payload(r), CloseoutReady) == Some(Bool(true)) then Passed
      else if r.exitCode == 0 then Warning
      else Failed
    case Readiness =>
      if Word(r, Key.Status) == "ready" then Passed
      else if Word(r, Key.Status) == "blocked" then Blocked
      else if r.exitCode == 0 then Blocked else Failed
    case Hosting =>
      if Word(r, Key.Status) == "pass" then Passed
      else if Word(r, Key.Status) == "warn" then Warning
      else if Word(r, Key.Status) == "fail" then Failed
      else ByExit(r)
    case ProofLinks =>
      if Word(r, Key.Status) == "complete" then Passed
      else if Word(r, Key.Status) == "pending" then Blocked
      else if Word(r, Key.Status) == "blocked" then Failed
      else ByExit(r)
    case _ =>
      if Word(r, Key.Status) == "complete" then Passed
      else if Word(r, Key.Status) == "blocked" then Blocked
      else ByExit(r)
  }

  /** `reduceStepResult(...).status`: a step whose output does not parse did not pass. */
  function StepStatus(id: StepId, r: Ran): Status {
    if RawStatus(id, r) == Passed && r.parsed.None? then Failed else RawStatus(id, r)
  }

  /** The result of the log step is built from the log file; an unreadable one, or one without properties, is a parse error. */
  function LogRan(exitCode: Safe, file: LogFile): Ran {
    Ran(exitCode, if file.LogRead? && file.log != Null then Some(file.log) else None)
  }

  // ---------------------------------------------------------------- what a step contributes

  datatype Effect = Effect(automation: bool, manualBlocked: bool, manualPending: bool, logFailed: bool,
                           adds: seq<Blocker>, manualAdds: seq<Blocker>)

  const NOTHING := Effect(false, false, false, false, [], [])

  function Both(a: Effect, b: Effect): Effect {
    Effect(a.automation || b.automation, a.manualBlocked || b.manualBlocked, a.manualPending || b.manualPending,
           a.logFailed || b.logFailed, a.adds + b.adds, a.manualAdds + b.manualAdds)
  }

  function Automation(adds: seq<Blocker>): Effect { NOTHING.(automation := true, adds := adds) }

  function Each(source: Source, items: seq<Json>): (r: seq<Blocker>)
    ensures |r| == |items|
  {
    seq(|items|, i requires 0 <= i < |items| => Item(source, items[i]))
  }

  function Listed(r: Ran, key: Key): seq<Json> { Elements(Field(Payload(r), key)) }

  function EachOr(source: Source, items: seq<Json>, notice: Notice): (r: seq<Blocker>)
    ensures r != []
  {
    if items == [] then [Note(notice)] else Each(source, items)
  }

  function GateEffect(r: Ran): Effect {
    match StepStatus(GateEvidence, r)
    case Failed => Automation([Note(GateFailed)])
    case Warning => NOTHING.(manualPending := true, manualAdds := [Note(GateOpen)])
    case _ => NOTHING
  }

  function ReadinessOwn(r: Ran): Effect {
    var split := Word(r, AutomationState) != "" || Word(r, AoManualState) != "";
    if StepStatus(Readiness, r) == Failed then Automation([Note(ReadinessFailed)])
    else if !split && StepStatus(Readiness, r) == Blocked then Automation(EachOr(FromReadiness, Listed(r, Blockers), ReadinessBlocked))
    else NOTHING
  }

  function ReadinessSplit(r: Ran): Effect {
    if Word(r, AutomationState) == "blocked"
    then Automation(EachOr(FromReadiness, Listed(r, AutomationBlockers), ReadinessAutomation)) else NOTHING
  }

  function ReadinessManualPart(r: Ran): Effect {
    var items := Listed(r, AoManualBlockers);
    if Word(r, AoManualState) == "blocked" then
      NOTHING.(manualBlocked := true, manualAdds := EachOr(FromReadiness, items, ReadinessManual))
    else if Word(r, AoManualState) == "pending" then
      NOTHING.(manualPending := true, manualAdds := EachOr(FromReadiness, items, ReadinessPending))
    else NOTHING
  }

  function ReadinessEffect(r: Ran): Effect { Both(Both(ReadinessOwn(r), ReadinessSplit(r)), ReadinessManualPart(r)) }

  predicate IsCritical(issue: Json) { Field(issue, Severity) == Some(Str("critical")) }

  function MessageOf(issue: Json): Json { if Field(issue, Message).Some? then Field(issue, Message).value else Null }

  function CriticalIssues(issues: seq<Json>, n: nat): seq<Blocker>
    requires n <= |issues|
  {
    if n == 0 then []
    else if IsCritical(issues[n - 1]) then CriticalIssues(issues, n - 1) + [Item(FromHosting, MessageOf(issues[n - 1]))]
    else CriticalIssues(issues, n - 1)
  }

  function HostingEffect(r: Ran): Effect {
    var critical := CriticalIssues(Listed(r, Issues), |Listed(r, Issues)|);
    Both(if StepStatus(Hosting, r) == Failed then Automation([Note(HostingFailed)]) else NOTHING,
         if critical != [] then Automation(critical) else NOTHING)
  }

  /** The reported issues and blockers are pushed whatever the status; only a status other than passed sets the flag. */
  function SummaryEffect(r: Ran): Effect {
    Both(if StepStatus(Summary, r) != Passed then Automation([Note(SummaryBlocked)]) else NOTHING,
         NOTHING.(adds := Each(FromSummary, Listed(r, Issues)) + Each(FromSummary, Listed(r, Blockers))))
  }

  function SignoffEffect(r: Ran): Effect {
    Both(if StepStatus(Signoff, r) != Passed then Automation([Note(SignoffBlocked)]) else NOTHING,
         NOTHING.(adds := Each(FromSignoff, Listed(r, Blockers))))
  }

  function LogEffect(exitCode: Safe, file: LogFile): Effect {
    var found := match file
      case LogAbsent => Automation([Note(LogMissing)]).(logFailed := true)
      case LogUnreadable => Automation([Note(LogInvalid)]).(logFailed := true)
      case LogRead(log) =>
        if Truthy(log) && Field(log, Key.Status) != Some(Str("complete")) then Automation([Note(LogIncomplete)]) else NOTHING;
    Both(found, if exitCode != 0 then Automation([Note(LogStepFailed)]).(logFailed := true) else NOTHING)
  }

  function ProofsOwn(r: Ran): Effect {
    match StepStatus(ProofLinks, r)
    case Failed => Automation([Note(ProofsFailed)])
    case Blocked => NOTHING.(manualPending := true)
    case _ => NOTHING
  }

  function ProofsReported(r: Ran): Effect {
    NOTHING.(manualBlocked := Listed(r, Blockers) != [], manualAdds := Each(FromProofs, Listed(r, Blockers)))
  }

  function ProofsMissing(r: Ran): Effect {
    NOTHING.(manualPending := Listed(r, MissingProofLabels) != [], manualAdds := Each(MissingProof, Listed(r, MissingProofLabels)))
  }

  function ProofsEffect(r: Ran): Effect { Both(Both(ProofsOwn(r), ProofsReported(r)), ProofsMissing(r)) }

  function PlannedSteps(): (r: seq<StepId>)
    ensures |r| == 7
  {
    [GateEvidence, Readiness, Hosting, Summary, Signoff, EvidenceLog, ProofLinks]
  }

  function EffectOf(i: Inputs, id: StepId): Effect {
    match id
    case GateEvidence => GateEffect(i.gate)
    case Readiness => ReadinessEffect(i.readiness)
    case Hosting => if i.hosting.Some? then HostingEffect(i.hosting.value) else NOTHING
    case Summary => SummaryEffect(i.summary)
    case Signoff => SignoffEffect(i.signoff)
    case EvidenceLog => LogEffect(i.logExit, i.logFile)
    case ProofLinks => ProofsEffect(i.proofs)
  }

  /** All flags and blockers after `n` steps. */
  function After(i: Inputs, n: nat): Effect
    requires n <= 7
  {
    if n == 0 then NOTHING else Both(After(i, n - 1), EffectOf(i, PlannedSteps()[n - 1]))
  }

  function Total(i: Inputs): Effect { After(i, 7) }

  // ---------------------------------------------------------------- the verdict

  datatype State = Complete | Pending | StateBlocked
  datatype CloseState = Ready | AoManualPending | AoManualBlocked | AutomationBlocked
  datatype RunStatus = RunReady | RunBlocked | RunFailed

  function AutomationOf(e: Effect): State { if e.automation then StateBlocked else Complete }
  function AoManualOf(e: Effect): State { if e.manualBlocked then StateBlocked else if e.manualPending then Pending else Complete }

  function CloseoutOf(e: Effect): CloseState {
    if AutomationOf(e) != Complete then AutomationBlocked
    else match AoManualOf(e)
      case Complete => Ready
      case Pending => AoManualPending
      case StateBlocked => AoManualBlocked
  }

  function StatusOf(e: Effect): RunStatus {
    if e.logFailed then RunFailed else if CloseoutOf(e) == Ready then RunReady else RunBlocked
  }

  function ExitCodeOf(e: Effect, strict: bool): Safe { if e.logFailed || (strict && StatusOf(e) == RunBlocked) then 3 else 0 }

  function BlockersOf(e: Effect): seq<Blocker> { e.adds + e.manualAdds }

  class Runner {
    var automationBlocked: bool
    var aoManualBlocked: bool
    var aoManualPending: bool
    var logFailed: bool
    var automationBlockers: seq<Blocker>
    var aoManualBlockers: seq<Blocker>

    function State(): Effect
      reads this
    {
      Effect(automationBlocked, aoManualBlocked, aoManualPending, logFailed, automationBlockers, aoManualBlockers)
    }

    constructor ()
      ensures State() == NOTHING
    {
      automationBlocked, aoManualBlocked, aoManualPending, logFailed := false, false, false, false;
      automationBlockers, aoManualBlockers := [], [];
    }

    method TakeGate(r: Ran)
      modifies this
      ensures State() == Both(old(State()), GateEffect(r))
    {
      hide StepStatus;
      var status := StepStatus(GateEvidence, r);
      if status == Failed {
        automationBlocked := true;
        automationBlockers := automationBlockers + [Note(GateFailed)];
      } else if status == Warning {
        aoManualPending := true;
        aoManualBlockers := aoManualBlockers + [Note(GateOpen)];
      }
    }

    method TakeReadinessStatus(r: Ran)
      modifies this
      ensures State() == Both(old(State()), ReadinessOwn(r))
    {
      hide StepStatus, Word, Listed, EachOr;
      var status := StepStatus(Readiness, r);
      if status == Failed {
        automationBlocked := true;
        automationBlockers := automationBlockers + [Note(ReadinessFailed)];
      }
      var hasSplitStates := Word(r, AutomationState) != "" || Word(r, AoManualState) != "";
      if !hasSplitStates && status == Blocked {
        automationBlocked := true;
        automationBlockers := automationBlockers + EachOr(FromReadiness, Listed(r, Blockers), ReadinessBlocked);
      }
    }

    method TakeReadinessStates(r: Ran)
      modifies this
      ensures State() == Both(old(State()), Both(ReadinessSplit(r), ReadinessManualPart(r)))
    {
      hide Word, Listed, EachOr;
      if Word(r, AutomationState) == "blocked" {
        automationBlocked := true;
        automationBlockers := automationBlockers + EachOr(FromReadiness, Listed(r, AutomationBlockers), ReadinessAutomation);
      }
      if Word(r, AoManualState) == "blocked" {
        aoManualBlocked := true;
        aoManualBlockers := aoManualBlockers + EachOr(FromReadiness, Listed(r, AoManualBlockers), ReadinessManual);
      } else if Word(r, AoManualState) == "pending" {
        aoManualPending := true;
        aoManualBlockers := aoManualBlockers + EachOr(FromReadiness, Listed(r, AoManualBlockers), ReadinessPending);
      }
    }

    method TakeReadiness(r: Ran)
      modifies this
      ensures State() == Both(old(State()), ReadinessEffect(r))
    {
      hide Both, ReadinessOwn, ReadinessSplit, ReadinessManualPart;
      ghost var before := State();
      TakeReadinessStatus(r);
      TakeReadinessStates(r);
      BothAssociative(before, ReadinessOwn(r), Both(ReadinessSplit(r), ReadinessManualPart(r)));
      BothAssociative(ReadinessOwn(r), ReadinessSplit(r), ReadinessManualPart(r));
    }

    method TakeHosting(r: Ran)
      modifies this
      ensures State() == Both(old(State()), HostingEffect(r))
    {
      hide StepStatus, Listed, IsCritical;
      ghost var before := State();
      if StepStatus(Hosting, r) == Failed {
        automationBlocked := true;
        automationBlockers := automationBlockers + [Note(HostingFailed)];
      }
      ghost var first := if StepStatus(Hosting, r) == Failed then Automation([Note(HostingFailed)]) else NOTHING;
      assert State() == Both(before, first);
      var critical := false;
      var pushed: seq<Blocker> := [];
      var issues := Listed(r, Issues);
      for k := 0 to |issues|
        invariant pushed == CriticalIssues(issues, k) && (critical <==> pushed != [])
      {
        if IsCritical(issues[k]) {
          critical := true;
          pushed := pushed + [Item(FromHosting, MessageOf(issues[k]))];
        }
      }
      automationBlocked := automationBlocked || critical;
      automationBlockers := automationBlockers + pushed;
      ghost var second := if pushed != [] then Automation(pushed) else NOTHING;
      assert State() == Both(Both(before, first), second);
      BothAssociative(before, first, second);
    }

    method TakeSummary(r: Ran)
      modifies this
      ensures State() == Both(old(State()), SummaryEffect(r))
    {
      hide StepStatus, Listed, Each;
      ghost var before := State();
      ghost var first := if StepStatus(Summary, r) != Passed then Automation([Note(SummaryBlocked)]) else NOTHING;
      if StepStatus(Summary, r) != Passed {
        automationBlocked := true;
        automationBlockers := automationBlockers + [Note(SummaryBlocked)];
      }
      assert State() == Both(before, first);
      var items := Each(FromSummary, Listed(r, Issues)) + Each(FromSummary, Listed(r, Blockers));
      automationBlockers := automationBlockers + items;
      assert State() == Both(Both(before, first), NOTHING.(adds := items));
      BothAssociative(before, first, NOTHING.(adds := items));
    }

    method TakeSignoff(r: Ran)
      modifies this
      ensures State() == Both(old(State()), SignoffEffect(r))
    {
      hide StepStatus, Listed, Each;
      ghost var before := State();
      ghost var first := if StepStatus(Signoff, r) != Passed then Automation([Note(SignoffBlocked)]) else NOTHING;
      if StepStatus(Signoff, r) != Passed {
        automationBlocked := true;
        automationBlockers := automationBlockers + [Note(SignoffBlocked)];
      }
      assert State() == Both(before, first);
      var items := Each(FromSignoff, Listed(r, Blockers));
      automationBlockers := automationBlockers + items;
      assert State() == Both(Both(before, first), NOTHING.(adds := items));
      BothAssociative(before, first, NOTHING.(adds := items));
    }

    method TakeLog(exitCode: Safe, file: LogFile)
      modifies this
      ensures State() == Both(old(State()), LogEffect(exitCode, file))
    {
      match file {
        case LogAbsent =>
          logFailed, automationBlocked, automationBlockers := true, true, automationBlockers + [Note(LogMissing)];
        case LogUnreadable =>
          logFailed, automationBlocked, automationBlockers := true, true, automationBlockers + [Note(LogInvalid)];
        case LogRead(log) =>
          if Truthy(log) {
            if Field(log, Key.Status) != Some(Str("complete")) {
              automationBlocked, automationBlockers := true, automationBlockers + [Note(LogIncomplete)];
            }
          }
      }
      if exitCode != 0 {
        logFailed, automationBlocked, automationBlockers := true, true, automationBlockers + [Note(LogStepFailed)];
      }
    }

    method TakeProofLists(r: Ran)
      modifies this
      ensures State() == Both(old(State()), Both(ProofsReported(r), ProofsMissing(r)))
    {
      hide Listed, Each;
      var blockers, missing := Listed(r, Blockers), Listed(r, MissingProofLabels);
      if blockers != [] {
        aoManualBlocked, aoManualBlockers := true, aoManualBlockers + Each(FromProofs, blockers);
      }
      if missing != [] {
        aoManualPending, aoManualBlockers := true, aoManualBlockers + Each(MissingProof, missing);
      }
    }

    method TakeProofs(r: Ran)
      modifies this
      ensures State() == Both(old(State()), ProofsEffect(r))
    {
      hide StepStatus, ProofsReported, ProofsMissing;
      ghost var before := State();
      var status := StepStatus(ProofLinks, r);
      if status == Failed {
        automationBlocked, automationBlockers := true, automationBlockers + [Note(ProofsFailed)];
      } else if status == Blocked {
        aoManualPending := true;
      }
      assert State() == Both(before, ProofsOwn(r));
      TakeProofLists(r);
      BothAssociative(before, ProofsOwn(r), Both(ProofsReported(r), ProofsMissing(r)));
      BothAssociative(ProofsOwn(r), ProofsReported(r), ProofsMissing(r));
    }

    /** The loop over the planned steps. */
    method RunSteps(i: Inputs)
      requires State() == NOTHING
      modifies this
      ensures State() == Total(i)
    {
      hide Both, GateEffect, ReadinessEffect, HostingEffect, SummaryEffect, SignoffEffect, LogEffect, ProofsEffect;
      var steps := PlannedSteps();
      for n := 0 to 7
        invariant State() == After(i, n)
      {
        match steps[n] {
          case GateEvidence => TakeGate(i.gate);
          case Readiness => TakeReadiness(i.readiness);
          case Hosting => if i.hosting.Some? { TakeHosting(i.hosting.value); } else { BothNothing(State()); }
          case Summary => TakeSummary(i.summary);
          case Signoff => TakeSignoff(i.signoff);
          case EvidenceLog => TakeLog(i.logExit, i.logFile);
          case ProofLinks => TakeProofs(i.proofs);
        }
      }
    }
  }

  lemma BothAssociative(a: Effect, b: Effect, c: Effect)
    ensures Both(Both(a, b), c) == Both(a, Both(b, c))
  {
  }

  lemma BothNothing(a: Effect)
    ensures Both(a, NOTHING) == a
  {
  }

  // ---------------------------------------------------------------- verdict and blocker list

  /** A flag is set exactly when a blocker of its kind is pushed. */
  predicate Paired(e: Effect) {
    && (e.automation <==> e.adds != [])
    && (e.manualBlocked || e.manualPending <==> e.manualAdds != [])
    && (e.logFailed ==> e.automation)
  }

  lemma PairedBoth(a: Effect, b: Effect)
    requires Paired(a) && Paired(b)
    ensures Paired(Both(a, b))
  {
  }

  /** These steps pair flags and blockers whatever their children report. */
  lemma AlwaysPaired(r: Ran, exitCode: Safe, file: LogFile)
    ensures Paired(GateEffect(r)) && Paired(ReadinessEffect(r)) && Paired(HostingEffect(r)) && Paired(LogEffect(exitCode, file))
  {
    hide StepStatus, Word, Listed, EachOr, CriticalIssues;
    PairedBoth(ReadinessOwn(r), ReadinessSplit(r));
    PairedBoth(Both(ReadinessOwn(r), ReadinessSplit(r)), ReadinessManualPart(r));
  }

  /** A summary or sign-off step that passed and reported something all the same. */
  predicate SilentSummary(r: Ran) { StepStatus(Summary, r) == Passed && (Listed(r, Issues) != [] || Listed(r, Blockers) != []) }
  predicate SilentSignoff(r: Ran) { StepStatus(Signoff, r) == Passed && Listed(r, Blockers) != [] }

  /** Proofs that are pending without any missing label. */
  predicate SilentPending(r: Ran) {
    StepStatus(ProofLinks, r) == Blocked && Listed(r, Blockers) == [] && Listed(r, MissingProofLabels) == []
  }

  lemma SometimesPaired(s: Ran, f: Ran, p: Ran)
    ensures Paired(SummaryEffect(s)) <==> !SilentSummary(s)
    ensures Paired(SignoffEffect(f)) <==> !SilentSignoff(f)
    ensures Paired(ProofsEffect(p)) <==> !SilentPending(p)
  {
    hide StepStatus, Listed;
  }

  lemma {:induction false} PairedAfter(i: Inputs, n: nat)
    requires n <= 7 && forall id | id in PlannedSteps() :: Paired(EffectOf(i, id))
    ensures Paired(After(i, n))
  {
    hide EffectOf, Both, PlannedSteps;
    if n > 0 {
      PairedAfter(i, n - 1);
      assert PlannedSteps()[n - 1] in PlannedSteps();
      PairedBoth(After(i, n - 1), EffectOf(i, PlannedSteps()[n - 1]));
    }
  }

  /** When no step reports silently, the run ends `ready` exactly when its blocker list is empty. */
  lemma ReadyIffNoBlockers(i: Inputs)
    requires !SilentSummary(i.summary) && !SilentSignoff(i.signoff) && !SilentPending(i.proofs)
    ensures StatusOf(Total(i)) == RunReady <==> BlockersOf(Total(i)) == []
    ensures CloseoutOf(Total(i)) == Ready <==> BlockersOf(Total(i)) == []
    ensures AutomationOf(Total(i)) == Complete <==> Total(i).adds == []
    ensures AoManualOf(Total(i)) == Complete <==> Total(i).manualAdds == []
  {
    hide SilentSummary, SilentSignoff, SilentPending, GateEffect, ReadinessEffect, HostingEffect, SummaryEffect, SignoffEffect, LogEffect, ProofsEffect, After;
    forall id | id in PlannedSteps() ensures Paired(EffectOf(i, id)) {
      AlwaysPaired(i.gate, i.logExit, i.logFile);
      AlwaysPaired(i.readiness, i.logExit, i.logFile);
      AlwaysPaired(if i.hosting.Some? then i.hosting.value else i.gate, i.logExit, i.logFile);
      SometimesPaired(i.summary, i.signoff, i.proofs);
    }
    PairedAfter(i, 7);
  }

  /** The gate was found closed, and the readiness report has nothing to complain about. */
  predicate GatesClear(gate: Ran, readiness: Ran) {
    && StepStatus(GateEvidence, gate) == Passed
    && StepStatus(Readiness, readiness) != Failed
    && (StepStatus(Readiness, readiness) == Blocked ==> Word(readiness, AutomationState) != "" || Word(readiness, AoManualState) != "")
    && Word(readiness, AutomationState) != "blocked"
    && Word(readiness, AoManualState) != "blocked" && Word(readiness, AoManualState) != "pending"
  }

  /** The hosting check did not fail and reported nothing critical. */
  predicate HostingClear(r: Ran) {
    StepStatus(Hosting, r) != Failed && forall k | 0 <= k < |Listed(r, Issues)| :: !IsCritical(Listed(r, Issues)[k])
  }

  /** The log was written, could be read, and says that it is complete, if it says anything. */
  predicate LogClear(exitCode: Safe, file: LogFile) {
    exitCode == 0 && file.LogRead? && (Truthy(file.log) ==> Field(file.log, Key.Status) == Some(Str("complete")))
  }

  predicate ProofsClear(r: Ran) {
    StepStatus(ProofLinks, r) == Passed && Listed(r, Blockers) == [] && Listed(r, MissingProofLabels) == []
  }

  /** The inputs on which verdict and blocker list disagree: nothing is wrong but for a silent report. */
  predicate Misreported(i: Inputs) {
    && GatesClear(i.gate, i.readiness) && (i.hosting.Some? ==> HostingClear(i.hosting.value)) && LogClear(i.logExit, i.logFile)
    && StepStatus(Summary, i.summary) == Passed && StepStatus(Signoff, i.signoff) == Passed
    && if SilentPending(i.proofs) then !SilentSummary(i.summary) && !SilentSignoff(i.signoff)
       else ProofsClear(i.proofs) && (SilentSummary(i.summary) || SilentSignoff(i.signoff))
  }

  lemma {:induction false} NothingCritical(issues: seq<Json>, n: nat)
    requires n <= |issues|
    ensures CriticalIssues(issues, n) == [] <==> forall k | 0 <= k < n :: !IsCritical(issues[k])
  {
    hide IsCritical;
    if n > 0 { NothingCritical(issues, n - 1); }
  }

  /** The guards say when a step contributes nothing. */
  lemma ClearSteps(gate: Ran, readiness: Ran, hosting: Ran, exitCode: Safe, file: LogFile, proofs: Ran)
    ensures GatesClear(gate, readiness) <==> GateEffect(gate) == NOTHING && ReadinessEffect(readiness) == NOTHING
    ensures HostingClear(hosting) <==> HostingEffect(hosting) == NOTHING
    ensures LogClear(exitCode, file) <==> LogEffect(exitCode, file) == NOTHING
    ensures ProofsClear(proofs) <==> ProofsEffect(proofs) == NOTHING
  {
    ClearGates(gate, readiness);
    ClearHosting(hosting);
    ClearProofs(proofs);
  }

  lemma ClearGates(gate: Ran, readiness: Ran)
    ensures GatesClear(gate, readiness) <==> GateEffect(gate) == NOTHING && ReadinessEffect(readiness) == NOTHING
  {
    hide Word, Listed, EachOr, RawStatus;
    GateStatuses(gate);
  }

  lemma GateStatuses(gate: Ran)
    ensures StepStatus(GateEvidence, gate) in {Passed, Warning, Failed}
  {
    hide Word;
  }

  lemma ClearHosting(hosting: Ran)
    ensures HostingClear(hosting) <==> HostingEffect(hosting) == NOTHING
  {
    hide StepStatus, Listed, IsCritical, CriticalIssues;
    NothingCritical(Listed(hosting, Issues), |Listed(hosting, Issues)|);
  }

  lemma ClearProofs(proofs: Ran)
    ensures ProofsClear(proofs) <==> ProofsEffect(proofs) == NOTHING
  {
    hide Listed, RawStatus;
    ProofStatuses(proofs);
  }

  lemma ProofStatuses(proofs: Ran)
    ensures StepStatus(ProofLinks, proofs) in {Passed, Blocked, Failed}
  {
    hide Word;
  }

  lemma Unfold(i: Inputs)
    ensures Total(i) == Both(Both(Both(Both(Both(Both(GateEffect(i.gate), ReadinessEffect(i.readiness)), EffectOf(i, Hosting)),
                             SummaryEffect(i.summary)), SignoffEffect(i.signoff)), LogEffect(i.logExit, i.logFile)), ProofsEffect(i.proofs))
  {
    hide GateEffect, ReadinessEffect, HostingEffect, SummaryEffect, SignoffEffect, LogEffect, ProofsEffect, Both;
    assert After(i, 7) == Both(After(i, 6), EffectOf(i, ProofLinks));
    assert After(i, 6) == Both(After(i, 5), EffectOf(i, EvidenceLog));
    assert After(i, 5) == Both(After(i, 4), EffectOf(i, Signoff));
    assert After(i, 4) == Both(After(i, 3), EffectOf(i, Summary));
    assert After(i, 3) == Both(After(i, 2), EffectOf(i, Hosting));
    assert After(i, 2) == Both(After(i, 1), EffectOf(i, Readiness));
    assert After(i, 1) == Both(After(i, 0), EffectOf(i, GateEvidence));
    NothingBoth(EffectOf(i, GateEvidence));
  }

  lemma NothingBoth(a: Effect)
    ensures Both(NOTHING, a) == a
  {
  }

  predicate AutomationOnly(e: Effect) { !e.manualBlocked && !e.manualPending && e.manualAdds == [] && !e.logFailed }

  lemma LooseEffects(s: Ran, f: Ran, p: Ran)
    ensures var e := SummaryEffect(s); AutomationOnly(e) && (e.automation <==> StepStatus(Summary, s) != Passed) && (e.adds == [] <==> !e.automation && !SilentSummary(s))
    ensures var e := SignoffEffect(f); AutomationOnly(e) && (e.automation <==> StepStatus(Signoff, f) != Passed) && (e.adds == [] <==> !e.automation && !SilentSignoff(f))
    ensures var e := ProofsEffect(p); (e.automation <==> e.adds != []) && !e.logFailed && (SilentPending(p) ==> !e.automation && e.manualPending && e.manualAdds == [])
    ensures var e := ProofsEffect(p); !SilentPending(p) ==> (e.manualBlocked || e.manualPending <==> e.manualAdds != [])
  {
    hide StepStatus, Listed;
  }

  /** For every closeout: verdict and blocker list agree exactly when the inputs are not of the misreported kind. */
  lemma VerdictExact(i: Inputs)
    ensures (CloseoutOf(Total(i)) == Ready <==> BlockersOf(Total(i)) == []) <==> !Misreported(i)
  {
    hide StepStatus, Listed, SilentSummary, SilentSignoff, SilentPending, GateEffect, ReadinessEffect, HostingEffect, SummaryEffect, SignoffEffect, LogEffect, ProofsEffect, After;
    hide GatesClear, HostingClear, LogClear, ProofsClear;
    Unfold(i);
    AlwaysPaired(i.gate, i.logExit, i.logFile);
    AlwaysPaired(i.readiness, i.logExit, i.logFile);
    HostingPaired(i);
    LooseEffects(i.summary, i.signoff, i.proofs);
    ClearSteps(i.gate, i.readiness, if i.hosting.Some? then i.hosting.value else i.gate, i.logExit, i.logFile, i.proofs);
  }

  /** A strict run exits with 0 exactly when it is ready, any other run exactly when the log step went well. */
  lemma ExitCodes(i: Inputs)
    ensures ExitCodeOf(Total(i), true) == 0 <==> StatusOf(Total(i)) == RunReady
    ensures ExitCodeOf(Total(i), false) == 0 <==> i.logExit == 0 && i.logFile.LogRead?
  {
    hide StepStatus, Listed, GateEffect, ReadinessEffect, HostingEffect, SummaryEffect, SignoffEffect, LogEffect, ProofsEffect, After;
    Unfold(i);
    OnlyTheLog(i);
    LooseEffects(i.summary, i.signoff, i.proofs);
  }

  lemma OnlyTheLog(i: Inputs)
    ensures !GateEffect(i.gate).logFailed && !ReadinessEffect(i.readiness).logFailed && !EffectOf(i, Hosting).logFailed
    ensures LogEffect(i.logExit, i.logFile).logFailed <==> i.logExit != 0 || !i.logFile.LogRead?
  {
    hide StepStatus, Listed, Word, EachOr, CriticalIssues;
  }

  function Report(word: string): Ran { Ran(0, Some(Obj(map[Key.Status := Str(word)]))) }

  lemma WordOf(r: Ran, key: Key, word: string)
    requires word in {"ready", "complete"} && Field(Payload(r), key) == Some(Str(word))
    ensures Word(r, key) == word
  {
    hide TextOr, IsText;
    PlainWord(word);
    assert Lower("ready") == "ready" && Lower("complete") == "complete";
  }

  lemma NoWord(r: Ran, key: Key)
    requires Field(Payload(r), key) == None
    ensures Word(r, key) == ""
  {
    assert TextOr(None) == "" && |Lower("")| == 0;
  }

  /** The summary check lists an issue although it passed. */
  function PassedWithIssue(): Ran { Ran(0, Some(Obj(map[Key.Status := Str("complete"), Issues := Arr([Str("left over")])]))) }

  /** Every step is fine but for that. */
  function Overlooked(): Inputs {
    Inputs(Ran(0, Some(Obj(map[CloseoutReady := Bool(true)]))), Report("ready"), None, PassedWithIssue(), Report("complete"),
           0, LogRead(Obj(map[Key.Status := Str("complete")])), Report("complete"))
  }

  lemma OverlookedWords()
    ensures var i := Overlooked();
      && Word(i.gate, ResultKey) == "" && Word(i.readiness, AutomationState) == "" && Word(i.readiness, AoManualState) == ""
      && Word(i.readiness, Key.Status) == "ready" && Word(i.summary, Key.Status) == "complete"
      && Word(i.signoff, Key.Status) == "complete" && Word(i.proofs, Key.Status) == "complete"
  {
    hide Word;
    var i := Overlooked();
    NoWord(i.gate, ResultKey);
    NoWord(i.readiness, AutomationState);
    NoWord(i.readiness, AoManualState);
    WordOf(i.readiness, Key.Status, "ready");
    WordOf(i.summary, Key.Status, "complete");
    WordOf(i.signoff, Key.Status, "complete");
    WordOf(i.proofs, Key.Status, "complete");
  }

  lemma OverlookedSteps()
    ensures var i := Overlooked();
      && GatesClear(i.gate, i.readiness) && LogClear(i.logExit, i.logFile) && ProofsClear(i.proofs)
      && StepStatus(Summary, i.summary) == Passed && StepStatus(Signoff, i.signoff) == Passed
  {
    hide Word;
    OverlookedWords();
  }

  /** A closeout that ends `ready` with a blocker in its list. */
  lemma ReadyWithBlocker()
    ensures StatusOf(Total(Overlooked())) == RunReady && BlockersOf(Total(Overlooked())) == [Item(FromSummary, Str("left over"))]
  {
    hide StepStatus, GateEffect, ReadinessEffect, HostingEffect, LogEffect, ProofsEffect, After, GatesClear, LogClear, ProofsClear;
    var i := Overlooked();
    Unfold(i);
    OverlookedSteps();
    ClearSteps(i.gate, i.readiness, i.gate, i.logExit, i.logFile, i.proofs);
  }

  lemma HostingPaired(i: Inputs)
    ensures Paired(EffectOf(i, Hosting))
  {
    if i.hosting.Some? { AlwaysPaired(i.hosting.value, i.logExit, i.logFile); }
  }
}
