/** The AO dependency gate, judged by two scripts: the evidence check and the gate part of the readiness check. */
module AoGate {
  import opened Strings
  import opened Sorting
  import opened Documents

  /** Tests on single fields that come from elsewhere: the release pattern, and the timestamp at a given clock value. */
  datatype Rules = Rules(isRelease: string -> bool, isCurrent: Option<Json> -> bool)

  datatype Issue =
    | GateNotObject | BadRelease | BadTimestamp | RequiredNotArray | ChecksNotArray
    | RequiredBlank(i: nat) | RequiredRepeated(i: nat)
    | CheckNotObject(i: nat) | CheckWithoutId(i: nat) | CheckRepeated(i: nat) | UnknownStatus(i: nat) | ClosedWithoutEvidence(i: nat)
    | NotClosed(id: string) | NotPresent(id: string)

  /** `normalizeStatus(check.status)` */
  function StatusOf(value: Json): string { Lower(TextOr(Field(value, Status))) }
  function IdOf(value: Json): string { TextOr(Field(value, Id)) }

  /** A trimmed text value; the empty string for anything else. */
  function TextOf(value: Json): string { TextOr(Some(value)) }

  datatype State = Missing | Open | InProgress | Blocked | Closed | Unknown

  /** The states a check can be in. */
  function StateOf(status: string): State {
    if status == "" then Missing else if status == "open" then Open else if status == "in_progress" then InProgress
    else if status == "blocked" then Blocked else if status == "closed" then Closed else Unknown
  }

  predicate IsClosed(check: Json) { StateOf(StatusOf(check)) == Closed }
  predicate HasValidStatus(check: Json) { StateOf(StatusOf(check)) in {Open, InProgress, Blocked, Closed} }

  predicate IsEvidence(value: Option<Json>) {
    IsText(value) || (IsArray(value) && value.value.elems != [] && forall i | 0 <= i < |value.value.elems| :: IsText(Some(value.value.elems[i])))
  }

  predicate HasEvidence(check: Json) { IsEvidence(Field(check, Evidence)) || IsEvidence(Field(check, EvidenceRefs)) }

  // ---------------------------------------------------------------- the evidence check

  /** The distinct trimmed texts among the first `n` values, in order of first occurrence. */
  function Distinct(values: seq<Json>, n: nat): seq<string>
    requires n <= |values|
  {
    if n == 0 then []
    else
      var ids, id := Distinct(values, n - 1), TextOf(values[n - 1]);
      if id == "" || id in ids then ids else ids + [id]
  }

  function RequiredIssues(values: seq<Json>, n: nat): seq<Issue>
    requires n <= |values|
  {
    if n == 0 then []
    else
      var issues, id := RequiredIssues(values, n - 1), TextOf(values[n - 1]);
      if id == "" then issues + [RequiredBlank(n - 1)]
      else if id in Distinct(values, n - 1) then issues + [RequiredRepeated(n - 1)]
      else issues
  }

  /** What the loop over the checks has found so far. */
  datatype Scan = Scan(ids: set<string>, issues: seq<Issue>, warnings: seq<Issue>, closed: nat, open: nat)

  function ScanCheck(scan: Scan, check: Json, i: nat, required: seq<string>, strict: bool): Scan {
    var id := IdOf(check);
    if !check.Obj? then scan.(issues := scan.issues + [CheckNotObject(i)])
    else if id == "" then scan.(issues := scan.issues + [CheckWithoutId(i)])
    else if id in scan.ids then scan.(issues := scan.issues + [CheckRepeated(i)])
    else
      var found := scan.issues + (if HasValidStatus(check) then [] else [UnknownStatus(i)])
                   + (if IsClosed(check) && !HasEvidence(check) then [ClosedWithoutEvidence(i)] else []);
      var next := scan.(ids := scan.ids + {id}, issues := found);
      if id !in required then next
      else if IsClosed(check) then next.(closed := scan.closed + 1)
      else if strict then next.(open := scan.open + 1, issues := found + [NotClosed(id)])
      else next.(open := scan.open + 1, warnings := scan.warnings + [NotClosed(id)])
  }

  function ScanChecks(start: seq<Issue>, checks: seq<Json>, n: nat, required: seq<string>, strict: bool): Scan
    requires n <= |checks|
  {
    if n == 0 then Scan({}, start, [], 0, 0)
    else ScanCheck(ScanChecks(start, checks, n - 1, required, strict), checks[n - 1], n - 1, required, strict)
  }

  function PresenceIssues(ids: set<string>, required: seq<string>, n: nat): seq<Issue>
    requires n <= |required|
  {
    if n == 0 then []
    else if required[n - 1] in ids then PresenceIssues(ids, required, n - 1)
    else PresenceIssues(ids, required, n - 1) + [NotPresent(required[n - 1])]
  }

  datatype Validation = Validation(ok: bool, closeoutReady: bool, issues: seq<Issue>, warnings: seq<Issue>,
                                   required: seq<string>, closedRequired: nat, requiredOpen: nat)

  function HeadIssues(rules: Rules, gate: Json): seq<Issue> {
    (if rules.isRelease(TextOr(Field(gate, Release))) then [] else [BadRelease])
    + (if rules.isCurrent(Field(gate, UpdatedAt)) then [] else [BadTimestamp])
    + (if IsArray(Field(gate, RequiredChecks)) then [] else [RequiredNotArray])
    + (if IsArray(Field(gate, CheckList)) then [] else [ChecksNotArray])
  }

  function Validated(rules: Rules, gate: Json, strict: bool): Validation {
    if !gate.Obj? then Validation(false, false, [GateNotObject], [], [], 0, 0)
    else
      var values, checks := Elements(Field(gate, RequiredChecks)), Elements(Field(gate, CheckList));
      var required := Distinct(values, |values|);
      var scan := ScanChecks(HeadIssues(rules, gate) + RequiredIssues(values, |values|), checks, |checks|, required, strict);
      var issues := scan.issues + PresenceIssues(scan.ids, required, |required|);
      Validation(issues == [], issues == [] && scan.warnings == [], issues, scan.warnings, required, scan.closed, scan.open)
  }

  method ScanRequired(values: seq<Json>) returns (required: seq<string>, issues: seq<Issue>)
    ensures required == Distinct(values, |values|) && issues == RequiredIssues(values, |values|)
  {
    required, issues := [], [];
    for i := 0 to |values|
      invariant required == Distinct(values, i) && issues == RequiredIssues(values, i)
    {
      var id := TextOf(values[i]);
      if id == "" {
        issues := issues + [RequiredBlank(i)];
      } else if id in required {
        issues := issues + [RequiredRepeated(i)];
      } else {
        required := required + [id];
      }
    }
  }

  /** One round of the loop over the checks. */
  method InspectCheck(scan: Scan, check: Json, i: nat, required: seq<string>, strict: bool) returns (next: Scan)
    ensures next == ScanCheck(scan, check, i, required, strict)
  {
    hide IsClosed, HasValidStatus, HasEvidence, IdOf;
    next := scan;
    if !check.Obj? { return next.(issues := next.issues + [CheckNotObject(i)]); }
    var id := IdOf(check);
    if id == "" { return next.(issues := next.issues + [CheckWithoutId(i)]); }
    if id in next.ids { return next.(issues := next.issues + [CheckRepeated(i)]); }
    next := next.(ids := next.ids + {id});
    if !HasValidStatus(check) { next := next.(issues := next.issues + [UnknownStatus(i)]); }
    if IsClosed(check) && !HasEvidence(check) { next := next.(issues := next.issues + [ClosedWithoutEvidence(i)]); }
    if id in required {
      if IsClosed(check) {
        next := next.(closed := next.closed + 1);
      } else {
        next := next.(open := next.open + 1);
        if strict {
          next := next.(issues := next.issues + [NotClosed(id)]);
        } else {
          next := next.(warnings := next.warnings + [NotClosed(id)]);
        }
      }
    }
  }

  method ValidateGate(rules: Rules, gate: Json, strict: bool) returns (r: Validation)
    ensures r == Validated(rules, gate, strict)
  {
    hide ScanCheck, HeadIssues;
    if !gate.Obj? { return Validation(false, false, [GateNotObject], [], [], 0, 0); }
    var values, checks := Elements(Field(gate, RequiredChecks)), Elements(Field(gate, CheckList));
    var required, requiredIssues := ScanRequired(values);
    var start := HeadIssues(rules, gate) + requiredIssues;
    var scan := Scan({}, start, [], 0, 0);
    for i := 0 to |checks|
      invariant scan == ScanChecks(start, checks, i, required, strict)
    {
      scan := InspectCheck(scan, checks[i], i, required, strict);
    }
    var absent: seq<Issue> := [];
    for i := 0 to |required|
      invariant absent == PresenceIssues(scan.ids, required, i)
    {
      if required[i] !in scan.ids { absent := absent + [NotPresent(required[i])]; }
    }
    var issues := scan.issues + absent;
    r := Validation(issues == [], issues == [] && scan.warnings == [], issues, scan.warnings, required, scan.closed, scan.open);
  }

  // ---------------------------------------------------------------- strict and relaxed mode

  ghost predicate SameScan(s: Scan, t: Scan) {
    && s.ids == t.ids && s.closed == t.closed && s.open == t.open && s.warnings == []
    && (s.issues == [] <==> t.issues == [] && t.warnings == [])
  }

  lemma StrictCheck(s: Scan, t: Scan, check: Json, i: nat, required: seq<string>)
    requires SameScan(s, t)
    ensures SameScan(ScanCheck(s, check, i, required, true), ScanCheck(t, check, i, required, false))
  {
    hide IsClosed, HasValidStatus, HasEvidence, IdOf;
  }

  lemma {:induction false} StrictScan(start: seq<Issue>, checks: seq<Json>, n: nat, required: seq<string>)
    requires n <= |checks|
    ensures SameScan(ScanChecks(start, checks, n, required, true), ScanChecks(start, checks, n, required, false))
  {
    hide ScanCheck;
    if n > 0 {
      StrictScan(start, checks, n - 1, required);
      StrictCheck(ScanChecks(start, checks, n - 1, required, true), ScanChecks(start, checks, n - 1, required, false), checks[n - 1], n - 1, required);
    }
  }

  /** Strict mode reports as issues exactly what relaxed mode holds against closeout. */
  lemma StrictOkIffCloseoutReady(rules: Rules, gate: Json)
    ensures Validated(rules, gate, true).ok <==> Validated(rules, gate, false).closeoutReady
    ensures Validated(rules, gate, true).ok <==> Validated(rules, gate, true).closeoutReady
  {
    hide ScanCheck, HeadIssues;
    if gate.Obj? {
      var values, checks := Elements(Field(gate, RequiredChecks)), Elements(Field(gate, CheckList));
      StrictScan(HeadIssues(rules, gate) + RequiredIssues(values, |values|), checks, |checks|, Distinct(values, |values|));
    }
  }

  // ---------------------------------------------------------------- what a clean gate is

  ghost predicate CleanRequired(values: seq<Json>, n: nat)
    requires n <= |values|
  {
    && (forall i | 0 <= i < n :: TextOf(values[i]) != "")
    && (forall i, j | 0 <= i < j < n :: TextOf(values[i]) != TextOf(values[j]))
  }

  ghost predicate CleanCheck(check: Json) {
    check.Obj? && IdOf(check) != "" && HasValidStatus(check) && (IsClosed(check) ==> HasEvidence(check))
  }

  ghost predicate CleanChecks(checks: seq<Json>, n: nat, required: seq<string>)
    requires n <= |checks|
  {
    && (forall i | 0 <= i < n :: CleanCheck(checks[i]) && (IdOf(checks[i]) in required ==> IsClosed(checks[i])))
    && (forall i, j | 0 <= i < j < n :: IdOf(checks[i]) != IdOf(checks[j]))
  }

  /** A gate that may be closed out: well formed, every identifier unique, every required check present and closed,
      and every closed check with evidence. */
  ghost predicate CleanGate(rules: Rules, gate: Json) {
    && gate.Obj? && rules.isRelease(TextOr(Field(gate, Release))) && rules.isCurrent(Field(gate, UpdatedAt))
    && IsArray(Field(gate, RequiredChecks)) && IsArray(Field(gate, CheckList))
    && var values, checks := Elements(Field(gate, RequiredChecks)), Elements(Field(gate, CheckList));
       && CleanRequired(values, |values|)
       && CleanChecks(checks, |checks|, Distinct(values, |values|))
       && forall id | id in Distinct(values, |values|) :: Listed(checks, id)
  }

  ghost predicate Listed(checks: seq<Json>, id: string) { exists i | 0 <= i < |checks| :: IdOf(checks[i]) == id }

  lemma {:induction false} DistinctAre(values: seq<Json>, n: nat)
    requires n <= |values|
    ensures NoDuplicates(Distinct(values, n))
    ensures forall id :: id in Distinct(values, n) <==> id != "" && exists i | 0 <= i < n :: TextOf(values[i]) == id
  {
    hide TextOf;
    if n > 0 { DistinctAre(values, n - 1); }
  }

  lemma {:induction false} RequiredIssuesExact(values: seq<Json>, n: nat)
    requires n <= |values|
    ensures RequiredIssues(values, n) == [] <==> CleanRequired(values, n)
  {
    hide TextOf, Distinct;
    if n > 0 {
      RequiredIssuesExact(values, n - 1);
      DistinctAre(values, n - 1);
    }
  }

  ghost predicate ScanIds(ids: set<string>, checks: seq<Json>, n: nat)
    requires n <= |checks|
  {
    forall id :: id in ids <==> exists i | 0 <= i < n :: checks[i].Obj? && IdOf(checks[i]) == id != ""
  }

  lemma {:induction false} ScanFinds(start: seq<Issue>, checks: seq<Json>, n: nat, required: seq<string>, strict: bool)
    requires n <= |checks|
    ensures ScanIds(ScanChecks(start, checks, n, required, strict).ids, checks, n)
  {
    hide IsClosed, HasValidStatus, HasEvidence, IdOf;
    if n > 0 { ScanFinds(start, checks, n - 1, required, strict); }
  }

  ghost predicate FreshCheck(checks: seq<Json>, i: nat, required: seq<string>)
    requires i < |checks|
  {
    && CleanCheck(checks[i]) && (IdOf(checks[i]) in required ==> IsClosed(checks[i]))
    && forall k | 0 <= k < i :: CleanCheck(checks[k]) ==> IdOf(checks[k]) != IdOf(checks[i])
  }

  lemma CheckExact(scan: Scan, checks: seq<Json>, i: nat, required: seq<string>)
    requires i < |checks| && ScanIds(scan.ids, checks, i)
    requires scan.issues == [] ==> CleanChecks(checks, i, required)
    ensures ScanCheck(scan, checks[i], i, required, true).issues == [] <==> scan.issues == [] && FreshCheck(checks, i, required)
  {
    hide IsClosed, HasValidStatus, HasEvidence, IdOf;
  }

  lemma CleanStep(checks: seq<Json>, n: nat, required: seq<string>)
    requires 0 < n <= |checks|
    ensures CleanChecks(checks, n, required) <==> CleanChecks(checks, n - 1, required) && FreshCheck(checks, n - 1, required)
  {
    hide CleanCheck, IsClosed, IdOf;
  }

  lemma NothingToClean(checks: seq<Json>, required: seq<string>)
    ensures CleanChecks(checks, 0, required)
  {
  }

  lemma {:induction false} ScanExact(start: seq<Issue>, checks: seq<Json>, n: nat, required: seq<string>)
    requires n <= |checks|
    ensures ScanChecks(start, checks, n, required, true).issues == [] <==> start == [] && CleanChecks(checks, n, required)
  {
    hide ScanCheck, CleanCheck, CleanChecks, IsClosed, ScanIds, FreshCheck, IdOf;
    if n > 0 {
      ScanExact(start, checks, n - 1, required);
      ScanFinds(start, checks, n - 1, required, true);
      CheckExact(ScanChecks(start, checks, n - 1, required, true), checks, n - 1, required);
      CleanStep(checks, n, required);
    } else {
      NothingToClean(checks, required);
    }
  }

  lemma {:induction false} PresenceExact(ids: set<string>, required: seq<string>, n: nat)
    requires n <= |required|
    ensures PresenceIssues(ids, required, n) == [] <==> forall k | 0 <= k < n :: required[k] in ids
  {
    if n > 0 { PresenceExact(ids, required, n - 1); }
  }

  /** The strict check accepts exactly the clean gates. */
  lemma StrictOkIffClean(rules: Rules, gate: Json)
    ensures Validated(rules, gate, true).ok <==> CleanGate(rules, gate)
  {
    hide TextOf, IdOf, CleanCheck, IsClosed, ScanCheck;
    if gate.Obj? {
      var values, checks := Elements(Field(gate, RequiredChecks)), Elements(Field(gate, CheckList));
      var required := Distinct(values, |values|);
      var start := HeadIssues(rules, gate) + RequiredIssues(values, |values|);
      var ids := ScanChecks(start, checks, |checks|, required, true).ids;
      RequiredIssuesExact(values, |values|);
      ScanExact(start, checks, |checks|, required);
      ScanFinds(start, checks, |checks|, required, true);
      PresenceExact(ids, required, |required|);
      DistinctAre(values, |values|);
      if CleanChecks(checks, |checks|, required) { PresentIds(ids, checks, required); }
    }
  }

  lemma PresentIds(ids: set<string>, checks: seq<Json>, required: seq<string>)
    requires ScanIds(ids, checks, |checks|) && CleanChecks(checks, |checks|, required)
    ensures (forall k | 0 <= k < |required| :: required[k] in ids) <==> forall id | id in required :: Listed(checks, id)
  {
    hide IdOf, CleanCheck, IsClosed;
    forall id ensures id in ids <==> Listed(checks, id) {
      if Listed(checks, id) {
        var i :| 0 <= i < |checks| && IdOf(checks[i]) == id;
        CleanHasId(checks[i]);
      }
    }
    assert forall k | 0 <= k < |required| :: required[k] in required;
  }

  lemma CleanHasId(check: Json)
    requires CleanCheck(check)
    ensures check.Obj? && IdOf(check) != ""
  {
  }

  // ---------------------------------------------------------------- the gate part of the readiness check

  datatype GateState = Complete | Pending | GateBlocked
  datatype Blocker = NotAnObject | NoRequired | NoChecks | MissingCheck(id: string) | OpenCheck(id: string, status: string)

  datatype Summary = Summary(requiredCount: nat, closedCount: nat, openChecks: seq<string>, missingChecks: seq<string>,
                             status: GateState, blockers: seq<Blocker>)

  /** `checksById`: of several checks with one id the last counts. */
  function ChecksById(checks: seq<Json>, n: nat): map<string, Json>
    requires n <= |checks|
  {
    if n == 0 then map[]
    else
      var byId, check := ChecksById(checks, n - 1), checks[n - 1];
      if check.Obj? && IdOf(check) != "" then byId[IdOf(check) := check] else byId
  }

  datatype Tally = Tally(closed: nat, open: seq<string>, missing: seq<string>, blockers: seq<Blocker>)

  function TallyUp(byId: map<string, Json>, required: seq<string>, n: nat): Tally
    requires n <= |required|
  {
    if n == 0 then Tally(0, [], [], [])
    else
      var t, id := TallyUp(byId, required, n - 1), required[n - 1];
      if id !in byId then t.(missing := t.missing + [id], blockers := t.blockers + [MissingCheck(id)])
      else if !IsClosed(byId[id]) then t.(open := t.open + [id], blockers := t.blockers + [OpenCheck(id, StatusOf(byId[id]))])
      else t.(closed := t.closed + 1)
  }

  function Settle(requiredCount: nat, t: Tally): Summary {
    Summary(requiredCount, t.closed, t.open, t.missing,
            if t.missing != [] then GateBlocked else if t.open != [] then Pending else Complete, t.blockers)
  }

  function GateSummary(gate: Json): Summary {
    var values, checks := Elements(Field(gate, RequiredChecks)), Elements(Field(gate, CheckList));
    if !gate.Obj? then Summary(0, 0, [], [], GateBlocked, [NotAnObject])
    else if values == [] then Summary(0, 0, [], [], GateBlocked, [NoRequired])
    else if checks == [] then Summary(0, 0, [], [], GateBlocked, [NoChecks])
    else
      var required := Distinct(values, |values|);
      Settle(|required|, TallyUp(ChecksById(checks, |checks|), required, |required|))
  }

  method CollectGateChecks(gate: Json) returns (summary: Summary)
    ensures summary == GateSummary(gate)
  {
    hide IsClosed, StatusOf, IdOf;
    var values, checks := Elements(Field(gate, RequiredChecks)), Elements(Field(gate, CheckList));
    if !gate.Obj? { return Summary(0, 0, [], [], GateBlocked, [NotAnObject]); }
    if values == [] { return Summary(0, 0, [], [], GateBlocked, [NoRequired]); }
    if checks == [] { return Summary(0, 0, [], [], GateBlocked, [NoChecks]); }
    var requiredIds, _ := ScanRequired(values);
    var checksById := IndexChecks(checks);
    var tally := CountChecks(checksById, requiredIds);
    summary := Settle(|requiredIds|, tally);
  }

  method IndexChecks(checks: seq<Json>) returns (checksById: map<string, Json>)
    ensures checksById == ChecksById(checks, |checks|)
  {
    hide IdOf;
    checksById := map[];
    for i := 0 to |checks|
      invariant checksById == ChecksById(checks, i)
    {
      if checks[i].Obj? && IdOf(checks[i]) != "" { checksById := checksById[IdOf(checks[i]) := checks[i]]; }
    }
  }

  method CountChecks(checksById: map<string, Json>, requiredIds: seq<string>) returns (tally: Tally)
    ensures tally == TallyUp(checksById, requiredIds, |requiredIds|)
  {
    hide IsClosed, StatusOf;
    var closed := 0;
    var open: seq<string>, missing: seq<string> := [], [];
    var blockers: seq<Blocker> := [];
    for i := 0 to |requiredIds|
      invariant Tally(closed, open, missing, blockers) == TallyUp(checksById, requiredIds, i)
    {
      var id := requiredIds[i];
      if id !in checksById {
        missing := missing + [id];
        blockers := blockers + [MissingCheck(id)];
      } else if !IsClosed(checksById[id]) {
        open := open + [id];
        blockers := blockers + [OpenCheck(id, StatusOf(checksById[id]))];
      } else {
        closed := closed + 1;
      }
    }
    tally := Tally(closed, open, missing, blockers);
  }

  lemma {:induction false} TallyExact(byId: map<string, Json>, required: seq<string>, n: nat)
    requires n <= |required|
    ensures var t := TallyUp(byId, required, n);
      && t.closed + |t.open| + |t.missing| == n
      && |t.blockers| == |t.open| + |t.missing|
      && (t.blockers == [] <==> forall k | 0 <= k < n :: required[k] in byId && IsClosed(byId[required[k]]))
  {
    hide IsClosed;
    if n > 0 { TallyExact(byId, required, n - 1); }
  }

  /** Nothing is counted twice or lost: past the guards every required check is closed, open or missing, each open or
      missing one is a blocker, and the gate is complete exactly when there is no blocker. */
  lemma GateCounts(gate: Json)
    ensures var s := GateSummary(gate);
      && (s.status == Complete <==> s.blockers == [])
      && (Elements(Field(gate, RequiredChecks)) != [] && Elements(Field(gate, CheckList)) != [] ==>
            && s.closedCount + |s.openChecks| + |s.missingChecks| == s.requiredCount
            && |s.blockers| == |s.openChecks| + |s.missingChecks|)
  {
    hide TallyUp, ChecksById;
    var values, checks := Elements(Field(gate, RequiredChecks)), Elements(Field(gate, CheckList));
    if values != [] && checks != [] {
      var required := Distinct(values, |values|);
      TallyExact(ChecksById(checks, |checks|), required, |required|);
    }
  }

  lemma {:induction false} LookupUnique(checks: seq<Json>, n: nat, required: seq<string>, i: nat)
    requires n <= |checks| && i < n && CleanChecks(checks, n, required)
    ensures IdOf(checks[i]) in ChecksById(checks, n) && ChecksById(checks, n)[IdOf(checks[i])] == checks[i]
  {
    hide IdOf, IsClosed, HasValidStatus, HasEvidence;
    assert CleanCheck(checks[n - 1]);
    if i < n - 1 { LookupUnique(checks, n - 1, required, i); }
  }

  /** A gate the strict evidence check accepts is complete for the readiness check, without any AO blocker,
      as long as it requires something. */
  lemma EvidenceCheckImpliesComplete(rules: Rules, gate: Json)
    requires Validated(rules, gate, true).ok && Elements(Field(gate, RequiredChecks)) != []
    ensures GateSummary(gate).status == Complete && GateSummary(gate).blockers == []
    ensures GateSummary(gate).closedCount == GateSummary(gate).requiredCount > 0
  {
    hide TallyUp, ChecksById, TextOf, IdOf, IsClosed, CleanCheck, Validated;
    var values, checks := Elements(Field(gate, RequiredChecks)), Elements(Field(gate, CheckList));
    var required := Distinct(values, |values|);
    StrictOkIffClean(rules, gate);
    DistinctAre(values, |values|);
    assert TextOf(values[0]) in required;
    forall k | 0 <= k < |required|
      ensures required[k] in ChecksById(checks, |checks|) && IsClosed(ChecksById(checks, |checks|)[required[k]])
    {
      assert required[k] in required;
      assert Listed(checks, required[k]);
      var i :| 0 <= i < |checks| && IdOf(checks[i]) == required[k];
      LookupUnique(checks, |checks|, required, i);
    }
    assert checks != [] by { assert required[0] in required; }
    TallyExact(ChecksById(checks, |checks|), required, |required|);
  }

  /** An accepted gate that requires nothing is blocked for the readiness check: the hypothesis above is needed. */
  lemma NothingRequired(rules: Rules, gate: Json)
    requires Validated(rules, gate, true).ok && Elements(Field(gate, RequiredChecks)) == []
    ensures GateSummary(gate).status == GateBlocked
  {
  }
}
