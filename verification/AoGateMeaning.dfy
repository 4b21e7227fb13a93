/** What the two checkers of the AO dependency gate report, said on the values of the gate document. */
module AoGateMeaning {
  import opened Strings
  import opened Sorting
  import opened Documents
  import opened AoGate

  // ---------------------------------------------------------------- reading the gate

  ghost predicate Names(check: Json, id: string) { check.Obj? && Reads(Field(check, Id), id) }
  ghost predicate Says(check: Json, word: string) { exists t :: Reads(Field(check, Status), t) && Lower(t) == word }

  ghost predicate IsProof(value: Json) {
    || (value.Str? && NonBlank(value.s))
    || (value.Arr? && value.elems != [] && forall e | e in value.elems :: e.Str? && NonBlank(e.s))
  }

  ghost predicate Proven(check: Json) {
    || (Field(check, Evidence).Some? && IsProof(Field(check, Evidence).value))
    || (Field(check, EvidenceRefs).Some? && IsProof(Field(check, EvidenceRefs).value))
  }

  ghost predicate Requires(values: seq<Json>, n: nat, id: string)
    requires n <= |values|
  {
    exists i | 0 <= i < n :: Reads(Some(values[i]), id)
  }

  ghost predicate Present(checks: seq<Json>, n: nat, id: string)
    requires n <= |checks|
  {
    exists i | 0 <= i < n :: Names(checks[i], id)
  }

  /** The check has an identifier that no earlier check has. */
  ghost predicate First(checks: seq<Json>, i: nat, id: string)
    requires i < |checks|
  {
    Names(checks[i], id) && !Present(checks, i, id)
  }

  lemma NamesId(check: Json, id: string)
    ensures Names(check, id) <==> check.Obj? && id != "" && IdOf(check) == id
  {
    hide TextOr;
    ReadsText(Field(check, Id), id);
  }

  lemma SaysWord(check: Json, word: string)
    requires word != ""
    ensures Says(check, word) <==> StatusOf(check) == word
  {
    hide TextOr, Reads;
    var t := TextOr(Field(check, Status));
    forall u ensures Reads(Field(check, Status), u) <==> u != "" && u == t { ReadsText(Field(check, Status), u); }
    if StatusOf(check) == word {
      assert Lower(t) == word;
      assert t != "" by { assert |Lower(t)| == |t|; }
      assert Reads(Field(check, Status), t);
    }
  }

  /** The states in the words of the gate file. */
  lemma StateWords(check: Json)
    ensures IsClosed(check) <==> Says(check, "closed")
    ensures HasValidStatus(check) <==> Says(check, "open") || Says(check, "in_progress") || Says(check, "blocked") || Says(check, "closed")
  {
    hide Says, StatusOf;
    SaysWord(check, "open");
    SaysWord(check, "in_progress");
    SaysWord(check, "blocked");
    SaysWord(check, "closed");
  }

  lemma ProvenIsEvidence(check: Json)
    ensures HasEvidence(check) <==> Proven(check)
  {
    hide Trim, NonBlank;
    EvidenceIsProof(Field(check, Evidence));
    EvidenceIsProof(Field(check, EvidenceRefs));
  }

  lemma EvidenceIsProof(value: Option<Json>)
    ensures IsEvidence(value) <==> value.Some? && IsProof(value.value)
  {
    hide Trim, NonBlank;
    if value.Some? && value.value.Arr? {
      var es := value.value.elems;
      assert forall i | 0 <= i < |es| :: es[i] in es;
    }
  }

  // ---------------------------------------------------------------- the evidence check

  ghost predicate KnownWord(check: Json) { Says(check, "open") || Says(check, "in_progress") || Says(check, "blocked") || Says(check, "closed") }

  /** The first `n` checks leave the required identifier open. */
  ghost predicate LeftOpen(checks: seq<Json>, n: nat, id: string)
    requires n <= |checks|
  {
    exists i | 0 <= i < n :: First(checks, i, id) && !Says(checks[i], "closed")
  }

  /** When each issue is reported. */
  ghost predicate Applies(rules: Rules, gate: Json, strict: bool, x: Issue) {
    var values, checks := Elements(Field(gate, RequiredChecks)), Elements(Field(gate, CheckList));
    match x
    case GateNotObject => !gate.Obj?
    case BadRelease => gate.Obj? && !(if IsText(Field(gate, Release)) then rules.isRelease(Trim(gate.fields[Release].s)) else rules.isRelease(""))
    case BadTimestamp => gate.Obj? && !rules.isCurrent(Field(gate, UpdatedAt))
    case RequiredNotArray => gate.Obj? && !(RequiredChecks in gate.fields && gate.fields[RequiredChecks].Arr?)
    case ChecksNotArray => gate.Obj? && !(CheckList in gate.fields && gate.fields[CheckList].Arr?)
    case _ => ForRequired(values, |values|, x) || ForCheck(checks, |checks|, x) || ForBoth(values, checks, |checks|, strict, x)
  }

  ghost predicate ForRequired(values: seq<Json>, n: nat, x: Issue)
    requires n <= |values|
  {
    match x
    case RequiredBlank(i) => i < n && forall t :: !Reads(Some(values[i]), t)
    case RequiredRepeated(i) => i < n && exists t :: Reads(Some(values[i]), t) && Requires(values, i, t)
    case _ => false
  }

  ghost predicate ForCheck(checks: seq<Json>, n: nat, x: Issue)
    requires n <= |checks|
  {
    match x
    case CheckNotObject(i) => i < n && !checks[i].Obj?
    case CheckWithoutId(i) => i < n && checks[i].Obj? && forall id :: !Names(checks[i], id)
    case CheckRepeated(i) => i < n && exists id :: Names(checks[i], id) && Present(checks, i, id)
    case UnknownStatus(i) => i < n && (exists id :: First(checks, i, id)) && !KnownWord(checks[i])
    case ClosedWithoutEvidence(i) => i < n && (exists id :: First(checks, i, id)) && Says(checks[i], "closed") && !Proven(checks[i])
    case _ => false
  }

  ghost predicate ForBoth(values: seq<Json>, checks: seq<Json>, n: nat, strict: bool, x: Issue)
    requires n <= |checks|
  {
    match x
    case NotClosed(id) => strict && Requires(values, |values|, id) && LeftOpen(checks, n, id)
    case NotPresent(id) => Requires(values, |values|, id) && !Present(checks, |checks|, id)
    case _ => false
  }

  lemma {:induction false} DistinctReads(values: seq<Json>, n: nat)
    requires n <= |values|
    ensures forall id :: id in Distinct(values, n) <==> Requires(values, n, id)
  {
    hide Reads, Requires, TextOf;
    if n > 0 {
      DistinctReads(values, n - 1);
      forall id ensures id in Distinct(values, n) <==> Requires(values, n, id) {
        TextReads(values[n - 1], id);
        RequiresStep(values, n, id);
      }
    } else {
      NoneRequired(values);
    }
  }

  lemma NoneRequired(values: seq<Json>)
    ensures forall id :: !Requires(values, 0, id)
  {
  }

  lemma RequiresStep(values: seq<Json>, n: nat, id: string)
    requires 0 < n <= |values|
    ensures Requires(values, n, id) <==> Requires(values, n - 1, id) || Reads(Some(values[n - 1]), id)
  {
    hide Reads;
  }

  lemma TextReads(value: Json, t: string)
    ensures Reads(Some(value), t) <==> t != "" && TextOf(value) == t
  {
    ReadsText(Some(value), t);
  }

  lemma {:induction false} RequiredIssuesApply(values: seq<Json>, n: nat)
    requires n <= |values|
    ensures forall x :: x in RequiredIssues(values, n) <==> ForRequired(values, n, x)
  {
    hide Reads, TextOf, Distinct, Requires;
    if n > 0 {
      RequiredIssuesApply(values, n - 1);
      DistinctReads(values, n - 1);
      var v := values[n - 1];
      var t := TextOf(v);
      forall u ensures Reads(Some(v), u) <==> u != "" && t == u { TextReads(v, u); }
      forall x ensures x in RequiredIssues(values, n) <==> ForRequired(values, n, x) { RequiredAdds(values, n, t, x); }
    }
  }

  lemma RequiredAdds(values: seq<Json>, n: nat, t: string, x: Issue)
    requires 0 < n <= |values| && var v := values[n - 1]; forall u :: Reads(Some(v), u) <==> u != "" && t == u
    ensures ForRequired(values, n, x) <==> ForRequired(values, n - 1, x) || (x == RequiredBlank(n - 1) && t == "")
                                           || (x == RequiredRepeated(n - 1) && t != "" && Requires(values, n - 1, t))
  {
    hide Reads, Requires;
    if t != "" { assert Reads(Some(values[n - 1]), t); }
  }

  lemma PresentIds(ids: set<string>, checks: seq<Json>, n: nat)
    requires n <= |checks| && ScanIds(ids, checks, n)
    ensures forall id :: id in ids <==> Present(checks, n, id)
  {
    hide IdOf, Names;
    forall id ensures id in ids <==> Present(checks, n, id) {
      forall i | 0 <= i < n ensures Names(checks[i], id) <==> checks[i].Obj? && IdOf(checks[i]) == id != "" { NamesId(checks[i], id); }
    }
  }

  /** One check more. */
  ghost predicate CheckAdds(values: seq<Json>, checks: seq<Json>, i: nat, strict: bool, x: Issue)
    requires i < |checks|
  {
    var check := checks[i];
    match x
    case CheckNotObject(k) => k == i && !check.Obj?
    case CheckWithoutId(k) => k == i && check.Obj? && IdOf(check) == ""
    case CheckRepeated(k) => k == i && check.Obj? && IdOf(check) != "" && Present(checks, i, IdOf(check))
    case UnknownStatus(k) => k == i && check.Obj? && IdOf(check) != "" && !Present(checks, i, IdOf(check)) && !HasValidStatus(check)
    case ClosedWithoutEvidence(k) =>
      k == i && check.Obj? && IdOf(check) != "" && !Present(checks, i, IdOf(check)) && IsClosed(check) && !HasEvidence(check)
    case NotClosed(id) =>
      strict && check.Obj? && IdOf(check) == id != "" && !Present(checks, i, id) && Requires(values, |values|, id) && !IsClosed(check)
    case _ => false
  }

  lemma ScanAdds(scan: Scan, values: seq<Json>, checks: seq<Json>, i: nat, required: seq<string>, strict: bool, x: Issue)
    requires i < |checks| && (forall id :: id in scan.ids <==> Present(checks, i, id))
    requires forall id :: id in required <==> Requires(values, |values|, id)
    ensures x in ScanCheck(scan, checks[i], i, required, strict).issues <==> x in scan.issues || CheckAdds(values, checks, i, strict, x)
  {
    hide IdOf, IsClosed, HasValidStatus, HasEvidence, Present, Requires;
  }

  lemma CheckApplies(values: seq<Json>, checks: seq<Json>, n: nat, strict: bool, x: Issue)
    requires 0 < n <= |checks|
    ensures !x.NotPresent? ==>
      (ForCheck(checks, n, x) || ForBoth(values, checks, n, strict, x) <==>
       ForCheck(checks, n - 1, x) || ForBoth(values, checks, n - 1, strict, x) || CheckAdds(values, checks, n - 1, strict, x))
  {
    hide IdOf, IsClosed, HasValidStatus, HasEvidence, Present, Requires, Names, Says, Proven;
    var check := checks[n - 1];
    StateWords(check);
    ProvenIsEvidence(check);
    forall id ensures Names(check, id) <==> check.Obj? && id != "" && IdOf(check) == id { NamesId(check, id); }
    if check.Obj? && IdOf(check) != "" {
      assert Names(check, IdOf(check));
      FirstById(checks, n - 1);
      assert (exists id :: Names(check, id) && Present(checks, n - 1, id)) <==> Present(checks, n - 1, IdOf(check));
    }
    if x.NotClosed? { OpenStep(checks, n, x.id); }
  }

  lemma FirstById(checks: seq<Json>, i: nat)
    requires i < |checks| && Names(checks[i], IdOf(checks[i]))
    ensures (exists id :: First(checks, i, id)) <==> First(checks, i, IdOf(checks[i]))
  {
    hide Names, IdOf, Present;
    forall id ensures Names(checks[i], id) ==> id == IdOf(checks[i]) { NamesId(checks[i], id); }
  }

  lemma OpenStep(checks: seq<Json>, n: nat, id: string)
    requires 0 < n <= |checks|
    ensures LeftOpen(checks, n, id) <==> LeftOpen(checks, n - 1, id) || (First(checks, n - 1, id) && !Says(checks[n - 1], "closed"))
  {
    hide First, Says;
  }

  ghost predicate ScanSays(start: seq<Issue>, values: seq<Json>, checks: seq<Json>, n: nat, strict: bool, x: Issue)
    requires n <= |checks|
  {
    x in start || ForCheck(checks, n, x) || (!x.NotPresent? && ForBoth(values, checks, n, strict, x))
  }

  lemma {:induction false} ScanApplies(start: seq<Issue>, values: seq<Json>, checks: seq<Json>, n: nat, required: seq<string>, strict: bool, x: Issue)
    requires n <= |checks| && required == Distinct(values, |values|)
    ensures x in ScanChecks(start, checks, n, required, strict).issues <==> ScanSays(start, values, checks, n, strict, x)
  {
    hide ScanCheck, ScanSays, Distinct, ScanIds;
    if n > 0 {
      ScanApplies(start, values, checks, n - 1, required, strict, x);
      ScanFinds(start, checks, n - 1, required, strict);
      OneMore(ScanChecks(start, checks, n - 1, required, strict), start, values, checks, n, required, strict, x);
    } else {
      NothingScanned(start, values, checks, strict, x);
    }
  }

  lemma OneMore(scan: Scan, start: seq<Issue>, values: seq<Json>, checks: seq<Json>, n: nat, required: seq<string>, strict: bool, x: Issue)
    requires 0 < n <= |checks| && required == Distinct(values, |values|) && ScanIds(scan.ids, checks, n - 1)
    requires x in scan.issues <==> ScanSays(start, values, checks, n - 1, strict, x)
    ensures x in ScanCheck(scan, checks[n - 1], n - 1, required, strict).issues <==> ScanSays(start, values, checks, n, strict, x)
  {
    hide ScanCheck, ForCheck, ForBoth, CheckAdds, Distinct, Requires, Present, ScanIds;
    PresentIds(scan.ids, checks, n - 1);
    DistinctReads(values, |values|);
    ScanAdds(scan, values, checks, n - 1, required, strict, x);
    CheckApplies(values, checks, n, strict, x);
    NoPresence(values, checks, n - 1, strict, x);
    NoPresence(values, checks, n, strict, x);
  }

  lemma NoPresence(values: seq<Json>, checks: seq<Json>, n: nat, strict: bool, x: Issue)
    requires n <= |checks|
    ensures x.NotPresent? ==> !ForCheck(checks, n, x) && (n < |checks| ==> !CheckAdds(values, checks, n, strict, x))
  {
    hide Requires, Present;
  }

  lemma NothingScanned(start: seq<Issue>, values: seq<Json>, checks: seq<Json>, strict: bool, x: Issue)
    ensures ScanSays(start, values, checks, 0, strict, x) <==> x in start
  {
    hide Requires, Present, Says, First;
  }

  lemma {:induction false} PresenceApplies(ids: set<string>, required: seq<string>, n: nat, x: Issue)
    requires n <= |required|
    ensures x in PresenceIssues(ids, required, n) <==> x.NotPresent? && x.id in required[..n] && x.id !in ids
  {
    if n > 0 {
      PresenceApplies(ids, required, n - 1, x);
      assert required[..n] == required[..n - 1] + [required[n - 1]];
    }
  }

  /** Which issues the evidence check reports, for every gate value in both modes. */
  lemma IssuesExact(rules: Rules, gate: Json, strict: bool, x: Issue)
    ensures x in Validated(rules, gate, strict).issues <==> Applies(rules, gate, strict, x)
    ensures Validated(rules, gate, strict).ok <==> forall y :: !Applies(rules, gate, strict, y)
  {
    hide Validated, Applies;
    forall y ensures y in Validated(rules, gate, strict).issues <==> Applies(rules, gate, strict, y) { IssueApplies(rules, gate, strict, y); }
    OkMeans(rules, gate, strict);
    var issues := Validated(rules, gate, strict).issues;
    if issues != [] { assert issues[0] in issues; }
  }

  lemma OkMeans(rules: Rules, gate: Json, strict: bool)
    ensures var v := Validated(rules, gate, strict); v.ok <==> v.issues == []
  {
    hide ScanChecks, HeadIssues, RequiredIssues, PresenceIssues, Distinct;
  }

  /** What the two loops over required identifiers and checks add to the issues before them. */
  lemma LoopsApply(start: seq<Issue>, values: seq<Json>, checks: seq<Json>, strict: bool, x: Issue)
    ensures var required := Distinct(values, |values|); var scan := ScanChecks(start, checks, |checks|, required, strict);
      x in scan.issues + PresenceIssues(scan.ids, required, |required|) <==>
      x in start || ForCheck(checks, |checks|, x) || ForBoth(values, checks, |checks|, strict, x)
  {
    hide ScanChecks, PresenceIssues, Distinct, ForCheck, ForBoth, Requires, Present, ScanIds;
    var required := Distinct(values, |values|);
    var ids := ScanChecks(start, checks, |checks|, required, strict).ids;
    ScanApplies(start, values, checks, |checks|, required, strict, x);
    ScanFinds(start, checks, |checks|, required, strict);
    PresentIds(ids, checks, |checks|);
    DistinctReads(values, |values|);
    PresenceApplies(ids, required, |required|, x);
    assert required[..|required|] == required;
    OtherIssues(values, checks, strict, x);
  }

  lemma ObjectApplies(rules: Rules, gate: Json, strict: bool, x: Issue)
    requires gate.Obj?
    ensures var values, checks := Elements(Field(gate, RequiredChecks)), Elements(Field(gate, CheckList));
      Applies(rules, gate, strict, x) <==>
      x in HeadIssues(rules, gate) || ForRequired(values, |values|, x) || ForCheck(checks, |checks|, x) || ForBoth(values, checks, |checks|, strict, x)
  {
    hide HeadIssues, ForRequired, ForCheck, ForBoth, Trim, IsText;
    OtherIssues(Elements(Field(gate, RequiredChecks)), Elements(Field(gate, CheckList)), strict, x);
    HeadApplies(rules, gate, x);
  }

  lemma IssueApplies(rules: Rules, gate: Json, strict: bool, x: Issue)
    ensures x in Validated(rules, gate, strict).issues <==> Applies(rules, gate, strict, x)
  {
    hide ScanChecks, HeadIssues, RequiredIssues, PresenceIssues, Distinct, ForRequired, ForCheck, ForBoth, Applies;
    var values, checks := Elements(Field(gate, RequiredChecks)), Elements(Field(gate, CheckList));
    if gate.Obj? {
      RequiredIssuesApply(values, |values|);
      LoopsApply(HeadIssues(rules, gate) + RequiredIssues(values, |values|), values, checks, strict, x);
      ObjectApplies(rules, gate, strict, x);
    } else {
      NoGateApplies(rules, gate, strict, x);
    }
  }

  lemma NoGateApplies(rules: Rules, gate: Json, strict: bool, x: Issue)
    requires !gate.Obj?
    ensures Applies(rules, gate, strict, x) <==> x == GateNotObject
  {
    hide ForRequired, ForCheck, ForBoth, Trim;
    NoElements(strict, x);
    OtherIssues([], [], strict, x);
  }

  lemma HeadApplies(rules: Rules, gate: Json, x: Issue)
    requires gate.Obj?
    ensures x in HeadIssues(rules, gate) <==> IsHead(x) && Applies(rules, gate, false, x)
  {
    hide ForRequired, ForCheck, ForBoth, Trim;
  }

  predicate IsHead(x: Issue) { x.BadRelease? || x.BadTimestamp? || x.RequiredNotArray? || x.ChecksNotArray? }

  lemma OtherIssues(values: seq<Json>, checks: seq<Json>, strict: bool, x: Issue)
    ensures IsHead(x) || x.GateNotObject? ==> !ForRequired(values, |values|, x) && !ForCheck(checks, |checks|, x) && !ForBoth(values, checks, |checks|, strict, x)
    ensures x.NotPresent? ==> !ForRequired(values, |values|, x) && !ForCheck(checks, |checks|, x)
                              && (ForBoth(values, checks, |checks|, strict, x) <==> Requires(values, |values|, x.id) && !Present(checks, |checks|, x.id))
  {
    hide Requires, Present, Reads, Names, First;
  }

  lemma NoElements(strict: bool, x: Issue)
    ensures !ForRequired([], 0, x) && !ForCheck([], 0, x) && !ForBoth([], [], 0, strict, x)
  {
  }

  // ---------------------------------------------------------------- warnings and counts

  /** The checks that are counted, closed or not. */
  ghost function CountedOnes(values: seq<Json>, checks: seq<Json>, n: nat, closed: bool): (r: set<nat>)
    requires n <= |checks|
  {
    set i | 0 <= i < n && Counts(values, checks, i, closed)
  }

  ghost predicate Counts(values: seq<Json>, checks: seq<Json>, i: nat, closed: bool)
    requires i < |checks|
  {
    (exists id :: First(checks, i, id) && Requires(values, |values|, id)) && (Says(checks[i], "closed") <==> closed)
  }

  ghost predicate ScanCounted(scan: Scan, values: seq<Json>, checks: seq<Json>, n: nat, strict: bool)
    requires n <= |checks|
  {
    && scan.closed == |CountedOnes(values, checks, n, true)| && scan.open == |CountedOnes(values, checks, n, false)|
    && |scan.warnings| == (if strict then 0 else scan.open)
    && forall x :: x in scan.warnings <==> !strict && x.NotClosed? && Requires(values, |values|, x.id) && LeftOpen(checks, n, x.id)
  }

  lemma CountedStep(values: seq<Json>, checks: seq<Json>, n: nat, closed: bool)
    requires 0 < n <= |checks|
    ensures |CountedOnes(values, checks, n, closed)|
            == |CountedOnes(values, checks, n - 1, closed)| + (if Counts(values, checks, n - 1, closed) then 1 else 0)
  {
    hide Counts;
    var less, more := CountedOnes(values, checks, n - 1, closed), CountedOnes(values, checks, n, closed);
    assert more == less + (if Counts(values, checks, n - 1, closed) then {n - 1} else {});
  }

  lemma CountsExact(values: seq<Json>, checks: seq<Json>, i: nat, closed: bool)
    requires i < |checks|
    ensures Counts(values, checks, i, closed) <==>
            var check := checks[i];
            check.Obj? && IdOf(check) != "" && !Present(checks, i, IdOf(check)) && Requires(values, |values|, IdOf(check)) && IsClosed(check) == closed
  {
    hide IdOf, IsClosed, HasValidStatus, Present, Requires, Names, Says;
    StateWords(checks[i]);
    NamesId(checks[i], IdOf(checks[i]));
    forall id ensures Names(checks[i], id) ==> id == IdOf(checks[i]) { NamesId(checks[i], id); }
  }

  lemma OpenExact(checks: seq<Json>, n: nat, id: string)
    requires 0 < n <= |checks|
    ensures LeftOpen(checks, n, id) <==>
            var check := checks[n - 1];
            LeftOpen(checks, n - 1, id) || (check.Obj? && IdOf(check) == id != "" && !Present(checks, n - 1, id) && !IsClosed(check))
  {
    hide IdOf, IsClosed, HasValidStatus, Present, Names, Says, LeftOpen;
    OpenStep(checks, n, id);
    StateWords(checks[n - 1]);
    NamesId(checks[n - 1], id);
  }

  lemma CountOneMore(scan: Scan, values: seq<Json>, checks: seq<Json>, n: nat, required: seq<string>, strict: bool)
    requires 0 < n <= |checks| && required == Distinct(values, |values|) && ScanIds(scan.ids, checks, n - 1)
    requires ScanCounted(scan, values, checks, n - 1, strict)
    ensures ScanCounted(ScanCheck(scan, checks[n - 1], n - 1, required, strict), values, checks, n, strict)
  {
    hide Counts, CountedOnes, LeftOpen, Distinct, Requires, Present, ScanIds, IdOf, IsClosed, HasValidStatus, HasEvidence;
    PresentIds(scan.ids, checks, n - 1);
    DistinctReads(values, |values|);
    CountedStep(values, checks, n, true);
    CountedStep(values, checks, n, false);
    CountsExact(values, checks, n - 1, true);
    CountsExact(values, checks, n - 1, false);
    forall id ensures LeftOpen(checks, n, id) <==>
                      var check := checks[n - 1];
                      LeftOpen(checks, n - 1, id) || (check.Obj? && IdOf(check) == id != "" && !Present(checks, n - 1, id) && !IsClosed(check)) {
      OpenExact(checks, n, id);
    }
  }

  lemma {:induction false} ScanCounts(start: seq<Issue>, values: seq<Json>, checks: seq<Json>, n: nat, required: seq<string>, strict: bool)
    requires n <= |checks| && required == Distinct(values, |values|)
    ensures ScanCounted(ScanChecks(start, checks, n, required, strict), values, checks, n, strict)
  {
    hide ScanCheck, Distinct, ScanCounted, ScanIds;
    if n > 0 {
      ScanCounts(start, values, checks, n - 1, required, strict);
      ScanFinds(start, checks, n - 1, required, strict);
      CountOneMore(ScanChecks(start, checks, n - 1, required, strict), values, checks, n, required, strict);
    } else {
      NothingCounted(start, values, checks, strict);
    }
  }

  lemma NothingCounted(start: seq<Issue>, values: seq<Json>, checks: seq<Json>, strict: bool)
    ensures ScanCounted(Scan({}, start, [], 0, 0), values, checks, 0, strict)
  {
    hide Requires, Counts, First, Says;
  }

  /** The counts and the warnings of the evidence check: of several checks with one identifier the first counts; a required
      check that is not closed is a warning in relaxed mode, and the gate is ready for closeout without issue and warning. */
  lemma CountsAndWarnings(rules: Rules, gate: Json, strict: bool)
    ensures var v, values, checks := Validated(rules, gate, strict), Elements(Field(gate, RequiredChecks)), Elements(Field(gate, CheckList));
      && v.closedRequired == |CountedOnes(values, checks, |checks|, true)| && v.requiredOpen == |CountedOnes(values, checks, |checks|, false)|
      && (forall x :: x in v.warnings <==> !strict && x.NotClosed? && Requires(values, |values|, x.id) && LeftOpen(checks, |checks|, x.id))
      && (forall id :: id in v.required <==> Requires(values, |values|, id)) && NoDuplicates(v.required)
      && (v.closeoutReady <==> v.ok && v.warnings == [])
  {
    hide ScanChecks, HeadIssues, RequiredIssues, PresenceIssues, Distinct, CountedOnes, Requires, LeftOpen;
    var values, checks := Elements(Field(gate, RequiredChecks)), Elements(Field(gate, CheckList));
    ScanCounts(HeadIssues(rules, gate) + RequiredIssues(values, |values|), values, checks, |checks|, Distinct(values, |values|), strict);
    DistinctReads(values, |values|);
    DistinctAre(values, |values|);
    if !gate.Obj? { EmptyGate(); }
  }

  lemma EmptyGate()
    ensures |CountedOnes([], [], 0, true)| == |CountedOnes([], [], 0, false)| == 0
    ensures forall id :: !Requires([], 0, id) && !LeftOpen([], 0, id)
  {
  }

  // ---------------------------------------------------------------- the gate part of the readiness check

  /** The last check with the identifier. */
  ghost predicate LastWith(checks: seq<Json>, n: nat, id: string, check: Json)
    requires n <= |checks|
  {
    exists i | 0 <= i < n :: checks[i] == check && Names(check, id) && forall k | i < k < n :: !Names(checks[k], id)
  }

  lemma {:induction false} ById(checks: seq<Json>, n: nat, id: string)
    requires n <= |checks|
    ensures id in ChecksById(checks, n) <==> Present(checks, n, id)
    ensures id in ChecksById(checks, n) ==> LastWith(checks, n, id, ChecksById(checks, n)[id])
  {
    hide IdOf, Names;
    if n > 0 {
      ById(checks, n - 1, id);
      NamesId(checks[n - 1], id);
    }
  }

  lemma OneLast(checks: seq<Json>, n: nat, id: string, a: Json, b: Json)
    requires n <= |checks| && LastWith(checks, n, id, a) && LastWith(checks, n, id, b)
    ensures a == b
  {
    hide Names;
  }

  ghost predicate IsMissing(checks: seq<Json>, id: string) { !Present(checks, |checks|, id) }
  ghost predicate IsOpen(checks: seq<Json>, id: string) { exists check :: LastWith(checks, |checks|, id, check) && !Says(check, "closed") }

  /** What one required identifier adds to the summary. */
  ghost predicate BlockerFor(checks: seq<Json>, id: string, b: Blocker) {
    match b
    case MissingCheck(m) => m == id && IsMissing(checks, id)
    case OpenCheck(m, status) =>
      m == id && exists check :: LastWith(checks, |checks|, id, check) && !Says(check, "closed")
                              && (if status == "" then !IsText(Field(check, Status)) else Says(check, status))
    case _ => false
  }

  /** What one required identifier is in the table, and the blocker it adds. */
  ghost predicate OpenIn(byId: map<string, Json>, id: string) { id in byId && !IsClosed(byId[id]) }

  ghost predicate Adds(byId: map<string, Json>, id: string, b: Blocker) {
    if id !in byId then b == MissingCheck(id) else !IsClosed(byId[id]) && b == OpenCheck(id, StatusOf(byId[id]))
  }

  lemma OneRequired(checks: seq<Json>, id: string)
    ensures var byId := ChecksById(checks, |checks|); (IsMissing(checks, id) <==> id !in byId) && (IsOpen(checks, id) <==> OpenIn(byId, id))
  {
    hide ChecksById, Present, LastWith, Says, StatusOf, IsText, IsClosed;
    TheLast(checks, id);
    var byId := ChecksById(checks, |checks|);
    if id in byId { StateWords(byId[id]); }
  }

  lemma TheLast(checks: seq<Json>, id: string)
    ensures var byId := ChecksById(checks, |checks|);
      && (id in byId <==> Present(checks, |checks|, id))
      && (id in byId ==> forall check :: LastWith(checks, |checks|, id, check) <==> check == byId[id])
      && (id !in byId ==> forall check :: !LastWith(checks, |checks|, id, check))
  {
    hide ChecksById, Present, LastWith;
    var byId := ChecksById(checks, |checks|);
    ById(checks, |checks|, id);
    if id in byId {
      forall check | LastWith(checks, |checks|, id, check) ensures check == byId[id] { OneLast(checks, |checks|, id, check, byId[id]); }
    } else {
      forall check ensures !LastWith(checks, |checks|, id, check) { AbsentHasNone(checks, id, check); }
    }
  }

  lemma BlockerExact(checks: seq<Json>, id: string, b: Blocker)
    ensures BlockerFor(checks, id, b) <==> Adds(ChecksById(checks, |checks|), id, b)
  {
    hide ChecksById, Present, LastWith, Says, StatusOf, IsText, IsClosed;
    TheLast(checks, id);
    var byId := ChecksById(checks, |checks|);
    if id in byId {
      StateWords(byId[id]);
      if b.OpenCheck? { WordOf(byId[id], b.status); }
    }
  }

  lemma AbsentHasNone(checks: seq<Json>, id: string, check: Json)
    requires !Present(checks, |checks|, id)
    ensures !LastWith(checks, |checks|, id, check)
  {
    hide Names;
  }

  lemma WordOf(check: Json, status: string)
    ensures (if status == "" then !IsText(Field(check, Status)) else Says(check, status)) <==> status == StatusOf(check)
  {
    hide Says, IsText;
    if status == "" { assert |StatusOf(check)| == |TextOr(Field(check, Status))|; } else { SaysWord(check, status); }
  }

  lemma {:induction false} TallyMissing(byId: map<string, Json>, required: seq<string>, n: nat)
    requires n <= |required| && NoDuplicates(required)
    ensures var t := TallyUp(byId, required, n);
      NoDuplicates(t.missing) && forall id :: id in t.missing <==> id !in byId && exists k | 0 <= k < n :: required[k] == id
  {
    hide IsClosed, StatusOf;
    if n > 0 { TallyMissing(byId, required, n - 1); }
  }

  lemma {:induction false} TallyOpen(byId: map<string, Json>, required: seq<string>, n: nat)
    requires n <= |required| && NoDuplicates(required)
    ensures var t := TallyUp(byId, required, n);
      NoDuplicates(t.open) && forall id :: id in t.open <==> OpenIn(byId, id) && exists k | 0 <= k < n :: required[k] == id
  {
    hide IsClosed, StatusOf;
    if n > 0 {
      TallyOpen(byId, required, n - 1);
      assert required[n - 1] !in TallyUp(byId, required, n - 1).open;
    }
  }

  lemma {:induction false} TallyBlockers(byId: map<string, Json>, required: seq<string>, n: nat, b: Blocker)
    requires n <= |required|
    ensures b in TallyUp(byId, required, n).blockers <==> exists k | 0 <= k < n :: Adds(byId, required[k], b)
  {
    hide IsClosed, StatusOf;
    if n > 0 { TallyBlockers(byId, required, n - 1, b); }
  }

  ghost predicate TallySays(missing: seq<string>, open: seq<string>, blockers: seq<Blocker>, values: seq<Json>, checks: seq<Json>) {
    && (forall id :: id in missing <==> Requires(values, |values|, id) && IsMissing(checks, id))
    && (forall id :: id in open <==> Requires(values, |values|, id) && IsOpen(checks, id))
    && (forall b :: b in blockers <==> exists id :: Requires(values, |values|, id) && BlockerFor(checks, id, b))
  }

  lemma TallyMeans(values: seq<Json>, checks: seq<Json>)
    ensures var required := Distinct(values, |values|);
      var t := TallyUp(ChecksById(checks, |checks|), required, |required|);
      && TallySays(t.missing, t.open, t.blockers, values, checks)
      && NoDuplicates(t.missing) && NoDuplicates(t.open) && t.closed + |t.open| + |t.missing| == |required|
  {
    hide TallyUp, ChecksById, Distinct, Requires, IsMissing, IsOpen, BlockerFor, OpenIn, IsClosed;
    var byId, required := ChecksById(checks, |checks|), Distinct(values, |values|);
    var t := TallyUp(byId, required, |required|);
    DistinctAre(values, |values|);
    TallyExact(byId, required, |required|);
    TallyMissing(byId, required, |required|);
    TallyOpen(byId, required, |required|);
    forall id ensures id in t.missing <==> Requires(values, |values|, id) && IsMissing(checks, id) { MissingMeans(values, checks, id); }
    forall id ensures id in t.open <==> Requires(values, |values|, id) && IsOpen(checks, id) { OpenMeans(values, checks, id); }
    forall b ensures b in t.blockers <==> exists id :: Requires(values, |values|, id) && BlockerFor(checks, id, b) {
      DistinctReads(values, |values|);
      BlockersMean(values, checks, byId, required, b);
    }
  }

  lemma MissingMeans(values: seq<Json>, checks: seq<Json>, id: string)
    ensures var required := Distinct(values, |values|);
      id in TallyUp(ChecksById(checks, |checks|), required, |required|).missing <==> Requires(values, |values|, id) && IsMissing(checks, id)
  {
    hide TallyUp, ChecksById, Distinct, Requires, IsMissing, IsOpen, OpenIn;
    var required := Distinct(values, |values|);
    DistinctAre(values, |values|);
    DistinctReads(values, |values|);
    TallyMissing(ChecksById(checks, |checks|), required, |required|);
    OneRequired(checks, id);
  }

  lemma OpenMeans(values: seq<Json>, checks: seq<Json>, id: string)
    ensures var required := Distinct(values, |values|);
      id in TallyUp(ChecksById(checks, |checks|), required, |required|).open <==> Requires(values, |values|, id) && IsOpen(checks, id)
  {
    hide TallyUp, ChecksById, Distinct, Requires, IsMissing, IsOpen, OpenIn;
    var required := Distinct(values, |values|);
    DistinctAre(values, |values|);
    DistinctReads(values, |values|);
    TallyOpen(ChecksById(checks, |checks|), required, |required|);
    OneRequired(checks, id);
  }

  lemma BlockersMean(values: seq<Json>, checks: seq<Json>, byId: map<string, Json>, required: seq<string>, b: Blocker)
    requires byId == ChecksById(checks, |checks|) && forall id :: id in required <==> Requires(values, |values|, id)
    ensures b in TallyUp(byId, required, |required|).blockers <==> exists id :: Requires(values, |values|, id) && BlockerFor(checks, id, b)
  {
    hide TallyUp, ChecksById, Requires, BlockerFor, Adds;
    TallyBlockers(byId, required, |required|, b);
    forall id ensures BlockerFor(checks, id, b) <==> Adds(byId, id, b) { BlockerExact(checks, id, b); }
    forall k | 0 <= k < |required| ensures Requires(values, |values|, required[k]) { assert required[k] in required; }
  }

  /** What the readiness check says about a gate, for every gate value: of several checks with one identifier the last
      counts; a required identifier without a check is missing, one whose check is not closed is open; anything missing blocks,
      otherwise anything open leaves the gate pending. */
  lemma SummaryExact(gate: Json)
    ensures var s, values, checks := GateSummary(gate), Elements(Field(gate, RequiredChecks)), Elements(Field(gate, CheckList));
      if !gate.Obj? || values == [] || checks == [] then
        && s.status == GateBlocked && s.missingChecks == [] && s.openChecks == [] && s.requiredCount == s.closedCount == 0
        && s.blockers == [if !gate.Obj? then NotAnObject else if values == [] then NoRequired else NoChecks]
      else
        && (forall id :: id in s.missingChecks <==> Requires(values, |values|, id) && IsMissing(checks, id))
        && (forall id :: id in s.openChecks <==> Requires(values, |values|, id) && IsOpen(checks, id))
        && (forall b :: b in s.blockers <==> exists id :: Requires(values, |values|, id) && BlockerFor(checks, id, b))
        && NoDuplicates(s.missingChecks) && NoDuplicates(s.openChecks)
        && s.closedCount + |s.openChecks| + |s.missingChecks| == s.requiredCount == |Distinct(values, |values|)|
        && (s.status == GateBlocked <==> exists id :: Requires(values, |values|, id) && IsMissing(checks, id))
        && (s.status == Complete <==> forall id :: Requires(values, |values|, id) ==> !IsMissing(checks, id) && !IsOpen(checks, id))
  {
    hide TallyUp, ChecksById, Distinct, Requires, IsMissing, IsOpen, BlockerFor;
    var values, checks := Elements(Field(gate, RequiredChecks)), Elements(Field(gate, CheckList));
    if gate.Obj? && values != [] && checks != [] {
      TallyMeans(values, checks);
      var required := Distinct(values, |values|);
      var t := TallyUp(ChecksById(checks, |checks|), required, |required|);
      assert t.missing != [] ==> t.missing[0] in t.missing;
      assert t.open != [] ==> t.open[0] in t.open;
    }
  }
}
