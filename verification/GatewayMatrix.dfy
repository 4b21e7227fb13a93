/** Comparing the integrity state of several gateways: all at once, or in adjacent pairs. */
module GatewayMatrix {
  import opened Strings

  /** Primitive values; a number is identified with its text. */
  datatype Primitive = Null | Bool(b: bool) | Number(token: string) | Text(s: string)

  /** A parsed response. Objects and arrays carry their identity, which is what `Object.is` compares. */
  datatype Node = Leaf(value: Primitive) | Tree(id: nat, fields: map<string, Node>)

  type Path = seq<string>

  /** What a gateway answered; `None` when the request failed. */
  type Answer = Option<Node>

  function GetField(node: Node, path: Path): Option<Node> {
    if path == [] then Some(node)
    else if node.Tree? && path[0] in node.fields then GetField(node.fields[path[0]], path[1..])
    else None
  }

  // ---------------------------------------------------------------- one comparison

  datatype RowStatus = RowInvalid | Consensus | Mismatch

  datatype Report = Report(rows: seq<RowStatus>, mismatches: nat, invalid: bool)

  ghost predicate AllFound(snapshots: seq<Node>, path: Path) {
    forall k | 0 <= k < |snapshots| :: GetField(snapshots[k], path).Some?
  }

  ghost predicate AllSame(snapshots: seq<Node>, path: Path) {
    forall k | 0 <= k < |snapshots| :: GetField(snapshots[k], path) == GetField(snapshots[0], path)
  }

  ghost function RowOf(snapshots: seq<Node>, path: Path): RowStatus {
    if !AllFound(snapshots, path) then RowInvalid else if AllSame(snapshots, path) then Consensus else Mismatch
  }

  ghost function Rows(snapshots: seq<Node>, fields: seq<Path>, n: nat): Report
    requires n <= |fields|
  {
    if n == 0 then Report([], 0, false)
    else
      var r, row := Rows(snapshots, fields, n - 1), RowOf(snapshots, fields[n - 1]);
      Report(r.rows + [row], r.mismatches + (if row == Mismatch then 1 else 0), r.invalid || row == RowInvalid)
  }

  method CompareField(snapshots: seq<Node>, path: Path) returns (row: RowStatus)
    ensures row == RowOf(snapshots, path)
  {
    hide GetField;
    var i := 0;
    while i < |snapshots|
      invariant 0 <= i <= |snapshots|
      invariant forall k | 0 <= k < i :: GetField(snapshots[k], path).Some?
    {
      if GetField(snapshots[i], path).None? { return RowInvalid; }
      i := i + 1;
    }
    i := 0;
    while i < |snapshots|
      invariant 0 <= i <= |snapshots|
      invariant forall k | 0 <= k < i :: GetField(snapshots[k], path) == GetField(snapshots[0], path)
    {
      if GetField(snapshots[i], path) != GetField(snapshots[0], path) { return Mismatch; }
      i := i + 1;
    }
    return Consensus;
  }

  method BuildComparisonReport(snapshots: seq<Node>, fields: seq<Path>) returns (report: Report)
    ensures report == Rows(snapshots, fields, |fields|)
  {
    var rows: seq<RowStatus>, mismatches: nat, invalid := [], 0, false;
    for i := 0 to |fields|
      invariant Report(rows, mismatches, invalid) == Rows(snapshots, fields, i)
    {
      var row := CompareField(snapshots, fields[i]);
      if row == RowInvalid { invalid := true; }
      if row == Mismatch { mismatches := mismatches + 1; }
      rows := rows + [row];
    }
    report := Report(rows, mismatches, invalid);
  }

  // ---------------------------------------------------------------- the runs

  datatype Mode = Pairwise | All
  datatype Outcome = Pass | Differs | Failure

  /** The gateways of each run. */
  function RunPlan(count: nat, mode: Mode): (plan: seq<seq<nat>>)
    ensures forall r, k | 0 <= r < |plan| && 0 <= k < |plan[r]| :: plan[r][k] < count
  {
    if mode == All then [seq(count, i => i)]
    else seq(if count == 0 then 0 else count - 1, i => [i, i + 1])
  }

  method BuildRunPlan(count: nat, mode: Mode) returns (plan: seq<seq<nat>>)
    ensures plan == RunPlan(count, mode)
  {
    if mode == All { return [seq(count, i => i)]; }
    plan := [];
    var index := 0;
    while index + 1 < count
      invariant |plan| == index && (index == 0 || index < count)
      invariant forall k | 0 <= k < index :: plan[k] == [k, k + 1]
    {
      plan := plan + [[index, index + 1]];
      index := index + 1;
    }
  }

  function Answered(answers: seq<Answer>): seq<Node>
    requires forall k | 0 <= k < |answers| :: answers[k].Some?
  {
    seq(|answers|, i requires 0 <= i < |answers| => answers[i].value)
  }

  /** `summarizeRun`: a failed request or a missing field is a failure, a differing field a mismatch. */
  ghost function OutcomeOf(answers: seq<Answer>, fields: seq<Path>): Outcome {
    if exists k | 0 <= k < |answers| :: answers[k].None? then Failure
    else
      var report := Rows(Answered(answers), fields, |fields|);
      if report.invalid then Failure else if report.mismatches > 0 then Differs else Pass
  }

  function Chosen(answers: seq<Answer>, indices: seq<nat>): (r: seq<Answer>)
    requires forall k | 0 <= k < |indices| :: indices[k] < |answers|
    ensures |r| == |indices| && forall k | 0 <= k < |indices| :: r[k] == answers[indices[k]]
  {
    seq(|indices|, i requires 0 <= i < |indices| => answers[indices[i]])
  }

  datatype Counts = Counts(total: nat, passes: nat, mismatches: nat, failures: nat)

  ghost function Tally(answers: seq<Answer>, fields: seq<Path>, plan: seq<seq<nat>>, n: nat): Counts
    requires n <= |plan| && forall r, k | 0 <= r < |plan| && 0 <= k < |plan[r]| :: plan[r][k] < |answers|
  {
    if n == 0 then Counts(0, 0, 0, 0)
    else
      var c, outcome := Tally(answers, fields, plan, n - 1), OutcomeOf(Chosen(answers, plan[n - 1]), fields);
      Counts(c.total + 1, c.passes + (if outcome == Pass then 1 else 0), c.mismatches + (if outcome == Differs then 1 else 0),
             c.failures + (if outcome == Failure then 1 else 0))
  }

  function ExitOf(c: Counts): nat { if c.failures > 0 then 2 else if c.mismatches > 0 then 3 else 0 }

  ghost function ExitCode(answers: seq<Answer>, fields: seq<Path>, mode: Mode): nat {
    var plan := RunPlan(|answers|, mode);
    ExitOf(Tally(answers, fields, plan, |plan|))
  }

  method SummarizeRun(answers: seq<Answer>, fields: seq<Path>) returns (outcome: Outcome)
    ensures outcome == OutcomeOf(answers, fields)
  {
    for i := 0 to |answers|
      invariant forall k | 0 <= k < i :: answers[k].Some?
    {
      if answers[i].None? { return Failure; }
    }
    var report := BuildComparisonReport(Answered(answers), fields);
    outcome := if report.invalid then Failure else if report.mismatches > 0 then Differs else Pass;
  }

  method CompareMatrix(answers: seq<Answer>, fields: seq<Path>, mode: Mode) returns (counts: Counts, exitCode: nat)
    ensures var plan := RunPlan(|answers|, mode); counts == Tally(answers, fields, plan, |plan|)
    ensures exitCode == ExitCode(answers, fields, mode)
  {
    hide OutcomeOf, RunPlan;
    var plan := BuildRunPlan(|answers|, mode);
    counts := Counts(0, 0, 0, 0);
    for i := 0 to |plan|
      invariant counts == Tally(answers, fields, plan, i)
    {
      var outcome := SummarizeRun(Chosen(answers, plan[i]), fields);
      counts := counts.(total := counts.total + 1);
      match outcome {
        case Pass => counts := counts.(passes := counts.passes + 1);
        case Differs => counts := counts.(mismatches := counts.mismatches + 1);
        case Failure => counts := counts.(failures := counts.failures + 1);
      }
    }
    exitCode := ExitOf(counts);
  }

  // ---------------------------------------------------------------- what the exit code means

  ghost predicate Has(answer: Answer, fields: seq<Path>) {
    answer.Some? && forall f | 0 <= f < |fields| :: GetField(answer.value, fields[f]).Some?
  }

  /** Every gateway answered with all compared fields. */
  ghost predicate Complete(answers: seq<Answer>, fields: seq<Path>) {
    forall k | 0 <= k < |answers| :: Has(answers[k], fields)
  }

  ghost predicate Agree(a: Answer, b: Answer, fields: seq<Path>) {
    a.Some? && b.Some? && forall f | 0 <= f < |fields| :: GetField(a.value, fields[f]) == GetField(b.value, fields[f])
  }

  /** Any two gateways agree on all compared fields. */
  ghost predicate Uniform(answers: seq<Answer>, fields: seq<Path>) {
    forall j, k | 0 <= j < |answers| && 0 <= k < |answers| :: Agree(answers[j], answers[k], fields)
  }

  lemma {:induction false} RowsExact(snapshots: seq<Node>, fields: seq<Path>, n: nat)
    requires n <= |fields|
    ensures var r := Rows(snapshots, fields, n);
      && (r.invalid <==> exists f | 0 <= f < n :: !AllFound(snapshots, fields[f]))
      && (r.mismatches > 0 <==> exists f | 0 <= f < n :: RowOf(snapshots, fields[f]) == Mismatch)
  {
    hide AllFound, AllSame;
    if n > 0 { RowsExact(snapshots, fields, n - 1); }
  }

  lemma OutcomeExact(answers: seq<Answer>, fields: seq<Path>)
    requires answers != []
    ensures OutcomeOf(answers, fields) == Failure <==> !Complete(answers, fields)
    ensures OutcomeOf(answers, fields) == Pass <==> Complete(answers, fields) && forall k | 0 <= k < |answers| :: Agree(answers[0], answers[k], fields)
  {
    hide Rows, GetField;
    if forall k | 0 <= k < |answers| :: answers[k].Some? {
      var snapshots := Answered(answers);
      RowsExact(snapshots, fields, |fields|);
      FoundExact(answers, fields);
      if Complete(answers, fields) { SameExact(answers, fields); }
    } else {
      var k :| 0 <= k < |answers| && answers[k].None?;
      assert !Has(answers[k], fields);
    }
  }

  lemma FoundExact(answers: seq<Answer>, fields: seq<Path>)
    requires forall k | 0 <= k < |answers| :: answers[k].Some?
    ensures Complete(answers, fields) <==> forall f | 0 <= f < |fields| :: AllFound(Answered(answers), fields[f])
  {
    hide GetField;
    var snapshots := Answered(answers);
    if forall f | 0 <= f < |fields| :: AllFound(snapshots, fields[f]) {
      forall k | 0 <= k < |answers| ensures Has(answers[k], fields) {
        forall f | 0 <= f < |fields| ensures GetField(answers[k].value, fields[f]).Some? {
          assert AllFound(snapshots, fields[f]);
          assert snapshots[k] == answers[k].value;
        }
      }
    } else {
      var f :| 0 <= f < |fields| && !AllFound(snapshots, fields[f]);
      var k :| 0 <= k < |snapshots| && GetField(snapshots[k], fields[f]).None?;
      assert !Has(answers[k], fields);
    }
  }

  lemma SameExact(answers: seq<Answer>, fields: seq<Path>)
    requires answers != [] && Complete(answers, fields) && forall k | 0 <= k < |answers| :: answers[k].Some?
    ensures (forall k | 0 <= k < |answers| :: Agree(answers[0], answers[k], fields))
       <==> forall f | 0 <= f < |fields| :: RowOf(Answered(answers), fields[f]) != Mismatch
  {
    hide GetField;
    var snapshots := Answered(answers);
    FoundExact(answers, fields);
    if forall k | 0 <= k < |answers| :: Agree(answers[0], answers[k], fields) {
      forall f | 0 <= f < |fields| ensures AllSame(snapshots, fields[f]) {
        forall k | 0 <= k < |snapshots| ensures GetField(snapshots[k], fields[f]) == GetField(snapshots[0], fields[f]) {
          assert Agree(answers[0], answers[k], fields);
        }
      }
    } else {
      var k :| 0 <= k < |answers| && !Agree(answers[0], answers[k], fields);
      var f :| 0 <= f < |fields| && GetField(answers[0].value, fields[f]) != GetField(answers[k].value, fields[f]);
      assert AllFound(snapshots, fields[f]);
      assert GetField(snapshots[k], fields[f]) != GetField(snapshots[0], fields[f]);
      assert RowOf(snapshots, fields[f]) == Mismatch;
    }
  }

  ghost predicate SomeOutcome(answers: seq<Answer>, fields: seq<Path>, plan: seq<seq<nat>>, n: nat, outcome: Outcome)
    requires n <= |plan| && forall r, k | 0 <= r < |plan| && 0 <= k < |plan[r]| :: plan[r][k] < |answers|
  {
    exists r | 0 <= r < n :: OutcomeOf(Chosen(answers, plan[r]), fields) == outcome
  }

  lemma {:induction false} TallyExact(answers: seq<Answer>, fields: seq<Path>, plan: seq<seq<nat>>, n: nat)
    requires n <= |plan| && forall r, k | 0 <= r < |plan| && 0 <= k < |plan[r]| :: plan[r][k] < |answers|
    ensures var c := Tally(answers, fields, plan, n);
      && c.passes + c.mismatches + c.failures == c.total == n
      && (c.passes > 0 <==> SomeOutcome(answers, fields, plan, n, Pass))
      && (c.failures > 0 <==> SomeOutcome(answers, fields, plan, n, Failure))
      && (c.mismatches > 0 <==> SomeOutcome(answers, fields, plan, n, Differs))
  {
    hide OutcomeOf;
    if n > 0 { TallyExact(answers, fields, plan, n - 1); }
  }

  /** 2 for an incomplete set of answers, 3 for a complete one with a difference, 0 for agreement. */
  ghost function Meaning(answers: seq<Answer>, fields: seq<Path>): nat {
    if !Complete(answers, fields) then 2 else if !Uniform(answers, fields) then 3 else 0
  }

  lemma {:induction false} Chain(answers: seq<Answer>, fields: seq<Path>, k: nat)
    requires k < |answers| && forall i | 0 <= i < |answers| :: answers[i].Some?
    requires forall i | 0 <= i < |answers| - 1 :: Agree(answers[i], answers[i + 1], fields)
    ensures Agree(answers[0], answers[k], fields)
  {
    hide GetField;
    if k > 0 {
      Chain(answers, fields, k - 1);
      assert Agree(answers[k - 1], answers[k - 1 + 1], fields);
    }
  }

  lemma StarIsUniform(answers: seq<Answer>, fields: seq<Path>)
    requires answers != [] && forall k | 0 <= k < |answers| :: Agree(answers[0], answers[k], fields)
    ensures Uniform(answers, fields)
  {
    hide GetField;
    forall j, k | 0 <= j < |answers| && 0 <= k < |answers| ensures Agree(answers[j], answers[k], fields) {
      assert Agree(answers[0], answers[j], fields) && Agree(answers[0], answers[k], fields);
    }
  }

  lemma AllMeaning(answers: seq<Answer>, fields: seq<Path>)
    requires answers != []
    ensures ExitCode(answers, fields, All) == Meaning(answers, fields)
  {
    hide OutcomeOf, Complete, Agree, Tally;
    var plan := RunPlan(|answers|, All);
    TallyExact(answers, fields, plan, 1);
    assert Chosen(answers, plan[0]) == answers;
    OutcomeExact(answers, fields);
    if forall k | 0 <= k < |answers| :: Agree(answers[0], answers[k], fields) { StarIsUniform(answers, fields); }
    var o := OutcomeOf(Chosen(answers, plan[0]), fields);
    assert SomeOutcome(answers, fields, plan, 1, o);
  }

  /** The outcome of one adjacent pair. */
  lemma PairExact(answers: seq<Answer>, fields: seq<Path>, r: nat)
    requires r + 1 < |answers|
    ensures var o := OutcomeOf(Chosen(answers, RunPlan(|answers|, Pairwise)[r]), fields);
      && (o == Failure <==> !Has(answers[r], fields) || !Has(answers[r + 1], fields))
      && (o == Pass <==> Has(answers[r], fields) && Has(answers[r + 1], fields) && Agree(answers[r], answers[r + 1], fields))
  {
    hide OutcomeOf, Has;
    var pair := [answers[r], answers[r + 1]];
    assert RunPlan(|answers|, Pairwise)[r] == [r, r + 1];
    assert Chosen(answers, [r, r + 1]) == pair;
    OutcomeExact(pair, fields);
    assert Complete(pair, fields) <==> Has(pair[0], fields) && Has(pair[1], fields);
    if Complete(pair, fields) { SelfAgree(pair, fields); }
  }

  lemma SelfAgree(pair: seq<Answer>, fields: seq<Path>)
    requires |pair| == 2 && Complete(pair, fields)
    ensures (forall k | 0 <= k < 2 :: Agree(pair[0], pair[k], fields)) <==> Agree(pair[0], pair[1], fields)
  {
    hide GetField;
    assert Has(pair[0], fields);
  }

  lemma PairwiseMeaning(answers: seq<Answer>, fields: seq<Path>)
    requires |answers| >= 2
    ensures ExitCode(answers, fields, Pairwise) == Meaning(answers, fields)
  {
    hide OutcomeOf, Has, Agree, Tally, Chosen, RunPlan;
    var plan := RunPlan(|answers|, Pairwise);
    var n := |answers| - 1;
    PairCount(|answers|);
    TallyExact(answers, fields, plan, n);
    forall r | 0 <= r < n ensures PairFacts(answers, fields, r) { PairExact(answers, fields, r); }
    if !Complete(answers, fields) {
      var k :| 0 <= k < |answers| && !Has(answers[k], fields);
      var r := if k < n then k else k - 1;
      assert PairFacts(answers, fields, r);
      assert OutcomeOf(Chosen(answers, plan[r]), fields) == Failure;
    } else {
      forall r | 0 <= r < n ensures OutcomeOf(Chosen(answers, plan[r]), fields) != Failure { assert PairFacts(answers, fields, r); }
      PairwiseUniform(answers, fields);
    }
  }

  lemma PairCount(count: nat)
    requires count >= 1
    ensures |RunPlan(count, Pairwise)| == count - 1
  {
  }

  ghost predicate PairFacts(answers: seq<Answer>, fields: seq<Path>, r: nat)
    requires r + 1 < |answers|
  {
    var o := OutcomeOf(Chosen(answers, RunPlan(|answers|, Pairwise)[r]), fields);
    && (o == Failure <==> !Has(answers[r], fields) || !Has(answers[r + 1], fields))
    && (o == Pass <==> Has(answers[r], fields) && Has(answers[r + 1], fields) && Agree(answers[r], answers[r + 1], fields))
  }

  lemma PairwiseUniform(answers: seq<Answer>, fields: seq<Path>)
    requires |answers| >= 2 && Complete(answers, fields)
    requires forall r | 0 <= r < |answers| - 1 :: PairFacts(answers, fields, r)
    ensures var plan := RunPlan(|answers|, Pairwise);
      SomeOutcome(answers, fields, plan, |plan|, Differs) <==> !Uniform(answers, fields)
  {
    hide OutcomeOf, GetField, Chosen;
    var plan := RunPlan(|answers|, Pairwise);
    if forall r | 0 <= r < |answers| - 1 :: Agree(answers[r], answers[r + 1], fields) {
      forall k | 0 <= k < |answers| ensures answers[k].Some? { assert Has(answers[k], fields); }
      forall k | 0 <= k < |answers| ensures Agree(answers[0], answers[k], fields) { Chain(answers, fields, k); }
      StarIsUniform(answers, fields);
      forall r | 0 <= r < |plan| ensures OutcomeOf(Chosen(answers, plan[r]), fields) == Pass {
        assert PairFacts(answers, fields, r) && Agree(answers[r], answers[r + 1], fields);
      }
    } else {
      var r :| 0 <= r < |answers| - 1 && !Agree(answers[r], answers[r + 1], fields);
      assert PairFacts(answers, fields, r) && Has(answers[r], fields) && Has(answers[r + 1], fields);
      assert OutcomeOf(Chosen(answers, plan[r]), fields) == Differs;
    }
  }

  /** For two or more gateways the two modes return the same exit code. */
  lemma ModesAgree(answers: seq<Answer>, fields: seq<Path>)
    requires |answers| >= 2
    ensures ExitCode(answers, fields, Pairwise) == ExitCode(answers, fields, All) == Meaning(answers, fields)
  {
    AllMeaning(answers, fields);
    PairwiseMeaning(answers, fields);
  }

  // ---------------------------------------------------------------- the exit code on the answers

  /** Following the names of the path from one node to the next ends at `target`. */
  ghost predicate Leads(node: Node, path: Path, target: Node) {
    exists nodes: seq<Node> :: IsWalk(nodes, path) && nodes[0] == node && nodes[|path|] == target
  }

  ghost predicate IsWalk(nodes: seq<Node>, path: Path) {
    && |nodes| == |path| + 1
    && forall i | 0 <= i < |path| :: nodes[i].Tree? && path[i] in nodes[i].fields && nodes[i].fields[path[i]] == nodes[i + 1]
  }

  lemma {:induction false} WalkReads(nodes: seq<Node>, path: Path)
    requires IsWalk(nodes, path)
    ensures GetField(nodes[0], path) == Some(nodes[|path|])
  {
    if path != [] {
      forall i | 0 <= i < |path| - 1
        ensures nodes[1..][i].Tree? && path[1..][i] in nodes[1..][i].fields && nodes[1..][i].fields[path[1..][i]] == nodes[1..][i + 1]
      {
        assert nodes[1..][i] == nodes[i + 1] && path[1..][i] == path[i + 1] && nodes[1..][i + 1] == nodes[i + 2];
        assert nodes[i + 1].Tree?;
      }
      WalkReads(nodes[1..], path[1..]);
    }
  }

  lemma {:induction false} WalkOf(node: Node, path: Path) returns (nodes: seq<Node>)
    requires GetField(node, path).Some?
    ensures IsWalk(nodes, path) && nodes[0] == node && nodes[|path|] == GetField(node, path).value
  {
    if path == [] {
      nodes := [node];
    } else {
      var rest := WalkOf(node.fields[path[0]], path[1..]);
      nodes := [node] + rest;
      forall i | 0 <= i < |path| ensures nodes[i].Tree? && path[i] in nodes[i].fields && nodes[i].fields[path[i]] == nodes[i + 1] {
        if i > 0 { assert path[i] == path[1..][i - 1] && nodes[i] == rest[i - 1] && nodes[i + 1] == rest[i]; }
      }
    }
  }

  /** The field lookup follows the path. */
  lemma FieldIsPath(node: Node, path: Path, target: Node)
    ensures GetField(node, path) == Some(target) <==> Leads(node, path, target)
  {
    hide GetField;
    if GetField(node, path) == Some(target) {
      var nodes := WalkOf(node, path);
    }
    if Leads(node, path, target) {
      var nodes :| IsWalk(nodes, path) && nodes[0] == node && nodes[|path|] == target;
      WalkReads(nodes, path);
    }
  }

  /** The gateway answered, and every compared path leads somewhere. */
  ghost predicate HasAll(answer: Answer, fields: seq<Path>) {
    answer.Some? && forall f | 0 <= f < |fields| :: Reaches(answer.value, fields[f])
  }

  ghost predicate Reaches(node: Node, path: Path) { exists t :: Leads(node, path, t) }

  /** Some compared path leads to different values. */
  ghost predicate Differ(a: Answer, b: Answer, fields: seq<Path>) {
    a.Some? && b.Some? && exists f | 0 <= f < |fields| :: DifferAt(a.value, b.value, fields[f])
  }

  ghost predicate DifferAt(a: Node, b: Node, path: Path) { exists s, t :: Leads(a, path, s) && Leads(b, path, t) && s != t }

  lemma HasAllIs(answer: Answer, fields: seq<Path>)
    ensures HasAll(answer, fields) <==> Has(answer, fields)
  {
    hide GetField, Reaches;
    if answer.Some? {
      forall f | 0 <= f < |fields| ensures GetField(answer.value, fields[f]).Some? <==> Reaches(answer.value, fields[f]) {
        PathLeads(answer.value, fields[f]);
      }
    }
  }

  lemma PathLeads(node: Node, path: Path)
    ensures GetField(node, path).Some? <==> Reaches(node, path)
  {
    hide GetField, Leads;
    forall t ensures GetField(node, path) == Some(t) <==> Leads(node, path, t) { FieldIsPath(node, path, t); }
    if GetField(node, path).Some? { assert Leads(node, path, GetField(node, path).value); }
  }

  lemma DifferAtIs(a: Node, b: Node, path: Path)
    requires GetField(a, path).Some? && GetField(b, path).Some?
    ensures DifferAt(a, b, path) <==> GetField(a, path) != GetField(b, path)
  {
    hide GetField, Leads;
    forall t ensures GetField(a, path) == Some(t) <==> Leads(a, path, t) { FieldIsPath(a, path, t); }
    forall t ensures GetField(b, path) == Some(t) <==> Leads(b, path, t) { FieldIsPath(b, path, t); }
    assert Leads(a, path, GetField(a, path).value) && Leads(b, path, GetField(b, path).value);
  }

  lemma DifferIs(a: Answer, b: Answer, fields: seq<Path>)
    requires Has(a, fields) && Has(b, fields)
    ensures Differ(a, b, fields) <==> !Agree(a, b, fields)
  {
    hide GetField, DifferAt;
    forall f | 0 <= f < |fields| ensures DifferAt(a.value, b.value, fields[f]) <==> GetField(a.value, fields[f]) != GetField(b.value, fields[f]) {
      DifferAtIs(a.value, b.value, fields[f]);
    }
  }

  ghost predicate AllHave(answers: seq<Answer>, fields: seq<Path>) { forall k | 0 <= k < |answers| :: HasAll(answers[k], fields) }

  ghost predicate SomeDiffer(answers: seq<Answer>, fields: seq<Path>) {
    exists j, k | 0 <= j < |answers| && 0 <= k < |answers| :: Differ(answers[j], answers[k], fields)
  }

  /** The exit code of both modes, on the answers: 2 when a gateway did not answer or lacks a compared value, otherwise 3 when
      two gateways have different values under one path, otherwise 0. */
  lemma ExitCodeExact(answers: seq<Answer>, fields: seq<Path>, mode: Mode)
    requires |answers| >= 2
    ensures ExitCode(answers, fields, mode) == if !AllHave(answers, fields) then 2 else if SomeDiffer(answers, fields) then 3 else 0
  {
    hide ExitCode, Has, HasAll, Agree, Differ;
    ModesAgree(answers, fields);
    forall k | 0 <= k < |answers| ensures HasAll(answers[k], fields) <==> Has(answers[k], fields) { HasAllIs(answers[k], fields); }
    if Complete(answers, fields) {
      forall j, k | 0 <= j < |answers| && 0 <= k < |answers| ensures Differ(answers[j], answers[k], fields) <==> !Agree(answers[j], answers[k], fields) {
        DifferIs(answers[j], answers[k], fields);
      }
    }
  }

  /** The runs with one outcome. */
  ghost function RunsWith(answers: seq<Answer>, fields: seq<Path>, plan: seq<seq<nat>>, n: nat, outcome: Outcome): set<nat>
    requires n <= |plan| && forall r, k | 0 <= r < |plan| && 0 <= k < |plan[r]| :: plan[r][k] < |answers|
  {
    set r | 0 <= r < n && OutcomeOf(Chosen(answers, plan[r]), fields) == outcome
  }

  lemma OneRunMore(answers: seq<Answer>, fields: seq<Path>, plan: seq<seq<nat>>, n: nat, outcome: Outcome)
    requires 0 < n <= |plan| && forall r, k | 0 <= r < |plan| && 0 <= k < |plan[r]| :: plan[r][k] < |answers|
    ensures |RunsWith(answers, fields, plan, n, outcome)| == |RunsWith(answers, fields, plan, n - 1, outcome)|
              + (if OutcomeOf(Chosen(answers, plan[n - 1]), fields) == outcome then 1 else 0)
  {
    hide OutcomeOf, Chosen;
    var less, more := RunsWith(answers, fields, plan, n - 1, outcome), RunsWith(answers, fields, plan, n, outcome);
    assert more == less + (if OutcomeOf(Chosen(answers, plan[n - 1]), fields) == outcome then {n - 1} else {});
  }

  lemma {:induction false} TallyCounts(answers: seq<Answer>, fields: seq<Path>, plan: seq<seq<nat>>, n: nat)
    requires n <= |plan| && forall r, k | 0 <= r < |plan| && 0 <= k < |plan[r]| :: plan[r][k] < |answers|
    ensures var c := Tally(answers, fields, plan, n);
      && c.total == n && c.passes == |RunsWith(answers, fields, plan, n, Pass)|
      && c.mismatches == |RunsWith(answers, fields, plan, n, Differs)| && c.failures == |RunsWith(answers, fields, plan, n, Failure)|
  {
    hide OutcomeOf, RunsWith, Chosen;
    if n > 0 {
      TallyCounts(answers, fields, plan, n - 1);
      OneRunMore(answers, fields, plan, n, Pass);
      OneRunMore(answers, fields, plan, n, Differs);
      OneRunMore(answers, fields, plan, n, Failure);
    } else {
      NoRuns(answers, fields, plan);
    }
  }

  lemma NoRuns(answers: seq<Answer>, fields: seq<Path>, plan: seq<seq<nat>>)
    requires forall r, k | 0 <= r < |plan| && 0 <= k < |plan[r]| :: plan[r][k] < |answers|
    ensures forall outcome :: RunsWith(answers, fields, plan, 0, outcome) == {}
  {
  }

  /** The pairs of neighbours that both have all values and agree, or differ; and those that lack one. */
  ghost function PairsWith(answers: seq<Answer>, fields: seq<Path>, outcome: Outcome): set<nat> {
    set r | 0 <= r < |answers| - 1 && NeighboursHave(answers, r, fields, outcome)
  }

  ghost predicate NeighboursHave(answers: seq<Answer>, r: nat, fields: seq<Path>, outcome: Outcome)
    requires r + 1 < |answers|
  {
    PairHas(answers[r], answers[r + 1], fields, outcome)
  }

  ghost predicate PairHas(a: Answer, b: Answer, fields: seq<Path>, outcome: Outcome) {
    match outcome
    case Pass => HasAll(a, fields) && HasAll(b, fields) && !Differ(a, b, fields)
    case Differs => HasAll(a, fields) && HasAll(b, fields) && Differ(a, b, fields)
    case Failure => !(HasAll(a, fields) && HasAll(b, fields))
  }

  lemma PairIs(answers: seq<Answer>, fields: seq<Path>, r: nat, outcome: Outcome)
    requires r + 1 < |answers|
    ensures OutcomeOf(Chosen(answers, RunPlan(|answers|, Pairwise)[r]), fields) == outcome <==> NeighboursHave(answers, r, fields, outcome)
  {
    hide OutcomeOf, Chosen, RunPlan, Has, HasAll, Agree, Differ;
    PairExact(answers, fields, r);
    HasAllIs(answers[r], fields);
    HasAllIs(answers[r + 1], fields);
    if Has(answers[r], fields) && Has(answers[r + 1], fields) { DifferIs(answers[r], answers[r + 1], fields); }
  }

  /** The counts of a pairwise comparison are the numbers of neighbouring pairs of each kind. */
  lemma PairCounts(answers: seq<Answer>, fields: seq<Path>)
    requires |answers| >= 2
    ensures var plan := RunPlan(|answers|, Pairwise); var c := Tally(answers, fields, plan, |plan|);
      && c.total == |answers| - 1 && c.passes == |PairsWith(answers, fields, Pass)|
      && c.mismatches == |PairsWith(answers, fields, Differs)| && c.failures == |PairsWith(answers, fields, Failure)|
  {
    hide OutcomeOf, Chosen, RunPlan, PairHas, Tally;
    var plan := RunPlan(|answers|, Pairwise);
    PairCount(|answers|);
    TallyCounts(answers, fields, plan, |plan|);
    SamePairs(answers, fields, Pass);
    SamePairs(answers, fields, Differs);
    SamePairs(answers, fields, Failure);
  }

  lemma SamePairs(answers: seq<Answer>, fields: seq<Path>, outcome: Outcome)
    requires |answers| >= 2
    ensures var plan := RunPlan(|answers|, Pairwise); RunsWith(answers, fields, plan, |plan|, outcome) == PairsWith(answers, fields, outcome)
  {
    hide OutcomeOf, Chosen, RunPlan, NeighboursHave;
    PairCount(|answers|);
    forall r | 0 <= r < |answers| - 1
      ensures OutcomeOf(Chosen(answers, RunPlan(|answers|, Pairwise)[r]), fields) == outcome <==> NeighboursHave(answers, r, fields, outcome)
    {
      PairIs(answers, fields, r, outcome);
    }
  }
}
