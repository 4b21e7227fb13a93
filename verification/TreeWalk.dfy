/** Scanning a source tree: an explicit stack in place of recursion, and the grouping of what the scan finds. */
module TreeWalk {
  import opened Sorting

  type Path = seq<string>

  datatype Node = Directory(entries: seq<Entry>) | RegularFile | SymbolicLink | Special
  datatype Entry = Entry(name: string, node: Node)

  // ---------------------------------------------------------------- the recursive definition

  /** The eligible files at or below `path`. */
  function FilesAt(path: Path, node: Node, eligible: Path -> bool): seq<Path>
    decreases node
  {
    match node
    case Directory(entries) => FilesIn(path, entries, eligible)
    case RegularFile => if eligible(path) then [path] else []
    case _ => []
  }

  function FilesIn(path: Path, entries: seq<Entry>, eligible: Path -> bool): seq<Path>
    decreases entries
  {
    if entries == [] then []
    else FilesAt(path + [entries[0].name], entries[0].node, eligible) + FilesIn(path, entries[1..], eligible)
  }

  // ---------------------------------------------------------------- the stack walk

  /** A directory that waits on the stack, with what reading it returns. */
  datatype Pending = Pending(path: Path, entries: seq<Entry>)

  ghost function Waiting(stack: seq<Pending>, eligible: Path -> bool): multiset<Path> {
    if stack == [] then multiset{}
    else
      var n := |stack| - 1;
      Waiting(stack[..n], eligible) + multiset(FilesIn(stack[n].path, stack[n].entries, eligible))
  }

  ghost function NodeSize(node: Node): nat
    decreases node
  {
    match node
    case Directory(entries) => 1 + EntriesSize(entries)
    case _ => 1
  }

  ghost function EntriesSize(entries: seq<Entry>): nat
    decreases entries
  {
    if entries == [] then 0 else NodeSize(entries[0].node) + EntriesSize(entries[1..])
  }

  ghost function StackSize(stack: seq<Pending>): nat {
    if stack == [] then 0 else StackSize(stack[..|stack| - 1]) + 1 + EntriesSize(stack[|stack| - 1].entries)
  }

  /** Reading one directory: subdirectories go on the stack, eligible files into the result. */
  method ReadDirectory(current: Pending, stack: seq<Pending>, files: seq<Path>, eligible: Path -> bool)
    returns (stack': seq<Pending>, files': seq<Path>)
    ensures multiset(files') + Waiting(stack', eligible)
         == multiset(files) + Waiting(stack, eligible) + multiset(FilesIn(current.path, current.entries, eligible))
    ensures StackSize(stack') <= StackSize(stack) + EntriesSize(current.entries)
  {
    hide FilesAt, FilesIn, Waiting, EntriesSize, StackSize;
    stack', files' := stack, files;
    var entries := current.entries;
    ghost var all := multiset(files) + Waiting(stack, eligible) + multiset(FilesIn(current.path, entries, eligible));
    assert entries[0..] == entries;
    for i := 0 to |entries|
      invariant multiset(files') + Waiting(stack', eligible) + multiset(FilesIn(current.path, entries[i..], eligible)) == all
      invariant StackSize(stack') + EntriesSize(entries[i..]) <= StackSize(stack) + EntriesSize(entries)
    {
      var entry := entries[i];
      var absolutePath := current.path + [entry.name];
      TakeEntry(current.path, entries, i, eligible);
      if entry.node.Directory? {
        PushSize(stack', Pending(absolutePath, entry.node.entries), eligible);
        stack' := stack' + [Pending(absolutePath, entry.node.entries)];
      } else if entry.node.RegularFile? && eligible(absolutePath) {
        files' := files' + [absolutePath];
      }
    }
    NothingLeft(current.path, eligible);
    assert entries[|entries|..] == [];
  }

  lemma NothingLeft(path: Path, eligible: Path -> bool)
    ensures FilesIn(path, [], eligible) == []
  {
  }

  lemma TakeEntry(path: Path, entries: seq<Entry>, i: nat, eligible: Path -> bool)
    requires i < |entries|
    ensures var e := entries[i]; var p := path + [e.name];
      && multiset(FilesIn(path, entries[i..], eligible)) == multiset(FilesAt(p, e.node, eligible)) + multiset(FilesIn(path, entries[i + 1..], eligible))
      && (e.node.Directory? ==> FilesAt(p, e.node, eligible) == FilesIn(p, e.node.entries, eligible))
      && (e.node.RegularFile? ==> FilesAt(p, e.node, eligible) == if eligible(p) then [p] else [])
      && (!e.node.Directory? && !e.node.RegularFile? ==> FilesAt(p, e.node, eligible) == [])
      && EntriesSize(entries[i..]) == NodeSize(e.node) + EntriesSize(entries[i + 1..])
  {
    assert entries[i..][1..] == entries[i + 1..];
  }

  lemma PushSize(stack: seq<Pending>, p: Pending, eligible: Path -> bool)
    ensures StackSize(stack + [p]) == StackSize(stack) + 1 + EntriesSize(p.entries)
    ensures Waiting(stack + [p], eligible) == Waiting(stack, eligible) + multiset(FilesIn(p.path, p.entries, eligible))
  {
    assert (stack + [p])[..|stack|] == stack;
  }

  lemma NothingWaits(eligible: Path -> bool)
    ensures Waiting([], eligible) == multiset{} && StackSize([]) == 0
  {
  }

  /** The walk ends, and returns every eligible file of the tree as often as the recursive definition does, in order. */
  method WalkFiles(root: Path, entries: seq<Entry>, eligible: Path -> bool, le: (Path, Path) -> bool) returns (files: seq<Path>)
    requires TotalOrder(le)
    ensures files == Sort(FilesIn(root, entries, eligible), le)
  {
    hide FilesIn, TotalOrder, Sort, Waiting, StackSize, EntriesSize;
    NothingWaits(eligible);
    files := [];
    var stack := [Pending(root, entries)];
    PushSize([], stack[0], eligible);
    assert [] + [stack[0]] == stack;
    while stack != []
      invariant multiset(files) + Waiting(stack, eligible) == multiset(FilesIn(root, entries, eligible))
      decreases StackSize(stack)
    {
      var current := stack[|stack| - 1];
      ghost var before := stack;
      stack := stack[..|stack| - 1];
      assert before == stack + [current];
      PushSize(stack, current, eligible);
      stack, files := ReadDirectory(current, stack, files, eligible);
    }
    SortOfPermutation(files, FilesIn(root, entries, eligible), le);
    files := Sort(files, le);
  }

  // ---------------------------------------------------------------- each file once

  /** There is a regular file at the relative path. */
  ghost predicate IsFile(entries: seq<Entry>, relative: Path)
    decreases |relative|, 1
  {
    relative != [] && exists i | 0 <= i < |entries| :: FileOf(entries[i], relative)
  }

  /** A file at or below one entry. */
  ghost predicate FileOf(e: Entry, relative: Path)
    requires relative != []
    decreases |relative|, 0
  {
    e.name == relative[0] && if |relative| == 1 then e.node.RegularFile? else e.node.Directory? && IsFile(e.node.entries, relative[1..])
  }

  /** No directory lists a name twice. */
  ghost predicate UniqueNames(entries: seq<Entry>)
    decreases entries
  {
    && (forall i, j | 0 <= i < j < |entries| :: entries[i].name != entries[j].name)
    && (forall i | 0 <= i < |entries| && entries[i].node.Directory? :: UniqueNames(entries[i].node.entries))
  }

  ghost predicate Found(entries: seq<Entry>, path: Path, eligible: Path -> bool, p: Path) {
    eligible(p) && path < p && IsFile(entries, p[|path|..])
  }

  lemma {:induction false} FilesAreFound(path: Path, entries: seq<Entry>, eligible: Path -> bool, p: Path)
    ensures p in FilesIn(path, entries, eligible) <==> Found(entries, path, eligible, p)
    decreases entries, 1
  {
    if entries == [] {
    } else {
      var e, rest := entries[0], entries[1..];
      FilesAreFound(path, rest, eligible, p);
      EntryIsFound(path, e, eligible, p);
      assert p in FilesIn(path, entries, eligible) <==> p in FilesAt(path + [e.name], e.node, eligible) || p in FilesIn(path, rest, eligible);
      if path < p { SplitIsFile(entries, p[|path|..]); }
    }
  }

  lemma SplitIsFile(entries: seq<Entry>, relative: Path)
    requires entries != [] && relative != []
    ensures IsFile(entries, relative) <==> FileOf(entries[0], relative) || IsFile(entries[1..], relative)
  {
    var rest := entries[1..];
    if IsFile(entries, relative) {
      var i :| 0 <= i < |entries| && FileOf(entries[i], relative);
      if i > 0 { assert rest[i - 1] == entries[i]; }
    }
    if IsFile(rest, relative) {
      var i :| 0 <= i < |rest| && FileOf(rest[i], relative);
      assert entries[i + 1] == rest[i];
    }
    if FileOf(entries[0], relative) { assert IsFile(entries, relative); }
  }

  lemma {:induction false} EntryIsFound(path: Path, e: Entry, eligible: Path -> bool, p: Path)
    ensures p in FilesAt(path + [e.name], e.node, eligible) <==> eligible(p) && path < p && FileOf(e, p[|path|..])
    decreases e, 0
  {
    var q := path + [e.name];
    if path < p { assert (q <= p) <==> p[|path|] == e.name; }
    match e.node
    case Directory(entries) =>
      FilesAreFound(q, entries, eligible, p);
      if q < p { assert p[|path|..][1..] == p[|q|..]; }
    case RegularFile =>
      if path < p && |p| == |q| && p[|path|] == e.name { assert p == q; }
    case _ =>
  }

  lemma {:induction false} FilesBelow(path: Path, entries: seq<Entry>, eligible: Path -> bool, p: Path)
    requires p in FilesIn(path, entries, eligible)
    ensures path < p && exists i | 0 <= i < |entries| :: entries[i].name == p[|path|]
  {
    FilesAreFound(path, entries, eligible, p);
    var i :| 0 <= i < |entries| && FileOf(entries[i], p[|path|..]);
  }

  /** Every eligible file is returned exactly once when no directory lists a name twice. */
  lemma {:induction false} EachFileOnce(path: Path, entries: seq<Entry>, eligible: Path -> bool)
    requires UniqueNames(entries)
    ensures NoDuplicates(FilesIn(path, entries, eligible))
    decreases entries
  {
    if entries != [] {
      var e, rest := entries[0], entries[1..];
      var here, later := FilesAt(path + [e.name], e.node, eligible), FilesIn(path, rest, eligible);
      assert forall i | 0 <= i < |rest| :: rest[i] == entries[i + 1];
      EachFileOnce(path, rest, eligible);
      if e.node.Directory? { EachFileOnce(path + [e.name], e.node.entries, eligible); }
      forall p | p in here ensures p !in later {
        EntryIsFound(path, e, eligible, p);
        if p in later { FilesBelow(path, rest, eligible, p); }
      }
      Disjoint(here, later);
    }
  }

  lemma Disjoint(a: seq<Path>, b: seq<Path>)
    requires NoDuplicates(a) && NoDuplicates(b) && forall p | p in a :: p !in b
    ensures NoDuplicates(a + b)
  {
    var c := a + b;
    forall i, j | 0 <= i < j < |c| ensures c[i] != c[j] {
      if i < |a| && j >= |a| { assert c[i] in a && c[j] in b; }
    }
  }

  /** The same tree, listed in another order at every level. */
  ghost predicate Relisted(a: seq<Entry>, b: seq<Entry>)
    decreases a, 2
  {
    (forall i | 0 <= i < |a| :: HasCopy(a[i], b)) && (forall j | 0 <= j < |b| :: HasOriginal(a, b[j]))
  }

  ghost predicate HasCopy(x: Entry, b: seq<Entry>)
    decreases x, 1
  {
    exists j | 0 <= j < |b| :: SameEntry(x, b[j])
  }

  ghost predicate HasOriginal(a: seq<Entry>, y: Entry)
    decreases a, 1
  {
    exists i | 0 <= i < |a| :: SameEntry(a[i], y)
  }

  ghost predicate SameEntry(a: Entry, b: Entry)
    decreases a, 0
  {
    a.name == b.name && if a.node.Directory? then b.node.Directory? && Relisted(a.node.entries, b.node.entries) else a.node == b.node
  }

  lemma MatchInto(a: seq<Entry>, b: seq<Entry>, i: nat) returns (j: nat)
    requires Relisted(a, b) && i < |a|
    ensures j < |b| && SameEntry(a[i], b[j])
  {
    hide HasOriginal;
    assert HasCopy(a[i], b);
    j :| 0 <= j < |b| && SameEntry(a[i], b[j]);
  }

  lemma MatchFrom(a: seq<Entry>, b: seq<Entry>, j: nat) returns (i: nat)
    requires Relisted(a, b) && j < |b|
    ensures i < |a| && SameEntry(a[i], b[j])
  {
    hide HasCopy;
    assert HasOriginal(a, b[j]);
    i :| 0 <= i < |a| && SameEntry(a[i], b[j]);
  }

  lemma {:induction false} RelistedFiles(a: seq<Entry>, b: seq<Entry>, relative: Path)
    requires Relisted(a, b) && relative != []
    ensures IsFile(a, relative) <==> IsFile(b, relative)
    decreases |relative|, 1
  {
    hide SameEntry, FileOf, Relisted;
    if i :| 0 <= i < |a| && FileOf(a[i], relative) {
      var j := MatchInto(a, b, i);
      SameEntryFiles(a[i], b[j], relative);
    }
    if j :| 0 <= j < |b| && FileOf(b[j], relative) {
      var i := MatchFrom(a, b, j);
      SameEntryFiles(a[i], b[j], relative);
    }
  }

  lemma {:induction false} SameEntryFiles(x: Entry, y: Entry, relative: Path)
    requires SameEntry(x, y) && relative != []
    ensures FileOf(x, relative) <==> FileOf(y, relative)
    decreases |relative|, 0
  {
    hide Relisted, IsFile;
    if x.node.Directory? && |relative| > 1 { RelistedFiles(x.node.entries, y.node.entries, relative[1..]); }
  }

  /** The walk does not depend on the order in which directories are listed. */
  lemma ListingOrderIrrelevant(root: Path, a: seq<Entry>, b: seq<Entry>, eligible: Path -> bool, le: (Path, Path) -> bool)
    requires TotalOrder(le) && UniqueNames(a) && UniqueNames(b) && Relisted(a, b)
    ensures Sort(FilesIn(root, a, eligible), le) == Sort(FilesIn(root, b, eligible), le)
  {
    hide TotalOrder, Sort, FilesIn, IsFile, Relisted, UniqueNames;
    EachFileOnce(root, a, eligible);
    EachFileOnce(root, b, eligible);
    forall p ensures p in FilesIn(root, a, eligible) <==> p in FilesIn(root, b, eligible) {
      FilesAreFound(root, a, eligible, p);
      FilesAreFound(root, b, eligible, p);
      if root < p { RelistedFiles(a, b, p[|root|..]); }
    }
    SameElements(FilesIn(root, a, eligible), FilesIn(root, b, eligible));
    SortOfPermutation(FilesIn(root, a, eligible), FilesIn(root, b, eligible), le);
  }

  // ---------------------------------------------------------------- findings by module

  datatype Finding = Finding(moduleName: string, file: Path, line: nat, kind: string, specifier: string)

  /** The findings of one module among the first `n`, in order. */
  function Of(findings: seq<Finding>, n: nat, name: string): seq<Finding>
    requires n <= |findings|
  {
    if n == 0 then []
    else if findings[n - 1].moduleName == name then Of(findings, n - 1, name) + [findings[n - 1]]
    else Of(findings, n - 1, name)
  }

  method GroupByModule(findings: seq<Finding>) returns (findingsByModule: map<string, seq<Finding>>)
    ensures forall name :: name in findingsByModule <==> Of(findings, |findings|, name) != []
    ensures forall name | name in findingsByModule :: findingsByModule[name] == Of(findings, |findings|, name)
  {
    findingsByModule := map[];
    for i := 0 to |findings|
      invariant forall name :: name in findingsByModule <==> Of(findings, i, name) != []
      invariant forall name | name in findingsByModule :: findingsByModule[name] == Of(findings, i, name)
    {
      var name := findings[i].moduleName;
      if name !in findingsByModule { findingsByModule := findingsByModule[name := []]; }
      findingsByModule := findingsByModule[name := findingsByModule[name] + [findings[i]]];
    }
  }

  function CountAll(findings: seq<Finding>, n: nat, names: seq<string>, k: nat): nat
    requires n <= |findings| && k <= |names|
  {
    if k == 0 then 0 else CountAll(findings, n, names, k - 1) + |Of(findings, n, names[k - 1])|
  }

  lemma {:induction false} CountStep(findings: seq<Finding>, n: nat, names: seq<string>, k: nat)
    requires n < |findings| && k <= |names| && NoDuplicates(names)
    ensures CountAll(findings, n + 1, names, k) == CountAll(findings, n, names, k) + (if findings[n].moduleName in names[..k] then 1 else 0)
  {
    if k > 0 {
      CountStep(findings, n, names, k - 1);
      assert names[..k] == names[..k - 1] + [names[k - 1]];
      assert names[k - 1] !in names[..k - 1];
    }
  }

  /** Grouping loses and repeats nothing: the counts per module add up to the number of findings. */
  lemma {:induction false} CountsAddUp(findings: seq<Finding>, n: nat, names: seq<string>)
    requires n <= |findings| && NoDuplicates(names) && forall i | 0 <= i < n :: findings[i].moduleName in names
    ensures CountAll(findings, n, names, |names|) == n
  {
    if n == 0 {
      NoFindings(findings, names, |names|);
    } else {
      CountsAddUp(findings, n - 1, names);
      CountStep(findings, n - 1, names, |names|);
      assert names[..|names|] == names;
    }
  }

  lemma {:induction false} NoFindings(findings: seq<Finding>, names: seq<string>, k: nat)
    requires k <= |names|
    ensures CountAll(findings, 0, names, k) == 0
  {
    if k > 0 { NoFindings(findings, names, k - 1); }
  }
}
