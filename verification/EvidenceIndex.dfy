/** The index of evidence bundles: its CSV form, its order, and the choice of the latest bundle. */
module EvidenceIndex {
  import opened Strings
  import opened Sorting

  // ---------------------------------------------------------------- CSV output

  predicate NeedsQuotes(cell: string) { '"' in cell || ',' in cell || '\r' in cell || '\n' in cell }

  /** `text.replace(/"/g, '""')` */
  function Doubled(cell: string): string {
    if cell == "" then "" else (if cell[0] == '"' then "\"\"" else [cell[0]]) + Doubled(cell[1..])
  }

  function CsvCell(cell: string): string { if NeedsQuotes(cell) then "\"" + Doubled(cell) + "\"" else cell }

  function CsvCells(cells: seq<string>): (r: seq<string>)
    ensures |r| == |cells|
  {
    seq(|cells|, i requires 0 <= i < |cells| => CsvCell(cells[i]))
  }

  function CsvLine(cells: seq<string>): string { Join(CsvCells(cells), ",") }

  function CsvLines(rows: seq<seq<string>>): (r: seq<string>)
    ensures |r| == |rows|
  {
    seq(|rows|, i requires 0 <= i < |rows| => CsvLine(rows[i]))
  }

  /** The header and one line per row; every cell is the text of its value, empty for a missing one. */
  function FormatCsv(header: seq<string>, rows: seq<seq<string>>): string {
    Join([Join(header, ",")] + CsvLines(rows), "\n") + "\n"
  }

  // ---------------------------------------------------------------- a reader (RFC 4180, section 2, with LF line ends)

  datatype Read<+T> = Fail | Ok(value: T, rest: string)

  function Prepend(c: char, r: Read<string>): Read<string> {
    match r
    case Fail => Fail
    case Ok(s, rest) => Ok([c] + s, rest)
  }

  /** The rest of a quoted cell. */
  function ReadQuoted(t: string): (r: Read<string>)
    ensures r.Ok? ==> |r.rest| < |t|
  {
    if t == "" then Fail
    else if t[0] != '"' then Prepend(t[0], ReadQuoted(t[1..]))
    else if |t| > 1 && t[1] == '"' then Prepend('"', ReadQuoted(t[2..]))
    else Ok("", t[1..])
  }

  function ReadPlain(t: string): (r: Read<string>)
    ensures r.Ok? ==> |r.rest| <= |t|
  {
    if t == "" || t[0] == ',' || t[0] == '\n' then Ok("", t)
    else if t[0] == '"' || t[0] == '\r' then Fail
    else Prepend(t[0], ReadPlain(t[1..]))
  }

  function ReadCell(t: string): (r: Read<string>)
    ensures r.Ok? ==> |r.rest| <= |t|
  {
    if t != "" && t[0] == '"' then ReadQuoted(t[1..]) else ReadPlain(t)
  }

  function ReadRow(t: string): (r: Read<seq<string>>)
    ensures r.Ok? ==> |r.rest| < |t|
    decreases |t|
  {
    match ReadCell(t)
    case Fail => Fail
    case Ok(cell, rest) =>
      if rest == "" then Fail
      else if rest[0] == '\n' then Ok([cell], rest[1..])
      else if rest[0] == ',' then
        match ReadRow(rest[1..])
        case Fail => Fail
        case Ok(cells, rest') => Ok([cell] + cells, rest')
      else Fail
  }

  function ReadTable(t: string): Option<seq<seq<string>>>
    decreases |t|
  {
    if t == "" then Some([])
    else
      match ReadRow(t)
      case Fail => None
      case Ok(row, rest) =>
        match ReadTable(rest)
        case None => None
        case Some(rows) => Some([row] + rows)
  }

  lemma ReadFirst(c: char, tail: string)
    ensures ReadQuoted((if c == '"' then "\"\"" else [c]) + tail) == Prepend(c, ReadQuoted(tail))
  {
    if c == '"' {
      var t := "\"\"" + tail;
      assert t[2..] == tail;
    } else {
      var t := [c] + tail;
      assert t[1..] == tail;
    }
  }

  lemma {:induction false} ReadDoubled(cell: string, rest: string)
    requires rest != "" && rest[0] != '"'
    ensures ReadQuoted(Doubled(cell) + ("\"" + rest)) == Ok(cell, rest)
  {
    hide ReadQuoted;
    if cell == "" {
      ReadEnd(rest);
      assert Doubled(cell) + ("\"" + rest) == "\"" + rest;
    } else {
      var tail := Doubled(cell[1..]) + ("\"" + rest);
      ReadDoubled(cell[1..], rest);
      ReadFirst(cell[0], tail);
      assert cell == [cell[0]] + cell[1..];
      assert Doubled(cell) + ("\"" + rest) == (if cell[0] == '"' then "\"\"" else [cell[0]]) + tail;
    }
  }

  lemma ReadEnd(rest: string)
    requires rest != "" && rest[0] != '"'
    ensures ReadQuoted("\"" + rest) == Ok("", rest)
  {
    assert ("\"" + rest)[1..] == rest;
  }

  lemma {:induction false} ReadUnquoted(cell: string, rest: string)
    requires !NeedsQuotes(cell) && rest != "" && (rest[0] == ',' || rest[0] == '\n')
    ensures ReadPlain(cell + rest) == Ok(cell, rest)
  {
    if cell == "" {
      assert cell + rest == rest;
    } else {
      ReadUnquoted(cell[1..], rest);
      assert (cell + rest)[1..] == cell[1..] + rest;
      assert cell == [cell[0]] + cell[1..];
    }
  }

  /** Reading a written cell gives its text, whatever quotes, commas and line breaks it has. */
  lemma ReadCsvCell(cell: string, rest: string)
    requires rest != "" && (rest[0] == ',' || rest[0] == '\n')
    ensures ReadCell(CsvCell(cell) + rest) == Ok(cell, rest)
  {
    hide Doubled, ReadQuoted, ReadPlain;
    if NeedsQuotes(cell) {
      ReadDoubled(cell, rest);
      var t := "\"" + Doubled(cell) + "\"" + rest;
      assert CsvCell(cell) + rest == t;
      assert t[1..] == Doubled(cell) + ("\"" + rest);
    } else {
      ReadUnquoted(cell, rest);
      assert cell != "" ==> cell[0] in cell;
      assert (cell + rest)[0] != '"';
    }
  }

  lemma {:induction false} ReadCsvLine(cells: seq<string>, rest: string)
    requires cells != []
    ensures ReadRow(CsvLine(cells) + ("\n" + rest)) == Ok(cells, rest)
  {
    hide CsvCell, ReadCell;
    var end := "\n" + rest;
    assert end[1..] == rest;
    if |cells| == 1 {
      ReadCsvCell(cells[0], end);
      assert CsvCells(cells)[0] == CsvCell(cells[0]);
      assert CsvLine(cells) == CsvCell(cells[0]) && cells == [cells[0]];
      assert ReadCell(CsvLine(cells) + end) == Ok(cells[0], end);
    } else {
      var tail := CsvLine(cells[1..]) + end;
      ReadCsvLine(cells[1..], rest);
      ReadCsvCell(cells[0], "," + tail);
      LineSplits(cells, end);
      assert ("," + tail)[1..] == tail && cells == [cells[0]] + cells[1..];
    }
  }

  lemma LineSplits(cells: seq<string>, end: string)
    requires |cells| > 1
    ensures CsvLine(cells) + end == CsvCell(cells[0]) + ("," + (CsvLine(cells[1..]) + end))
  {
    hide CsvCell;
    assert CsvCells(cells)[1..] == CsvCells(cells[1..]);
  }

  /** A cell is written as it is unless it has a quotation mark, a comma or a line break in it. */
  lemma QuotedIfNeeded(cell: string)
    ensures CsvCell(cell) == cell <==> forall i | 0 <= i < |cell| :: cell[i] !in ['"', ',', '\r', '\n']
  {
    hide Doubled;
    if NeedsQuotes(cell) {
      assert CsvCell(cell)[0] == '"';
      if cell != "" && cell[0] == '"' { DoubledLonger(cell); }
    } else {
      assert forall i | 0 <= i < |cell| :: cell[i] in cell;
    }
  }

  lemma {:induction false} DoubledLonger(cell: string)
    ensures |Doubled(cell)| >= |cell|
  {
    if cell != "" { DoubledLonger(cell[1..]); }
  }

  function Terminated(lines: seq<string>): string {
    if lines == [] then "" else lines[0] + ("\n" + Terminated(lines[1..]))
  }

  lemma {:induction false} JoinTerminates(lines: seq<string>)
    requires lines != []
    ensures Join(lines, "\n") + "\n" == Terminated(lines)
  {
    if |lines| == 1 {
      assert Terminated(lines[1..]) == "";
    } else {
      JoinTerminates(lines[1..]);
      assert Join(lines, "\n") + "\n" == lines[0] + ("\n" + (Join(lines[1..], "\n") + "\n"));
    }
  }

  lemma {:induction false} ReadTerminated(rows: seq<seq<string>>)
    requires forall i | 0 <= i < |rows| :: rows[i] != []
    ensures ReadTable(Terminated(CsvLines(rows))) == Some(rows)
  {
    hide CsvLine, ReadRow;
    if rows != [] {
      ReadTerminated(rows[1..]);
      ReadCsvLine(rows[0], Terminated(CsvLines(rows[1..])));
      assert CsvLines(rows)[1..] == CsvLines(rows[1..]);
      assert rows == [rows[0]] + rows[1..];
      assert Terminated(CsvLines(rows)) != "";
    }
  }

  /** A reader gets back the header and the text of every cell, for any cells at all. */
  lemma CsvRoundTrip(header: seq<string>, rows: seq<seq<string>>)
    requires header != [] && forall i | 0 <= i < |header| :: !NeedsQuotes(header[i])
    requires forall i | 0 <= i < |rows| :: |rows[i]| == |header|
    ensures ReadTable(FormatCsv(header, rows)) == Some([header] + rows)
  {
    hide CsvLine, Join, ReadTable, NeedsQuotes;
    HeaderIsLine(header);
    var all := [header] + rows;
    assert [Join(header, ",")] + CsvLines(rows) == CsvLines(all);
    JoinTerminates(CsvLines(all));
    ReadTerminated(all);
  }

  lemma HeaderIsLine(header: seq<string>)
    requires forall i | 0 <= i < |header| :: !NeedsQuotes(header[i])
    ensures CsvLine(header) == Join(header, ",")
  {
    hide NeedsQuotes, Join;
    assert CsvCells(header) == header;
  }

  // ---------------------------------------------------------------- candidates and their order

  datatype Entry = Entry(name: string, isDirectory: bool, mtimeMs: real)
  datatype Candidate = Candidate(name: string, timestampMs: int, mtimeMs: real)

  /** How directory names are read and compared: the timestamp in a bundle's name, and the order of names. */
  datatype Naming = Naming(timestamp: string -> Option<int>, le: (string, string) -> bool)

  predicate Precedes(n: Naming, a: Candidate, b: Candidate) {
    if a.timestampMs != b.timestampMs then a.timestampMs < b.timestampMs
    else if a.mtimeMs != b.mtimeMs then a.mtimeMs < b.mtimeMs
    else n.le(a.name, b.name)
  }

  function InOrder(n: Naming): (Candidate, Candidate) -> bool { (a: Candidate, b: Candidate) => Precedes(n, a, b) }

  function IsBundle(n: Naming): Entry -> bool { (e: Entry) => e.isDirectory && n.timestamp(e.name).Some? }
  function ToCandidate(n: Naming): Entry -> Candidate {
    (e: Entry) => Candidate(e.name, if n.timestamp(e.name).Some? then n.timestamp(e.name).value else 0, e.mtimeMs)
  }

  function Candidates(n: Naming, listing: seq<Entry>): seq<Candidate> { FilterMap(listing, IsBundle(n), ToCandidate(n)) }

  /** The index, oldest bundle first. */
  function Index(n: Naming, listing: seq<Entry>): seq<Candidate> { Sort(Candidates(n, listing), InOrder(n)) }

  /** `candidates.reduce(...)`: a later candidate replaces the best one only when it compares greater. */
  function Best(n: Naming, candidates: seq<Candidate>, k: nat): Candidate
    requires 1 <= k <= |candidates|
  {
    if k == 1 then candidates[0]
    else
      var best := Best(n, candidates, k - 1);
      if Precedes(n, candidates[k - 1], best) then best else candidates[k - 1]
  }

  function Latest(n: Naming, listing: seq<Entry>): Option<Candidate> {
    var candidates := Candidates(n, listing);
    if candidates == [] then None else Some(Best(n, candidates, |candidates|))
  }

  method CollectCandidates(n: Naming, listing: seq<Entry>) returns (candidates: seq<Candidate>)
    ensures candidates == Candidates(n, listing)
  {
    candidates := [];
    for i := 0 to |listing|
      invariant candidates == FilterMap(listing[..i], IsBundle(n), ToCandidate(n))
    {
      CollectOne(n, listing, i);
      var parsed := n.timestamp(listing[i].name);
      if listing[i].isDirectory && parsed.Some? {
        candidates := candidates + [Candidate(listing[i].name, parsed.value, listing[i].mtimeMs)];
      }
    }
    assert listing[..|listing|] == listing;
  }

  lemma CollectOne(n: Naming, listing: seq<Entry>, i: nat)
    requires i < |listing|
    ensures FilterMap(listing[..i + 1], IsBundle(n), ToCandidate(n))
         == FilterMap(listing[..i], IsBundle(n), ToCandidate(n)) + One(listing[i], IsBundle(n), ToCandidate(n))
  {
    FilterMapConcat(listing[..i], [listing[i]], IsBundle(n), ToCandidate(n));
    assert listing[..i + 1] == listing[..i] + [listing[i]];
    assert FilterMap([listing[i]], IsBundle(n), ToCandidate(n))
        == One(listing[i], IsBundle(n), ToCandidate(n)) + FilterMap([listing[i]][1..], IsBundle(n), ToCandidate(n));
  }

  method FindLatestTimestampedBundle(n: Naming, listing: seq<Entry>) returns (r: Option<Candidate>)
    ensures r == Latest(n, listing)
  {
    var candidates := CollectCandidates(n, listing);
    if candidates == [] { return None; }
    var best := candidates[0];
    var k := 1;
    while k < |candidates|
      invariant 1 <= k <= |candidates| && best == Best(n, candidates, k)
    {
      if !Precedes(n, candidates[k], best) { best := candidates[k]; }
      k := k + 1;
    }
    r := Some(best);
  }

  lemma CandidateOrder(n: Naming)
    requires TotalOrder(n.le)
    ensures TotalOrder(InOrder(n))
  {
    var le := InOrder(n);
    forall a, b ensures le(a, b) || le(b, a) { assert n.le(a.name, b.name) || n.le(b.name, a.name); }
    forall a, b | le(a, b) && le(b, a) ensures a == b { assert n.le(a.name, b.name) && n.le(b.name, a.name) ==> a.name == b.name; }
    forall a, b, c | le(a, b) && le(b, c) ensures le(a, c) { assert n.le(a.name, b.name) && n.le(b.name, c.name) ==> n.le(a.name, c.name); }
  }

  ghost predicate IsGreatest(n: Naming, candidates: seq<Candidate>, m: Candidate) {
    m in candidates && forall c | c in candidates :: Precedes(n, c, m)
  }

  lemma {:induction false} BestIsGreatest(n: Naming, candidates: seq<Candidate>, k: nat)
    requires TotalOrder(InOrder(n)) && 1 <= k <= |candidates|
    ensures Best(n, candidates, k) in candidates && forall i | 0 <= i < k :: Precedes(n, candidates[i], Best(n, candidates, k))
  {
    hide Precedes;
    var le := InOrder(n);
    assert forall a, b :: le(a, b) == Precedes(n, a, b);
    if k == 1 {
      assert le(candidates[0], candidates[0]);
    } else {
      BestIsGreatest(n, candidates, k - 1);
      var best, last := Best(n, candidates, k - 1), candidates[k - 1];
      assert le(last, best) || le(best, last);
      assert le(last, last);
      forall i | 0 <= i < k - 1 && le(best, last) ensures le(candidates[i], last) { assert le(candidates[i], best); }
    }
  }

  /** For any order in which the directory is listed, the chosen bundle is the greatest candidate, which is the last
      row of the sorted index; two listings of the same entries give the same index and the same choice. */
  lemma LatestIsLastOfIndex(n: Naming, listing: seq<Entry>, other: seq<Entry>)
    requires TotalOrder(n.le) && multiset(listing) == multiset(other)
    ensures Index(n, listing) == Index(n, other)
    ensures Latest(n, listing) == Latest(n, other)
    ensures Latest(n, listing).None? <==> Index(n, listing) == []
    ensures Latest(n, listing).Some? ==>
      IsGreatest(n, Candidates(n, listing), Latest(n, listing).value)
      && Latest(n, listing).value == Index(n, listing)[|Index(n, listing)| - 1]
  {
    hide Best, FilterMap, Sort, TotalOrder, Precedes;
    CandidateOrder(n);
    FilterMapPermutes(listing, other, IsBundle(n), ToCandidate(n));
    SortOfPermutation(Candidates(n, listing), Candidates(n, other), InOrder(n));
    SortSorts(Candidates(n, listing), InOrder(n));
    LastIsBest(n, Candidates(n, listing), Index(n, listing));
    LastIsBest(n, Candidates(n, other), Index(n, listing));
  }

  /** The directories with a timestamp in their names, as candidates. */
  predicate Stands(n: Naming, e: Entry, c: Candidate) {
    e.isDirectory && n.timestamp(e.name) == Some(c.timestampMs) && e.name == c.name && e.mtimeMs == c.mtimeMs
  }

  ghost function Standing(n: Naming, listing: seq<Entry>, c: Candidate): set<nat> {
    set i: nat | i < |listing| && Stands(n, listing[i], c)
  }

  /** Every row of the index stands for a timestamped directory, and there are as many equal rows as such directories. */
  lemma IndexRows(n: Naming, listing: seq<Entry>, c: Candidate)
    ensures multiset(Index(n, listing))[c] == multiset(Candidates(n, listing))[c] == |Standing(n, listing, c)|
  {
    hide FilterMap, Sort;
    SortPermutes(Candidates(n, listing), InOrder(n));
    FilterMapCounts(listing, |listing|, IsBundle(n), ToCandidate(n), c);
    assert listing[..|listing|] == listing;
    assert Hits(listing, |listing|, IsBundle(n), ToCandidate(n), c) == Standing(n, listing, c);
  }

  lemma CandidateOf(n: Naming, listing: seq<Entry>, c: Candidate)
    ensures c in Candidates(n, listing) <==> exists e | e in listing :: Stands(n, e, c)
  {
    hide Index, Candidates, Stands;
    IndexRows(n, listing, c);
    var hits := Standing(n, listing, c);
    assert c in Candidates(n, listing) <==> multiset(Candidates(n, listing))[c] > 0;
    if |hits| > 0 {
      var i :| i in hits;
      assert listing[i] in listing;
    }
    if e :| e in listing && Stands(n, e, c) {
      var i :| 0 <= i < |listing| && listing[i] == e;
      assert i in hits;
    }
  }

  /** The chosen bundle is the newest: no timestamped directory has a later timestamp; none with the same timestamp was
      modified later; and among those equal in both none has a greater name. */
  lemma LatestIsNewest(n: Naming, listing: seq<Entry>)
    requires TotalOrder(n.le)
    ensures Latest(n, listing).None? <==> forall e | e in listing :: !e.isDirectory || n.timestamp(e.name).None?
    ensures Latest(n, listing).Some? ==> var m := Latest(n, listing).value;
      && (exists e | e in listing :: Stands(n, e, m))
      && forall e | e in listing && e.isDirectory && n.timestamp(e.name).Some? ::
           var t := n.timestamp(e.name).value;
           && t <= m.timestampMs
           && (t == m.timestampMs ==> e.mtimeMs <= m.mtimeMs)
           && (t == m.timestampMs && e.mtimeMs == m.mtimeMs ==> n.le(e.name, m.name))
  {
    hide Best, Candidates, Index, TotalOrder, Sort;
    LatestIsLastOfIndex(n, listing, listing);
    forall e | e in listing && e.isDirectory && n.timestamp(e.name).Some?
      ensures Candidate(e.name, n.timestamp(e.name).value, e.mtimeMs) in Candidates(n, listing)
    {
      CandidateOf(n, listing, Candidate(e.name, n.timestamp(e.name).value, e.mtimeMs));
    }
    if Latest(n, listing).Some? { CandidateOf(n, listing, Latest(n, listing).value); }
    if Candidates(n, listing) != [] {
      CandidateOf(n, listing, Candidates(n, listing)[0]);
      assert Candidates(n, listing)[0] in Candidates(n, listing);
    }
  }

  /** The index runs from old to new: timestamps never decrease, nor modification times within one timestamp, nor names
      among rows equal in both. */
  lemma IndexAscends(n: Naming, listing: seq<Entry>)
    requires TotalOrder(n.le)
    ensures forall i, j | 0 <= i < j < |Index(n, listing)| :: var a, b := Index(n, listing)[i], Index(n, listing)[j];
      && a.timestampMs <= b.timestampMs
      && (a.timestampMs == b.timestampMs ==> a.mtimeMs <= b.mtimeMs)
      && (a.timestampMs == b.timestampMs && a.mtimeMs == b.mtimeMs ==> n.le(a.name, b.name))
  {
    hide Sort, Candidates, TotalOrder;
    CandidateOrder(n);
    SortSorts(Candidates(n, listing), InOrder(n));
    var s := Index(n, listing);
    forall i, j | 0 <= i < j < |s| ensures Precedes(n, s[i], s[j]) { assert InOrder(n)(s[i], s[j]); }
  }

  lemma LastIsBest(n: Naming, candidates: seq<Candidate>, sorted: seq<Candidate>)
    requires TotalOrder(InOrder(n)) && Sorted(sorted, InOrder(n)) && multiset(sorted) == multiset(candidates)
    ensures |sorted| == |candidates|
    ensures candidates != [] ==>
      var best := Best(n, candidates, |candidates|); IsGreatest(n, candidates, best) && sorted[|sorted| - 1] == best
  {
    hide Precedes, Best;
    assert |sorted| == |multiset(sorted)| == |multiset(candidates)| == |candidates|;
    if candidates != [] {
      var le := InOrder(n);
      var best, last := Best(n, candidates, |candidates|), sorted[|sorted| - 1];
      assert forall a, b :: le(a, b) == Precedes(n, a, b);
      BestIsGreatest(n, candidates, |candidates|);
      assert last in multiset(candidates) && best in multiset(sorted);
      var i :| 0 <= i < |candidates| && candidates[i] == last;
      var j :| 0 <= j < |sorted| && sorted[j] == best;
      assert le(last, best);
      assert j < |sorted| - 1 ==> le(best, last);
    }
  }
}
