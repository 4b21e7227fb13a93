/** The load generator of the benchmark: concurrent workers sharing one request counter.
    A worker runs without interruption from one `await` to the next, so a run is a sequence of such turns:
    a worker's first turn (`Launch`), and every later turn in which it receives a sample (`Resume`). */
module WorkerPool {
  import opened Strings
  import opened Sorting

  datatype Sample = Sample(ok: bool, status: nat, error: string, latency: real)
  datatype Failure = Failure(status: nat, error: string, latency: real)
  datatype Options = Options(requests: nat, concurrency: nat, strictStatus: bool, expectStatus: set<nat>)

  datatype Worker = NotStarted | InFlight(index: nat) | Exited
  datatype Action = Launch(worker: nat) | Resume(worker: nat, sample: Sample)

  /** `log` is the history of completed requests, in completion order. */
  datatype Pool = Pool(nextIndex: nat, workers: seq<Worker>, successes: seq<real>, failures: seq<Failure>,
                       log: seq<(nat, Sample)>)

  predicate Passes(o: Options, s: Sample) {
    var passedStatus := s.ok && s.status in o.expectStatus;
    (!o.strictStatus && s.ok) || (o.strictStatus && passedStatus)
  }

  function FailureOf(s: Sample): Failure {
    var error := if s.ok then "unexpected_status_" + Decimal(s.status)
                 else if s.error != "" then s.error else "request_failed";
    Failure(s.status, error, s.latency)
  }

  function Init(o: Options): Pool {
    Pool(0, seq(o.concurrency, _ => NotStarted), [], [], [])
  }

  /** Take the next index; leave the loop when it is past the end. */
  function Claim(o: Options, p: Pool, w: nat): Pool
    requires w < |p.workers|
  {
    var idx := p.nextIndex;
    p.(nextIndex := idx + 1, workers := p.workers[w := if idx >= o.requests then Exited else InFlight(idx)])
  }

  function Record(o: Options, p: Pool, idx: nat, s: Sample): Pool {
    var q := p.(log := p.log + [(idx, s)]);
    if Passes(o, s) then q.(successes := p.successes + [s.latency]) else q.(failures := p.failures + [FailureOf(s)])
  }

  predicate Enabled(p: Pool, a: Action) {
    a.worker < |p.workers| && match a
      case Launch(w) => p.workers[w].NotStarted?
      case Resume(w, _) => p.workers[w].InFlight?
  }

  function Turn(o: Options, p: Pool, a: Action): Pool
    requires Enabled(p, a)
  {
    match a
    case Launch(w) => Claim(o, p, w)
    case Resume(w, s) => Claim(o, Record(o, p, p.workers[w].index, s), w)
  }

  /** The pool after a schedule, or `None` when some turn was not possible. */
  function Exec(o: Options, schedule: seq<Action>): Option<Pool> {
    if schedule == [] then Some(Init(o))
    else
      var last := schedule[|schedule| - 1];
      match Exec(o, schedule[..|schedule| - 1])
      case None => None
      case Some(p) => if Enabled(p, last) then Some(Turn(o, p, last)) else None
  }

  predicate Finished(p: Pool) { forall w | 0 <= w < |p.workers| :: p.workers[w].Exited? }

  // ---------------------------------------------------------------- views of a pool

  function Running(): Worker -> bool { (w: Worker) => w.InFlight? }
  function Leaving(): Worker -> bool { (w: Worker) => w.Exited? }
  function Waiting(): Worker -> bool { (w: Worker) => w.NotStarted? }
  function IndexOf(): Worker -> nat { (w: Worker) => if w.InFlight? then w.index else 0 }
  function All<T>(): T -> bool { _ => true }
  function Key(): ((nat, Sample)) -> nat { (e: (nat, Sample)) => e.0 }
  function Latency(): ((nat, Sample)) -> real { (e: (nat, Sample)) => e.1.latency }
  function Failed(): ((nat, Sample)) -> Failure { (e: (nat, Sample)) => FailureOf(e.1) }
  function Good(o: Options): ((nat, Sample)) -> bool { (e: (nat, Sample)) => Passes(o, e.1) }
  function Bad(o: Options): ((nat, Sample)) -> bool { (e: (nat, Sample)) => !Passes(o, e.1) }

  function InFlightOf(p: Pool): seq<nat> { FilterMap(p.workers, Running(), IndexOf()) }
  function Count(ws: seq<Worker>, kind: Worker -> bool): nat { |FilterMap(ws, kind, IndexOf())| }
  function Completed(p: Pool): seq<nat> { FilterMap(p.log, All(), Key()) }
  function Range(n: nat): seq<nat> { seq(n, i => i) }
  function Claimed(o: Options, p: Pool): nat { if p.nextIndex <= o.requests then p.nextIndex else o.requests }

  /** Every claimed index is either completed once or in flight once. */
  ghost predicate Accounted(o: Options, p: Pool) {
    multiset(Completed(p)) + multiset(InFlightOf(p)) == multiset(Range(Claimed(o, p)))
  }

  ghost predicate Inv(o: Options, p: Pool) {
    && |p.workers| == o.concurrency
    && Accounted(o, p)
    // every further increment of the counter is a worker that left
    && p.nextIndex == Claimed(o, p) + Count(p.workers, Leaving())
    // each completed sample went to exactly the list its status calls for, in completion order
    && p.successes == FilterMap(p.log, Good(o), Latency())
    && p.failures == FilterMap(p.log, Bad(o), Failed())
  }

  lemma ReplaceWorker(ws: seq<Worker>, w: nat, x: Worker, kind: Worker -> bool)
    requires w < |ws|
    ensures multiset(FilterMap(ws[w := x], kind, IndexOf())) + multiset(One(ws[w], kind, IndexOf()))
         == multiset(FilterMap(ws, kind, IndexOf())) + multiset(One(x, kind, IndexOf()))
    ensures Count(ws[w := x], kind) + (if kind(ws[w]) then 1 else 0) == Count(ws, kind) + (if kind(x) then 1 else 0)
  {
    var l, r := ws[..w], ws[w + 1..];
    assert ws == l + [ws[w]] + r && ws[w := x] == l + [x] + r;
    FilterMapMiddle(l, ws[w], r, kind, IndexOf());
    FilterMapMiddle(l, x, r, kind, IndexOf());
    assert |multiset(FilterMap(ws[w := x], kind, IndexOf()))| == Count(ws[w := x], kind);
    assert |multiset(FilterMap(ws, kind, IndexOf()))| == Count(ws, kind);
  }

  lemma FilterMapSnoc<T, U>(s: seq<T>, x: T, keep: T -> bool, f: T -> U)
    ensures FilterMap(s + [x], keep, f) == FilterMap(s, keep, f) + One(x, keep, f)
  {
    FilterMapConcat(s, [x], keep, f);
    assert FilterMap([x], keep, f) == One(x, keep, f) + FilterMap([x][1..], keep, f);
  }

  lemma {:induction false} CountBounded(ws: seq<Worker>, kind: Worker -> bool)
    ensures Count(ws, kind) <= |ws|
  {
    if ws != [] { CountBounded(ws[1..], kind); }
  }

  lemma InitInv(o: Options)
    ensures Inv(o, Init(o))
  {
    KeepsNone(Init(o).workers, Running(), IndexOf());
    KeepsNone(Init(o).workers, Leaving(), IndexOf());
  }

  /** Changing one worker changes the in-flight requests by that worker's index only. */
  lemma ReplaceInFlight(ws: seq<Worker>, w: nat, x: Worker)
    requires w < |ws|
    ensures var before, after := multiset(FilterMap(ws, Running(), IndexOf())), multiset(FilterMap(ws[w := x], Running(), IndexOf()));
      && (ws[w].NotStarted? && x.InFlight? ==> after == before + multiset{x.index})
      && (ws[w].InFlight? && x.NotStarted? ==> after + multiset{ws[w].index} == before)
      && (!ws[w].InFlight? && !x.InFlight? ==> after == before)
    ensures Count(ws[w := x], Leaving()) == Count(ws, Leaving()) - (if ws[w].Exited? then 1 else 0) + (if x.Exited? then 1 else 0)
  {
    ReplaceWorker(ws, w, x, Running());
    ReplaceWorker(ws, w, x, Leaving());
    assert One(ws[w], Running(), IndexOf()) == if ws[w].InFlight? then [ws[w].index] else [];
    assert One(x, Running(), IndexOf()) == if x.InFlight? then [x.index] else [];
    var before, after := multiset(FilterMap(ws, Running(), IndexOf())), multiset(FilterMap(ws[w := x], Running(), IndexOf()));
    assert after + multiset{} == after && before + multiset{} == before;
  }

  lemma RangeSnoc(n: nat)
    ensures multiset(Range(n + 1)) == multiset(Range(n)) + multiset{n}
  {
    assert Range(n + 1) == Range(n) + [n];
  }

  lemma ClaimAccounts(o: Options, p: Pool, w: nat)
    requires w < |p.workers| && p.workers[w].NotStarted? && Accounted(o, p)
    ensures Accounted(o, Claim(o, p, w))
  {
    hide FilterMap, Range, Count;
    var q := Claim(o, p, w);
    ReplaceInFlight(p.workers, w, q.workers[w]);
    RangeSnoc(p.nextIndex);
    Associate(multiset(Completed(p)), multiset(InFlightOf(p)), p.nextIndex);
    assert Completed(q) == Completed(p);
  }

  lemma ClaimInv(o: Options, p: Pool, w: nat)
    requires w < |p.workers| && p.workers[w].NotStarted? && Inv(o, p)
    ensures Inv(o, Claim(o, p, w))
  {
    ClaimAccounts(o, p, w);
    ReplaceInFlight(p.workers, w, Claim(o, p, w).workers[w]);
  }

  lemma Associate(a: multiset<nat>, b: multiset<nat>, x: nat)
    ensures a + (b + multiset{x}) == (a + b) + multiset{x}
    ensures (a + multiset{x}) + b == a + (b + multiset{x})
  {
  }

  /** The pool between a worker's receipt of a sample and its next claim. */
  function Received(o: Options, p: Pool, w: nat, s: Sample): Pool
    requires w < |p.workers| && p.workers[w].InFlight?
  {
    var q := Record(o, p, p.workers[w].index, s);
    q.(workers := q.workers[w := NotStarted])
  }

  lemma ReceivedAccounts(o: Options, p: Pool, w: nat, s: Sample)
    requires w < |p.workers| && p.workers[w].InFlight? && Accounted(o, p)
    ensures Accounted(o, Received(o, p, w, s))
  {
    hide FilterMap, Passes, FailureOf;
    var idx := p.workers[w].index;
    var r := Received(o, p, w, s);
    ReplaceInFlight(p.workers, w, NotStarted);
    FilterMapSnoc(p.log, (idx, s), All(), Key());
    assert Completed(r) == Completed(p) + [idx];
    Associate(multiset(Completed(p)), multiset(InFlightOf(r)), idx);
  }

  lemma ReceivedInv(o: Options, p: Pool, w: nat, s: Sample)
    requires w < |p.workers| && p.workers[w].InFlight? && Inv(o, p)
    ensures Inv(o, Received(o, p, w, s))
  {
    hide FilterMap, Passes, FailureOf, Accounted, Count;
    var idx := p.workers[w].index;
    ReplaceInFlight(p.workers, w, NotStarted);
    ReceivedAccounts(o, p, w, s);
    RecordSplits(o, p, idx, s);
  }

  lemma RecordSplits(o: Options, p: Pool, idx: nat, s: Sample)
    requires p.successes == FilterMap(p.log, Good(o), Latency()) && p.failures == FilterMap(p.log, Bad(o), Failed())
    ensures var q := Record(o, p, idx, s);
      q.successes == FilterMap(q.log, Good(o), Latency()) && q.failures == FilterMap(q.log, Bad(o), Failed())
  {
    FilterMapSnoc(p.log, (idx, s), Good(o), Latency());
    FilterMapSnoc(p.log, (idx, s), Bad(o), Failed());
  }

  lemma ResumeIsClaim(o: Options, p: Pool, w: nat, s: Sample)
    requires w < |p.workers| && p.workers[w].InFlight?
    ensures Turn(o, p, Resume(w, s)) == Claim(o, Received(o, p, w, s), w)
  {
    var x := Turn(o, p, Resume(w, s)).workers[w];
    assert p.workers[w := NotStarted][w := x] == p.workers[w := x];
  }

  lemma TurnInv(o: Options, p: Pool, a: Action)
    requires Inv(o, p) && Enabled(p, a)
    ensures Inv(o, Turn(o, p, a))
  {
    match a
    case Launch(w) => ClaimInv(o, p, w);
    case Resume(w, s) =>
      ReceivedInv(o, p, w, s);
      ClaimInv(o, Received(o, p, w, s), w);
      ResumeIsClaim(o, p, w, s);
  }

  /** What every turn of every schedule keeps. */
  lemma {:induction false} ScheduleInv(o: Options, schedule: seq<Action>)
    requires Exec(o, schedule).Some?
    ensures Inv(o, Exec(o, schedule).value)
  {
    if schedule == [] {
      InitInv(o);
    } else {
      ScheduleInv(o, schedule[..|schedule| - 1]);
      TurnInv(o, Exec(o, schedule[..|schedule| - 1]).value, schedule[|schedule| - 1]);
    }
  }

  // ---------------------------------------------------------------- theorems over all schedules

  /** At any moment the requests in flight are distinct, none is past the end, none was completed before,
      and there are never more than `concurrency` of them. */
  lemma InFlightBounded(o: Options, schedule: seq<Action>)
    requires Exec(o, schedule).Some?
    ensures var p := Exec(o, schedule).value;
      && |InFlightOf(p)| <= o.concurrency
      && NoDuplicates(Completed(p) + InFlightOf(p))
      && forall i | i in Completed(p) + InFlightOf(p) :: i < o.requests && i < p.nextIndex
  {
    var p := Exec(o, schedule).value;
    ScheduleInv(o, schedule);
    CountBounded(p.workers, Running());
    var n := Claimed(o, p);
    NoDuplicatesMultiset(Range(n));
    NoDuplicatesMultiset(Completed(p) + InFlightOf(p));
    forall i | i in Completed(p) + InFlightOf(p) ensures i < n {
      assert i in multiset(Completed(p) + InFlightOf(p));
      assert i in multiset(Range(n));
    }
  }

  /** The number of turns is the number of workers started plus the number of requests completed ... */
  lemma {:induction false} TurnsSpent(o: Options, schedule: seq<Action>)
    requires Exec(o, schedule).Some?
    ensures var p := Exec(o, schedule).value;
      |schedule| + Count(p.workers, Waiting()) == o.concurrency + |p.log|
  {
    if schedule == [] {
      KeepsAll(Init(o).workers, Waiting(), IndexOf());
    } else {
      var p := Exec(o, schedule[..|schedule| - 1]).value;
      TurnsSpent(o, schedule[..|schedule| - 1]);
      var w := schedule[|schedule| - 1].worker;
      ReplaceWorker(p.workers, w, Exec(o, schedule).value.workers[w], Waiting());
    }
  }

  lemma LogBounded(o: Options, p: Pool)
    requires Accounted(o, p)
    ensures |p.log| <= o.requests
  {
    KeepsAll(p.log, All(), Key());
    assert |multiset(Completed(p))| <= |multiset(Completed(p)) + multiset(InFlightOf(p))| == |multiset(Range(Claimed(o, p)))|;
  }

  /** ... so no schedule is longer than `concurrency + requests`, and one that is not finished can go on:
      the pool always terminates. */
  lemma Terminates(o: Options, schedule: seq<Action>)
    requires Exec(o, schedule).Some?
    ensures |schedule| <= o.concurrency + o.requests
    ensures !Finished(Exec(o, schedule).value) <==> exists a :: Enabled(Exec(o, schedule).value, a)
  {
    var p := Exec(o, schedule).value;
    ScheduleInv(o, schedule);
    TurnsSpent(o, schedule);
    LogBounded(o, p);
    if !Finished(p) {
      var w :| 0 <= w < |p.workers| && !p.workers[w].Exited?;
      assert Enabled(p, if p.workers[w].NotStarted? then Launch(w) else Resume(w, Sample(true, 200, "", 0.0)));
    }
  }

  /** What holds when `Promise.all` resolves, whatever the interleaving was. */
  lemma FinalState(o: Options, schedule: seq<Action>)
    requires o.concurrency >= 1
    requires Exec(o, schedule).Some? && Finished(Exec(o, schedule).value)
    ensures var p := Exec(o, schedule).value;
      && multiset(Completed(p)) == multiset(Range(o.requests))
      && |p.successes| + |p.failures| == o.requests
      && p.nextIndex == o.requests + o.concurrency
      && |schedule| == o.requests + o.concurrency
  {
    var p := Exec(o, schedule).value;
    ScheduleInv(o, schedule);
    TurnsSpent(o, schedule);
    KeepsNone(p.workers, Waiting(), IndexOf());
    KeepsAll(p.workers, Leaving(), IndexOf());
    AllCompleted(o, p);
    SplitLengths(o, p.log);
  }

  lemma AllCompleted(o: Options, p: Pool)
    requires Finished(p) && Accounted(o, p) && p.nextIndex > o.requests
    ensures multiset(Completed(p)) == multiset(Range(o.requests)) && |p.log| == o.requests
  {
    KeepsNone(p.workers, Running(), IndexOf());
    KeepsAll(p.log, All(), Key());
    assert multiset(Completed(p)) + multiset{} == multiset(Completed(p));
    assert |multiset(Completed(p))| == |multiset(Range(o.requests))|;
  }

  lemma {:induction false} SplitLengths(o: Options, log: seq<(nat, Sample)>)
    ensures |FilterMap(log, Good(o), Latency())| + |FilterMap(log, Bad(o), Failed())| == |log|
  {
    if log != [] { SplitLengths(o, log[1..]); }
  }

  /** The server answers request `i` with `answer(i)`, whenever it is sent. */
  ghost predicate Answered(schedule: seq<Action>, o: Options, answer: nat -> Sample)
    requires Exec(o, schedule).Some?
  {
    forall k | 0 <= k < |Exec(o, schedule).value.log| ::
      var e := Exec(o, schedule).value.log[k]; e.1 == answer(e.0)
  }

  function Reply(answer: nat -> Sample): nat -> (nat, Sample) { (i: nat) => (i, answer(i)) }

  lemma {:induction false} LogFromIndices(log: seq<(nat, Sample)>, answer: nat -> Sample)
    requires forall k | 0 <= k < |log| :: log[k].1 == answer(log[k].0)
    ensures FilterMap(FilterMap(log, All(), Key()), All(), Reply(answer)) == log
  {
    if log != [] {
      LogFromIndices(log[1..], answer);
      assert FilterMap(log, All(), Key())[1..] == FilterMap(log[1..], All(), Key());
    }
  }

  /** The scheduler cannot influence the measurements: any two finished schedules collect the same latencies
      and the same failures, as multisets. */
  lemma ScheduleIndependent(o: Options, s: seq<Action>, t: seq<Action>, answer: nat -> Sample)
    requires o.concurrency >= 1
    requires Exec(o, s).Some? && Finished(Exec(o, s).value) && Answered(s, o, answer)
    requires Exec(o, t).Some? && Finished(Exec(o, t).value) && Answered(t, o, answer)
    ensures multiset(Exec(o, s).value.successes) == multiset(Exec(o, t).value.successes)
    ensures multiset(Exec(o, s).value.failures) == multiset(Exec(o, t).value.failures)
  {
    var p, q := Exec(o, s).value, Exec(o, t).value;
    FinalState(o, s);
    FinalState(o, t);
    ScheduleInv(o, s);
    ScheduleInv(o, t);
    LogFromIndices(p.log, answer);
    LogFromIndices(q.log, answer);
    FilterMapPermutes(Completed(p), Completed(q), All(), Reply(answer));
    FilterMapPermutes(p.log, q.log, Good(o), Latency());
    FilterMapPermutes(p.log, q.log, Bad(o), Failed());
  }

  // ---------------------------------------------------------------- what counts as a success

  /** In strict mode a request succeeds when the server answers with an expected status, otherwise when it answers. */
  predicate Succeeds(o: Options, s: Sample) { s.ok && (o.strictStatus ==> s.status in o.expectStatus) }

  /** What is written down about a request that did not succeed. */
  predicate Reports(f: Failure, s: Sample) {
    && f.status == s.status && f.latency == s.latency
    && (s.ok ==> f.error == "unexpected_status_" + Decimal(s.status))
    && (!s.ok ==> f.error == if s.error == "" then "request_failed" else s.error)
  }

  /** The requests that succeed after that time. */
  ghost function SuccessesAt(o: Options, answer: nat -> Sample, x: real): set<nat> {
    set i: nat | i < o.requests && Succeeds(o, answer(i)) && answer(i).latency == x
  }

  /** The requests that do not succeed and are reported like that. */
  ghost function FailuresAs(o: Options, answer: nat -> Sample, f: Failure): set<nat> {
    set i: nat | i < o.requests && !Succeeds(o, answer(i)) && Reports(f, answer(i))
  }

  function Replies(n: nat, answer: nat -> Sample): (r: seq<(nat, Sample)>)
    ensures |r| == n && forall i: nat | i < n :: r[i] == (i, answer(i))
  {
    seq(n, (i: nat) => (i, answer(i)))
  }

  lemma {:induction false} RangeReplies(indices: seq<nat>, answer: nat -> Sample)
    ensures var r := FilterMap(indices, All(), Reply(answer)); |r| == |indices| && forall i | 0 <= i < |r| :: r[i] == (indices[i], answer(indices[i]))
  {
    if indices != [] { RangeReplies(indices[1..], answer); }
  }

  lemma LogPermutesReplies(o: Options, schedule: seq<Action>, answer: nat -> Sample)
    requires o.concurrency >= 1
    requires Exec(o, schedule).Some? && Finished(Exec(o, schedule).value) && Answered(schedule, o, answer)
    ensures multiset(Exec(o, schedule).value.log) == multiset(Replies(o.requests, answer))
  {
    hide Exec, FilterMap, Finished;
    var p := Exec(o, schedule).value;
    FinalState(o, schedule);
    LogFromIndices(p.log, answer);
    FilterMapPermutes(Completed(p), Range(o.requests), All(), Reply(answer));
    RangeReplies(Range(o.requests), answer);
    assert FilterMap(Range(o.requests), All(), Reply(answer)) == Replies(o.requests, answer);
  }

  /** When the pool is finished, every latency stands among the successes once for each successful request that took so
      long, and every failure among the failures once for each other request that it reports. */
  lemma SuccessesExact(o: Options, schedule: seq<Action>, answer: nat -> Sample)
    requires o.concurrency >= 1
    requires Exec(o, schedule).Some? && Finished(Exec(o, schedule).value) && Answered(schedule, o, answer)
    ensures var p := Exec(o, schedule).value;
      && (forall x :: multiset(p.successes)[x] == |SuccessesAt(o, answer, x)|)
      && (forall f :: multiset(p.failures)[f] == |FailuresAs(o, answer, f)|)
  {
    hide Exec, FilterMap, Finished, Hits, SuccessesAt, FailuresAs, Replies, Inv;
    var p, replies := Exec(o, schedule).value, Replies(o.requests, answer);
    ScheduleInv(o, schedule);
    Split(o, p);
    LogPermutesReplies(o, schedule, answer);
    FilterMapPermutes(p.log, replies, Good(o), Latency());
    FilterMapPermutes(p.log, replies, Bad(o), Failed());
    assert replies[..o.requests] == replies;
    forall x ensures multiset(p.successes)[x] == |SuccessesAt(o, answer, x)| {
      FilterMapCounts(replies, o.requests, Good(o), Latency(), x);
      SuccessHits(o, replies, answer, x);
    }
    forall f ensures multiset(p.failures)[f] == |FailuresAs(o, answer, f)| {
      FilterMapCounts(replies, o.requests, Bad(o), Failed(), f);
      FailureHits(o, replies, answer, f);
    }
  }

  lemma Split(o: Options, p: Pool)
    requires Inv(o, p)
    ensures p.successes == FilterMap(p.log, Good(o), Latency()) && p.failures == FilterMap(p.log, Bad(o), Failed())
  {
  }

  lemma SuccessHits(o: Options, replies: seq<(nat, Sample)>, answer: nat -> Sample, x: real)
    requires replies == Replies(o.requests, answer)
    ensures Hits(replies, o.requests, Good(o), Latency(), x) == SuccessesAt(o, answer, x)
  {
  }

  lemma FailureHits(o: Options, replies: seq<(nat, Sample)>, answer: nat -> Sample, f: Failure)
    requires replies == Replies(o.requests, answer)
    ensures Hits(replies, o.requests, Bad(o), Failed(), f) == FailuresAs(o, answer, f)
  {
  }

  // ---------------------------------------------------------------- the shared state, updated in place

  class LoadPool {
    const opts: Options
    var nextIndex: nat
    var workers: seq<Worker>
    var successLatencies: seq<real>
    var failureSamples: seq<Failure>
    ghost var log: seq<(nat, Sample)>

    ghost function State(): Pool
      reads this
    {
      Pool(nextIndex, workers, successLatencies, failureSamples, log)
    }

    constructor (o: Options)
      ensures opts == o && State() == Init(o)
    {
      opts, nextIndex, workers := o, 0, seq(o.concurrency, _ => NotStarted);
      successLatencies, failureSamples, log := [], [], [];
    }

    method TakeIndex(w: nat)
      requires w < |workers|
      modifies this
      ensures State() == Claim(opts, old(State()), w)
    {
      var idx := nextIndex;
      nextIndex := nextIndex + 1;
      if idx >= opts.requests {
        workers := workers[w := Exited];
        return;
      }
      workers := workers[w := InFlight(idx)];
    }

    method Launch(w: nat)
      requires Enabled(State(), Action.Launch(w))
      modifies this
      ensures State() == Turn(opts, old(State()), Action.Launch(w))
    {
      TakeIndex(w);
    }

    method Resume(w: nat, sample: Sample)
      requires Enabled(State(), Action.Resume(w, sample))
      modifies this
      ensures State() == Turn(opts, old(State()), Action.Resume(w, sample))
    {
      log := log + [(workers[w].index, sample)];
      var passedStatus := sample.ok && sample.status in opts.expectStatus;
      if !opts.strictStatus && sample.ok {
        successLatencies := successLatencies + [sample.latency];
      } else if opts.strictStatus && passedStatus {
        successLatencies := successLatencies + [sample.latency];
      } else {
        failureSamples := failureSamples + [FailureOf(sample)];
      }
      TakeIndex(w);
    }
  }

  /** `runLoad` with an arbitrary scheduler: it terminates, every request was sent once and counted once. */
  method RunLoad(o: Options, answer: nat -> Sample) returns (pool: LoadPool, ghost schedule: seq<Action>)
    requires o.concurrency >= 1
    ensures fresh(pool) && pool.opts == o
    ensures Exec(o, schedule) == Some(pool.State()) && Finished(pool.State()) && Answered(schedule, o, answer)
    ensures |pool.successLatencies| + |pool.failureSamples| == o.requests
    ensures pool.nextIndex == o.requests + o.concurrency
    ensures forall x :: multiset(pool.successLatencies)[x] == |SuccessesAt(o, answer, x)|
    ensures forall f :: multiset(pool.failureSamples)[f] == |FailuresAs(o, answer, f)|
  {
    pool := new LoadPool(o);
    schedule := [];
    while exists w :: 0 <= w < |pool.workers| && !pool.workers[w].Exited?
      invariant fresh(pool) && pool.opts == o
      invariant Exec(o, schedule) == Some(pool.State())
      invariant Answered(schedule, o, answer)
      decreases o.concurrency + o.requests - |schedule|
    {
      var w :| 0 <= w < |pool.workers| && !pool.workers[w].Exited?;
      ghost var before := schedule;
      Terminates(o, schedule);
      if pool.workers[w].NotStarted? {
        schedule := schedule + [Action.Launch(w)];
        pool.Launch(w);
      } else {
        var sample := answer(pool.workers[w].index);
        schedule := schedule + [Action.Resume(w, sample)];
        pool.Resume(w, sample);
      }
      assert schedule[..|schedule| - 1] == before;
      Terminates(o, schedule);
    }
    FinalState(o, schedule);
    SuccessesExact(o, schedule, answer);
  }
}
