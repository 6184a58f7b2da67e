/** The recovery scan and the bounded hint queue of session closing (billing/closure.py). */
module ClosureQueue {
  import opened Prelude

  // ---------- keyset scan ----------

  /** Session ids are 32-bit integers. */
  const MAX_ID: int := 2147483647

  datatype Visit = Ready | NeedsReview | Pending | Busy | Failed

  datatype ScanResult = ScanResult(scanned: nat, ready: nat, needsReview: nat, pending: nat, busy: nat, failed: nat)

  function Count(r: ScanResult, v: Visit): ScanResult {
    match v
    case Ready => r.(ready := r.ready + 1)
    case NeedsReview => r.(needsReview := r.needsReview + 1)
    case Pending => r.(pending := r.pending + 1)
    case Busy => r.(busy := r.busy + 1)
    case Failed => r.(failed := r.failed + 1)
  }

  predicate Adds(r: ScanResult) { r.scanned == r.ready + r.needsReview + r.pending + r.busy + r.failed }

  /** How many of the first n candidates came to this. */
  ghost function Times(handled: nat -> Visit, n: nat, v: Visit): nat {
    if n == 0 then 0 else TimesOnce(Times(handled, n - 1, v), handled(n - 1), v)
  }

  function TimesOnce(before: nat, last: Visit, v: Visit): nat { before + if last == v then 1 else 0 }

  function Category(r: ScanResult, v: Visit): nat {
    match v
    case Ready => r.ready
    case NeedsReview => r.needsReview
    case Pending => r.pending
    case Busy => r.busy
    case Failed => r.failed
  }

  /** The counters after the first n candidates. */
  function Tally(handled: nat -> Visit, n: nat): ScanResult {
    if n == 0 then ScanResult(0, 0, 0, 0, 0, 0) else Count(Tally(handled, n - 1), handled(n - 1)).(scanned := n)
  }

  lemma CountedCategory(r: ScanResult, last: Visit, v: Visit)
    ensures Category(Count(r, last), v) == TimesOnce(Category(r, v), last, v)
  {
  }

  /** Every candidate is counted once, in the category it came to. */
  lemma {:induction false} TallyMeaning(handled: nat -> Visit, n: nat, v: Visit)
    ensures var r := Tally(handled, n); r.scanned == n && Adds(r) && Category(r, v) == Times(handled, n, v)
  {
    if n == 0 {
    } else {
      TallyMeaning(handled, n - 1, v);
      CountedCategory(Tally(handled, n - 1), handled(n - 1), v);
    }
  }

  /** The ids above the cursor, in order: the query without its limit. */
  function Above(ids: set<int>, cursor: int): (q: seq<int>)
    ensures StrictlySorted(q) && forall x :: x in q <==> x in ids && x > cursor
  {
    SortedSeq(set x | x in ids && x > cursor)
  }

  function Page(ids: set<int>, cursor: int, limit: nat): (q: seq<int>) {
    var all := Above(ids, cursor);
    if |all| <= limit then all else all[..limit]
  }

  lemma PrefixCovers(all: seq<int>, n: nat)
    requires StrictlySorted(all) && 0 < n <= |all|
    ensures StrictlySorted(all[..n])
    ensures forall x :: x in all[..n] <==> x in all && x <= all[n - 1]
  {
  }

  /** A nonempty page moves the cursor up and leaves out no id up to its new position. */
  lemma PageCovers(ids: set<int>, cursor: int, limit: nat, page: seq<int>, last: int)
    requires page == Page(ids, cursor, limit) && page != [] && last == page[|page| - 1]
    ensures StrictlySorted(page) && last in ids && cursor < last
    ensures forall x :: x in page <==> x in ids && cursor < x <= last
  {
    var all := Above(ids, cursor);
    assert page == all[..|page|];
    PrefixCovers(all, |page|);
    assert last in page;
  }

  lemma EmptyPageCovers(ids: set<int>, cursor: int, limit: nat)
    requires limit >= 1 && Page(ids, cursor, limit) == []
    ensures forall x :: x in ids ==> x <= cursor
  {
  }

  lemma SortedAppend(a: seq<int>, b: seq<int>, cursor: int)
    requires StrictlySorted(a) && StrictlySorted(b)
    requires (forall x :: x in a ==> x <= cursor) && (forall x :: x in b ==> cursor < x)
    ensures StrictlySorted(a + b)
  {
    forall i, j | 0 <= i < j < |a + b| ensures (a + b)[i] < (a + b)[j] {
      if i < |a| <= j {
        assert a[i] in a && b[j - |a|] in b;
      }
    }
  }

  ghost predicate Seen(unsettled: nat -> set<int>, pages: nat, id: int) {
    exists k :: 0 <= k < pages && id in unsettled(k)
  }

  /** Ended and not settled at each of the first page queries. */
  ghost predicate Throughout(unsettled: nat -> set<int>, pages: nat, id: int) {
    forall k :: 0 <= k < pages ==> id in unsettled(k)
  }

  /** Up to the cursor, the scan visited each session unsettled throughout, in order and once, and nothing
      that was never a candidate. */
  ghost predicate Covered(unsettled: nat -> set<int>, pages: nat, cursor: int, visited: seq<int>) {
    && StrictlySorted(visited)
    && (forall id :: id in visited ==> id <= cursor && Seen(unsettled, pages, id))
    && (forall id :: 0 < id <= cursor && Throughout(unsettled, pages, id) ==> id in visited)
  }

  lemma ScanPage(unsettled: nat -> set<int>, pages: nat, cursor: int, visited: seq<int>, page: seq<int>, last: int)
    requires Covered(unsettled, pages, cursor, visited) && StrictlySorted(page) && cursor < last
    requires forall x :: x in page <==> x in unsettled(pages) && cursor < x <= last
    ensures Covered(unsettled, pages + 1, last, visited + page)
  {
    SortedAppend(visited, page, cursor);
    forall id | id in visited + page ensures id <= last && Seen(unsettled, pages + 1, id) {
      if id in visited {
        assert Seen(unsettled, pages, id);
      } else {
        assert id in page;
      }
    }
    forall id | 0 < id <= last && Throughout(unsettled, pages + 1, id) ensures id in visited + page {
      assert id in unsettled(pages);
      if id <= cursor {
        assert Throughout(unsettled, pages, id);
      }
    }
  }

  lemma ScanEnds(unsettled: nat -> set<int>, pages: nat, cursor: int, visited: seq<int>)
    requires Covered(unsettled, pages, cursor, visited) && forall x :: x in unsettled(pages) ==> x <= cursor
    ensures forall id :: id > 0 && Throughout(unsettled, pages + 1, id) ==> id in visited
    ensures forall id :: id in visited ==> Seen(unsettled, pages + 1, id)
  {
    forall id | id > 0 && Throughout(unsettled, pages + 1, id) ensures id in visited {
      assert id in unsettled(pages);
      assert Throughout(unsettled, pages, id);
    }
    forall id | id in visited ensures Seen(unsettled, pages + 1, id) {
      assert Seen(unsettled, pages, id);
    }
  }

  /** `scan_unsettled_sessions`. The table changes under the scan: `unsettled(k)` are the ended, unsettled
      sessions when page k is read, `handled(n)` is what became of the n-th candidate. Every session
      unsettled throughout is visited, and none is visited twice. */
  method ScanUnsettled(batchSize: int, unsettled: nat -> set<int>, handled: nat -> Visit)
    returns (r: Option<ScanResult>, visited: seq<int>, pages: nat)
    requires forall k, id :: id in unsettled(k) ==> id <= MAX_ID
    ensures r.None? <==> batchSize < 1
    ensures StrictlySorted(visited)
    ensures forall id :: id in visited ==> Seen(unsettled, pages, id)
    ensures r.Some? ==> forall id :: id > 0 && Throughout(unsettled, pages, id) ==> id in visited
    ensures r.Some? ==> r.value == Tally(handled, |visited|)
  {
    visited, pages := [], 0;
    if batchSize < 1 {
      return None, visited, pages;
    }
    var result := ScanResult(0, 0, 0, 0, 0, 0);
    var cursor := 0;
    while true
      invariant cursor <= MAX_ID && Covered(unsettled, pages, cursor, visited)
      invariant result == Tally(handled, |visited|)
      decreases MAX_ID - cursor
    {
      var identifiers, last := ReadPage(unsettled, pages, cursor, visited, batchSize);
      if identifiers == [] {
        return Some(result), visited, pages + 1;
      }
      result := CountPage(result, |visited|, identifiers, handled);
      visited, cursor, pages := visited + identifiers, last, pages + 1;
    }
  }

  /** The next page of candidates and its last id. */
  method ReadPage(unsettled: nat -> set<int>, pages: nat, cursor: int, ghost visited: seq<int>, batchSize: nat)
    returns (identifiers: seq<int>, last: int)
    requires batchSize >= 1 && cursor <= MAX_ID && Covered(unsettled, pages, cursor, visited)
    requires forall id :: id in unsettled(pages) ==> id <= MAX_ID
    ensures identifiers == [] ==>
              && (forall id :: id > 0 && Throughout(unsettled, pages + 1, id) ==> id in visited)
              && (forall id :: id in visited ==> Seen(unsettled, pages + 1, id))
    ensures identifiers != [] ==> cursor < last <= MAX_ID && Covered(unsettled, pages + 1, last, visited + identifiers)
  {
    identifiers, last := Page(unsettled(pages), cursor, batchSize), cursor;
    if identifiers == [] {
      EmptyPageCovers(unsettled(pages), cursor, batchSize);
      ScanEnds(unsettled, pages, cursor, visited);
    } else {
      last := identifiers[|identifiers| - 1];
      PageCovers(unsettled(pages), cursor, batchSize, identifiers, last);
      ScanPage(unsettled, pages, cursor, visited, identifiers, last);
    }
  }

  method CountPage(r0: ScanResult, ghost before: nat, identifiers: seq<int>, handled: nat -> Visit) returns (r: ScanResult)
    requires r0 == Tally(handled, before)
    ensures r == Tally(handled, before + |identifiers|)
  {
    r := r0;
    TallyMeaning(handled, before, Ready);
    for i := 0 to |identifiers|
      invariant r == Tally(handled, before + i) && r.scanned == before + i
    {
      r := Count(r, handled(r.scanned)).(scanned := r.scanned + 1);
    }
  }

  // ---------- hint queue ----------

  /** `active` maps each busy worker to the session it is closing; a capacity below 1 means no bound. */
  datatype Runner = Runner(capacity: int, queue: seq<int>, pending: set<int>, active: map<int, int>)

  predicate Full(r: Runner) { 0 < r.capacity <= |r.queue| }

  function Scheduled(r: Runner, id: int): (Runner, bool) {
    if id in r.pending then (r, true)
    else if Full(r) then (r, false)
    else (r.(queue := r.queue + [id], pending := r.pending + {id}), true)
  }

  function Taken(r: Runner, worker: int): Runner
    requires r.queue != []
  {
    r.(queue := r.queue[1..], active := r.active[worker := r.queue[0]])
  }

  /** The `finally` part: reached after success and after any failure. */
  function Released(r: Runner, worker: int): Runner
    requires worker in r.active
  {
    r.(pending := r.pending - {r.active[worker]}, active := r.active - {worker})
  }

  class ClosureRunner {
    const capacity: int
    var queue: seq<int>
    var pending: set<int>
    var active: map<int, int>

    ghost function View(): Runner
      reads this
    {
      Runner(capacity, queue, pending, active)
    }

    constructor (capacity: int)
      ensures View() == Runner(capacity, [], {}, map[])
    {
      this.capacity, queue, pending, active := capacity, [], {}, map[];
    }

    method Schedule(id: int) returns (accepted: bool)
      modifies this
      ensures (View(), accepted) == Scheduled(old(View()), id)
    {
      if id in pending {
        return true;
      }
      if 0 < capacity <= |queue| {
        return false;
      }
      queue := queue + [id];
      pending := pending + {id};
      return true;
    }

    method Take(worker: int) returns (id: int)
      requires queue != []
      modifies this
      ensures View() == Taken(old(View()), worker) && id == old(queue)[0]
    {
      id := queue[0];
      queue := queue[1..];
      active := active[worker := id];
    }

    method Release(worker: int)
      requires worker in active
      modifies this
      ensures View() == Released(old(View()), worker)
    {
      pending := pending - {active[worker]};
      active := active - {worker};
    }
  }

  // ---------- every run ----------

  datatype Step = ScheduleStep(id: int) | TakeStep(worker: int) | ReleaseStep(worker: int)

  /** The runner with its history: ids newly queued and ids handed to workers, in order. */
  datatype World = World(runner: Runner, queued: seq<int>, taken: seq<int>)

  /** A worker takes its next session only after releasing the last one. */
  function Next(w: World, step: Step): World {
    var r := w.runner;
    match step
    case ScheduleStep(id) =>
      var r' := Scheduled(r, id).0;
      World(r', if r'.queue == r.queue then w.queued else w.queued + [id], w.taken)
    case TakeStep(worker) =>
      if r.queue == [] || worker in r.active then w
      else World(Taken(r, worker), w.queued, w.taken + [r.queue[0]])
    case ReleaseStep(worker) => if worker !in r.active then w else w.(runner := Released(r, worker))
  }

  function Run(w: World, steps: seq<Step>): World {
    if steps == [] then w else Next(Run(w, steps[..|steps| - 1]), steps[|steps| - 1])
  }

  function Fresh(capacity: int): World { World(Runner(capacity, [], {}, map[]), [], []) }

  ghost predicate NoDuplicates(s: seq<int>) { forall i, j :: 0 <= i < j < |s| ==> s[i] != s[j] }

  ghost predicate InFlight(r: Runner, id: int) { exists a :: a in r.active && r.active[a] == id }

  /** `pending` is exactly the queued and the in-flight ids, all of them different. */
  ghost predicate Consistent(r: Runner) {
    && NoDuplicates(r.queue)
    && (0 < r.capacity ==> |r.queue| <= r.capacity)
    && (forall id :: id in r.pending <==> id in r.queue || InFlight(r, id))
    && (forall a :: a in r.active ==> r.active[a] !in r.queue)
    && (forall a, b :: a in r.active && b in r.active && a != b ==> r.active[a] != r.active[b])
  }

  lemma ScheduleKeeps(r: Runner, id: int)
    requires Consistent(r)
    ensures Consistent(Scheduled(r, id).0)
  {
  }

  lemma TakeKeeps(r: Runner, worker: int)
    requires Consistent(r) && r.queue != [] && worker !in r.active
    ensures Consistent(Taken(r, worker))
  {
    var r' := Taken(r, worker);
    var id := r.queue[0];
    assert r.queue == [id] + r'.queue;
    forall i ensures InFlight(r', i) <==> InFlight(r, i) || i == id {
      if InFlight(r, i) {
        var a :| a in r.active && r.active[a] == i;
        assert r'.active[a] == i;
      }
      assert r'.active[worker] == id;
    }
  }

  lemma ReleaseKeeps(r: Runner, worker: int)
    requires Consistent(r) && worker in r.active
    ensures Consistent(Released(r, worker))
  {
    var r' := Released(r, worker);
    var id := r.active[worker];
    assert InFlight(r, id);
    forall i ensures InFlight(r', i) <==> InFlight(r, i) && i != id {
      if InFlight(r, i) && i != id {
        var a :| a in r.active && r.active[a] == i;
        assert a in r'.active && r'.active[a] == i;
      }
      if InFlight(r', i) {
        var a :| a in r'.active && r'.active[a] == i;
        assert r.active[a] == i;
      }
    }
  }

  lemma StepKeeps(w: World, step: Step)
    requires Consistent(w.runner) && w.queued == w.taken + w.runner.queue
    ensures var w' := Next(w, step);
            Consistent(w'.runner) && w'.runner.capacity == w.runner.capacity && w'.queued == w'.taken + w'.runner.queue
  {
    match step
    case ScheduleStep(id) => ScheduleKeeps(w.runner, id);
    case TakeStep(worker) =>
      if w.runner.queue != [] && worker !in w.runner.active {
        TakeKeeps(w.runner, worker);
      }
    case ReleaseStep(worker) =>
      if worker in w.runner.active {
        ReleaseKeeps(w.runner, worker);
      }
  }

  /** A session is accepted if and only if it is pending or the queue has room; accepted, it is pending, and it is
      queued at the end unless it was pending before. */
  lemma ScheduleDecided(r: Runner, id: int)
    ensures var (r', accepted) := Scheduled(r, id);
            var room := r.capacity <= 0 || |r.queue| < r.capacity;
            && (accepted <==> id in r.pending || room) && (accepted <==> id in r'.pending)
            && r'.active == r.active && r'.pending == (if accepted then r.pending + {id} else r.pending)
            && r'.queue == (if accepted && id !in r.pending then r.queue + [id] else r.queue)
  {
    assert id in r.pending ==> r.pending + {id} == r.pending;
  }

  /** In every run: the queue stays within its capacity and without duplicates, `pending` is queued plus
      in flight, no two workers hold one session, and ids leave in the order they came, none lost. */
  lemma {:induction false} RunnerOverRuns(capacity: int, steps: seq<Step>)
    ensures var w := Run(Fresh(capacity), steps);
            Consistent(w.runner) && w.runner.capacity == capacity && w.queued == w.taken + w.runner.queue
  {
    if steps == [] {
    } else {
      RunnerOverRuns(capacity, steps[..|steps| - 1]);
      StepKeeps(Run(Fresh(capacity), steps[..|steps| - 1]), steps[|steps| - 1]);
    }
  }
}
