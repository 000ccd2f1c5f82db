/**
  The sliding-window scheduler of scripts/register_and_import.py and its use of the lease pool.
*/
module BatchScheduler {
  import opened Common
  import LeasePool

  datatype Policy = Policy(abortOnFailure: bool, maxConsecutive: nat)

  /** One finished attempt. */
  datatype Completion = Completion(index: nat, ok: bool)

  /** The loop variables: the next index to start, the futures not yet popped, the counters. */
  datatype Window = Window(next: nat, pending: set<nat>, successes: nat, failures: nat, consecutive: nat, aborted: bool)

  function StartNext(w: Window): Window {
    w.(next := w.next + 1, pending := w.pending + {w.next})
  }

  function Fill(w: Window, count: nat, workers: nat): Window
    decreases count + 1 - w.next
  {
    if w.next <= count && |w.pending| < workers then Fill(StartNext(w), count, workers) else w
  }

  function Opening(count: nat, workers: nat): Window {
    Fill(Window(1, {}, 0, 0, 0, false), count, workers)
  }

  /** Popping one finished attempt, tripping the breaker, and refilling the window. */
  function Complete(policy: Policy, count: nat, w: Window, c: Completion): Window {
    var popped := w.(
      pending := w.pending - {c.index},
      successes := if c.ok then w.successes + 1 else w.successes,
      failures := if c.ok then w.failures else w.failures + 1,
      consecutive := if c.ok then 0 else w.consecutive + 1);
    var trips := (policy.abortOnFailure && !c.ok) || popped.consecutive >= policy.maxConsecutive;
    var checked := popped.(aborted := popped.aborted || trips);
    if !checked.aborted && checked.next <= count then StartNext(checked) else checked
  }

  /** The window after the completions `cs`, in the order they are popped. */
  function After(policy: Policy, count: nat, workers: nat, cs: seq<Completion>): Window
    decreases |cs|
  {
    if cs == [] then Opening(count, workers)
    else Complete(policy, count, After(policy, count, workers, cs[..|cs| - 1]), cs[|cs| - 1])
  }

  /** Every completion pops an attempt that is pending at that moment. */
  predicate Pops(policy: Policy, count: nat, workers: nat, cs: seq<Completion>) {
    forall j :: 0 <= j < |cs| ==> cs[j].index in After(policy, count, workers, cs[..j]).pending
  }

  function CountOk(cs: seq<Completion>): nat
    decreases |cs|
  {
    if cs == [] then 0 else CountOk(cs[..|cs| - 1]) + (if cs[|cs| - 1].ok then 1 else 0)
  }

  /** The failures since the last success. */
  function FailureStreak(cs: seq<Completion>): nat
    decreases |cs|
  {
    if cs == [] || cs[|cs| - 1].ok then 0 else FailureStreak(cs[..|cs| - 1]) + 1
  }

  predicate TripsAt(policy: Policy, cs: seq<Completion>, j: nat)
    requires 0 < j <= |cs|
  {
    (policy.abortOnFailure && !cs[j - 1].ok) || FailureStreak(cs[..j]) >= policy.maxConsecutive
  }

  ghost predicate Tripped(policy: Policy, cs: seq<Completion>) {
    exists j :: 0 < j <= |cs| && TripsAt(policy, cs, j)
  }

  predicate Balanced(w: Window, count: nat, workers: nat) {
    && 1 <= w.next <= count + 1
    && (forall i :: i in w.pending ==> 1 <= i < w.next)
    && |w.pending| <= workers
    && w.successes + w.failures + |w.pending| == w.next - 1
    && (!w.aborted && w.next <= count ==> |w.pending| == workers)
  }

  lemma {:induction false} FillBalances(w: Window, count: nat, workers: nat)
    requires 1 <= w.next <= count + 1 && !w.aborted
    requires forall i :: i in w.pending ==> 1 <= i < w.next
    requires |w.pending| <= workers && w.successes + w.failures + |w.pending| == w.next - 1
    ensures Balanced(Fill(w, count, workers), count, workers)
    ensures var filled := Fill(w, count, workers); filled == w.(next := filled.next, pending := filled.pending)
    decreases count + 1 - w.next
  {
    if w.next <= count && |w.pending| < workers {
      FillBalances(StartNext(w), count, workers);
    }
  }

  lemma CompleteBalances(policy: Policy, count: nat, workers: nat, w: Window, c: Completion)
    requires Balanced(w, count, workers) && c.index in w.pending
    ensures Balanced(Complete(policy, count, w, c), count, workers)
  {
    assert |w.pending - {c.index}| == |w.pending| - 1;
  }

  lemma TrippedExtends(policy: Policy, cs: seq<Completion>)
    requires cs != []
    ensures Tripped(policy, cs) <==> Tripped(policy, cs[..|cs| - 1]) || TripsAt(policy, cs, |cs|)
  {
    var before := cs[..|cs| - 1];
    forall j | 0 < j <= |before|
      ensures TripsAt(policy, cs, j) == TripsAt(policy, before, j)
    {
      assert before[..j] == cs[..j];
    }
    assert cs[..|cs|] == cs;
    if Tripped(policy, before) {
      var j :| 0 < j <= |before| && TripsAt(policy, before, j);
      assert TripsAt(policy, cs, j);
    }
    if Tripped(policy, cs) && !TripsAt(policy, cs, |cs|) {
      var j :| 0 < j <= |cs| && TripsAt(policy, cs, j);
      assert TripsAt(policy, before, j);
    }
  }

  /**
    Accounting for every completion order: the window never exceeds the workers, the counters
    are what was popped, and the breaker is tripped exactly when some prefix of the completions
    ended in too many failures (or in any failure, under the abort policy).
  */
  lemma {:induction false} Accounting(policy: Policy, count: nat, workers: nat, cs: seq<Completion>)
    requires Pops(policy, count, workers, cs)
    ensures var w := After(policy, count, workers, cs);
            && Balanced(w, count, workers)
            && w.successes == CountOk(cs) && w.successes + w.failures == |cs|
            && w.consecutive == FailureStreak(cs)
            && (w.aborted <==> Tripped(policy, cs))
    decreases |cs|
  {
    if cs == [] {
      FillBalances(Window(1, {}, 0, 0, 0, false), count, workers);
    } else {
      var before := cs[..|cs| - 1];
      assert Pops(policy, count, workers, before) by {
        forall j | 0 <= j < |before|
          ensures before[j].index in After(policy, count, workers, before[..j]).pending
        {
          assert before[..j] == cs[..j];
        }
      }
      Accounting(policy, count, workers, before);
      CompleteBalances(policy, count, workers, After(policy, count, workers, before), cs[|cs| - 1]);
      TrippedExtends(policy, cs);
      assert cs[..|cs|] == cs;
    }
  }

  /** After the breaker has tripped nothing is started, however the rest completes. */
  lemma {:induction false} NothingStartsAfterTrip(policy: Policy, count: nat, workers: nat, cs: seq<Completion>, k: nat)
    requires Pops(policy, count, workers, cs) && k <= |cs| && Tripped(policy, cs[..k])
    ensures After(policy, count, workers, cs).next == After(policy, count, workers, cs[..k]).next
    ensures After(policy, count, workers, cs).aborted
    decreases |cs|
  {
    if k == |cs| {
      assert cs[..k] == cs;
      Accounting(policy, count, workers, cs);
    } else {
      var before := cs[..|cs| - 1];
      assert before[..k] == cs[..k];
      assert forall j :: 0 <= j < |before| ==> before[..j] == cs[..j];
      NothingStartsAfterTrip(policy, count, workers, before, k);
    }
  }

  /** A run that drains finishes exactly `count` attempts unless the breaker tripped. */
  lemma DrainedRun(policy: Policy, count: nat, workers: nat, cs: seq<Completion>)
    requires Pops(policy, count, workers, cs) && workers >= 1
    requires After(policy, count, workers, cs).pending == {}
    ensures |cs| == After(policy, count, workers, cs).next - 1 <= count
    ensures !Tripped(policy, cs) ==> |cs| == count
  {
    Accounting(policy, count, workers, cs);
  }

  /** What is still to be started or popped. */
  function Remaining(w: Window, count: nat): int {
    count + 1 - w.next + |w.pending|
  }

  lemma RemainingShrinks(policy: Policy, count: nat, workers: nat, w: Window, c: Completion)
    requires Balanced(w, count, workers) && c.index in w.pending
    ensures Remaining(Complete(policy, count, w, c), count) == Remaining(w, count) - 1
  {
    assert |w.pending - {c.index}| == |w.pending| - 1;
  }

  lemma PopsExtends(policy: Policy, count: nat, workers: nat, cs: seq<Completion>, c: Completion)
    requires Pops(policy, count, workers, cs) && c.index in After(policy, count, workers, cs).pending
    ensures Pops(policy, count, workers, cs + [c])
    ensures After(policy, count, workers, cs + [c]) == Complete(policy, count, After(policy, count, workers, cs), c)
  {
    assert (cs + [c])[..|cs|] == cs;
    forall j | 0 <= j < |cs| + 1
      ensures (cs + [c])[j].index in After(policy, count, workers, (cs + [c])[..j]).pending
    {
      if j < |cs| {
        assert (cs + [c])[..j] == cs[..j];
      }
    }
  }

  datatype Report = Report(registered: nat, failed: nat, attempts: nat, unstarted: Option<nat>)

  /** The window is the one after these completions, and each ended as its attempt does. */
  ghost predicate InStep(
    policy: Policy, count: nat, workers: nat, outcome: nat -> bool, w: Window, cs: seq<Completion>)
  {
    && w == After(policy, count, workers, cs) && Pops(policy, count, workers, cs) && Balanced(w, count, workers)
    && forall j :: 0 <= j < |cs| ==> cs[j].ok == outcome(cs[j].index)
  }

  lemma OneMorePop(
    policy: Policy, count: nat, workers: nat, outcome: nat -> bool, w: Window, cs: seq<Completion>, index: nat)
    requires InStep(policy, count, workers, outcome, w, cs) && index in w.pending
    ensures var c := Completion(index, outcome(index));
            && InStep(policy, count, workers, outcome, Complete(policy, count, w, c), cs + [c])
            && Remaining(Complete(policy, count, w, c), count) == Remaining(w, count) - 1
            && w.pending - {index} <= Complete(policy, count, w, c).pending
  {
    var c := Completion(index, outcome(index));
    PopsExtends(policy, count, workers, cs, c);
    CompleteBalances(policy, count, workers, w, c);
    RemainingShrinks(policy, count, workers, w, c);
  }

  /** Pops all finished futures of one `wait`, in any order, refilling the window after each. */
  method PopFinished(
    policy: Policy, count: nat, workers: nat, outcome: nat -> bool, w: Window, finished: set<nat>,
    ghost cs: seq<Completion>)
    returns (w': Window, ghost cs': seq<Completion>)
    requires InStep(policy, count, workers, outcome, w, cs) && finished <= w.pending
    ensures InStep(policy, count, workers, outcome, w', cs')
    ensures Remaining(w', count) == Remaining(w, count) - |finished|
  {
    w', cs' := w, cs;
    var done := finished;
    while done != {}
      invariant InStep(policy, count, workers, outcome, w', cs') && done <= w'.pending
      invariant Remaining(w', count) == Remaining(w, count) - |finished| + |done|
      decreases |done|
    {
      var index :| index in done;
      OneMorePop(policy, count, workers, outcome, w', cs', index);
      done := done - {index};
      w', cs' := Complete(policy, count, w', Completion(index, outcome(index))),
        cs' + [Completion(index, outcome(index))];
    }
  }

  /** The worker-window loop: `wait` hands back any non-empty set of finished futures, and attempt i
      succeeds when `outcome(i)` says so. */
  method RunBatch(policy: Policy, count: nat, workers: nat, outcome: nat -> bool)
    returns (report: Report, ghost cs: seq<Completion>)
    requires count >= 1 && workers >= 1 && policy.maxConsecutive >= 1
    ensures Pops(policy, count, workers, cs) && After(policy, count, workers, cs).pending == {}
    ensures forall j :: 0 <= j < |cs| ==> cs[j].ok == outcome(cs[j].index)
    ensures report.registered == CountOk(cs)
    ensures report.registered + report.failed == report.attempts == |cs| <= count
    ensures Tripped(policy, cs) <==> report.unstarted.Some?
    ensures report.unstarted.Some? ==> report.unstarted.value == count - report.attempts
    ensures report.unstarted.None? ==> report.attempts == count
  {
    cs := [];
    var w := Window(1, {}, 0, 0, 0, false);
    FillBalances(w, count, workers);
    while w.next <= count && |w.pending| < workers
      invariant Fill(w, count, workers) == Opening(count, workers)
      decreases count + 1 - w.next
    {
      w := StartNext(w);
    }
    while w.pending != {}
      invariant InStep(policy, count, workers, outcome, w, cs)
      decreases Remaining(w, count)
    {
      var finished: set<nat> :| finished != {} && finished <= w.pending;
      w, cs := PopFinished(policy, count, workers, outcome, w, finished, cs);
    }
    Accounting(policy, count, workers, cs);
    DrainedRun(policy, count, workers, cs);
    report := Report(w.successes, w.failures, w.next - 1, if w.aborted then Some(count - (w.next - 1)) else None);
  }

  // ---------------------------------------------------------------- leases of running attempts

  /** The pool's counters together with the attempts the executor is running and the leases they hold. */
  datatype Batch = Batch(active: LeasePool.Active, running: set<nat>, leases: map<nat, string>)

  /**
    `execute_attempt`: begins on a worker, acquires once, and releases in its finally block.  A scan
    starts at the pool's cursor or, with a rotation file, wherever other processes have moved it.
  */
  datatype Action =
    | Begin(attempt: nat) | Acquire(attempt: nat, start: nat) | AcquireFails(attempt: nat) | End(attempt: nat)

  predicate Enabled(specs: seq<LeasePool.Spec>, workers: nat, b: Batch, a: Action) {
    match a
    case Begin(x) => x !in b.running && |b.running| < workers
    case Acquire(x, start) => x in b.running && x !in b.leases && start < |specs|
    case AcquireFails(x) => x in b.running && x !in b.leases   // the rotation file is unusable
    case End(x) => x in b.running
  }

  /** The effect of an action, or the exception the pool raises. */
  function Do(specs: seq<LeasePool.Spec>, workers: nat, b: Batch, a: Action): (r: Result<Batch, LeasePool.PoolError>)
    requires LeasePool.Known(specs, b.active) && Enabled(specs, workers, b, a)
    ensures r.Ok? ==> LeasePool.Known(specs, r.value.active)
  {
    match a
    case Begin(x) => Ok(b.(running := b.running + {x}))
    case AcquireFails(x) => Ok(b)
    case Acquire(x, start) =>
      var o := LeasePool.FirstFree(specs, b.active, start, 0);
      if o == |specs| then Err(LeasePool.NoLease)
      else
        var ref := specs[LeasePool.Wrap(start + o, |specs|)].ref;
        Ok(Batch(LeasePool.Take(b.active, ref), b.running, b.leases[x := ref]))
    case End(x) =>
      if x !in b.leases then Ok(b.(running := b.running - {x}))
      else
        var ref := b.leases[x];
        if ref !in b.active || b.active[ref] < 1 then Err(LeasePool.InvalidRelease(ref))
        else Ok(Batch(b.active[ref := b.active[ref] - 1], b.running - {x}, b.leases - {x}))
  }

  function Holders(leases: map<nat, string>, ref: string): set<nat> {
    set x | x in leases && leases[x] == ref
  }

  /** Every counter is the number of leases held on its node, within the node's limit. */
  predicate CountersMatch(specs: seq<LeasePool.Spec>, active: LeasePool.Active, leases: map<nat, string>) {
    && LeasePool.Known(specs, active)
    && LeasePool.Outstanding(specs, active) == |leases|
    && forall k :: 0 <= k < |specs| ==> active[specs[k].ref] == |Holders(leases, specs[k].ref)| <= specs[k].limit
  }

  predicate HasRef(specs: seq<LeasePool.Spec>, ref: string) {
    exists k :: 0 <= k < |specs| && specs[k].ref == ref
  }

  ghost predicate BatchInv(specs: seq<LeasePool.Spec>, workers: nat, b: Batch) {
    && CountersMatch(specs, b.active, b.leases)
    && Attributed(specs, b.leases) && b.leases.Keys <= b.running && |b.running| <= workers
  }

  /** Every lease is of a node of the pool. */
  ghost predicate Attributed(specs: seq<LeasePool.Spec>, leases: map<nat, string>) {
    forall x :: x in leases ==> HasRef(specs, leases[x])
  }

  lemma AttributedAdds(specs: seq<LeasePool.Spec>, leases: map<nat, string>, x: nat, k: nat)
    requires Attributed(specs, leases) && k < |specs|
    ensures Attributed(specs, leases[x := specs[k].ref])
  {
    assert HasRef(specs, specs[k].ref);
  }

  lemma HoldersAdd(leases: map<nat, string>, x: nat, ref: string, other: string)
    requires x !in leases
    ensures |Holders(leases[x := ref], other)| == |Holders(leases, other)| + (if other == ref then 1 else 0)
  {
    if other == ref {
      assert Holders(leases[x := ref], other) == Holders(leases, other) + {x};
    } else {
      assert Holders(leases[x := ref], other) == Holders(leases, other);
    }
  }

  lemma HoldersDrop(leases: map<nat, string>, x: nat, other: string)
    requires x in leases
    ensures |Holders(leases - {x}, other)| == |Holders(leases, other)| - (if other == leases[x] then 1 else 0)
  {
    if other == leases[x] {
      assert Holders(leases, other) == Holders(leases - {x}, other) + {x};
    } else {
      assert Holders(leases - {x}, other) == Holders(leases, other);
    }
  }

  lemma SubsetCardinality(a: set<nat>, b: set<nat>)
    requires a <= b
    ensures |a| <= |b|
    ensures |a| == |b| ==> a == b
  {
    assert b == a + (b - a);
    assert a !! (b - a);
  }

  /** The pigeonhole: a running attempt without a lease finds a node with one to spare, from any cursor. */
  lemma LeaseAvailable(specs: seq<LeasePool.Spec>, workers: nat, b: Batch, x: nat, start: nat)
    requires workers <= LeasePool.Capacity(specs) && BatchInv(specs, workers, b)
    requires x in b.running && x !in b.leases && start < |specs|
    ensures LeasePool.FirstFree(specs, b.active, start, 0) < |specs|
  {
    SubsetCardinality(b.leases.Keys, b.running);
    assert |b.leases| == |b.leases.Keys|;
    var k := LeasePool.FreeNodeExists(specs, b.active);
    LeasePool.SomeFreeIsFound(specs, b.active, start, k);
  }

  lemma TakeCounts(specs: seq<LeasePool.Spec>, active: LeasePool.Active, leases: map<nat, string>, x: nat, granted: nat)
    requires LeasePool.UniqueRefs(specs) && CountersMatch(specs, active, leases) && x !in leases
    requires granted < |specs| && LeasePool.Free(specs, active, granted)
    ensures CountersMatch(specs, LeasePool.Take(active, specs[granted].ref), leases[x := specs[granted].ref])
  {
    var ref := specs[granted].ref;
    LeasePool.OutstandingChanges(specs, active, granted, active[ref] + 1);
    var leases' := leases[x := ref];
    assert leases'.Keys == leases.Keys + {x};
    assert |leases'| == |leases'.Keys| == |leases.Keys| + 1;
    forall k | 0 <= k < |specs|
      ensures LeasePool.Take(active, ref)[specs[k].ref] == |Holders(leases', specs[k].ref)| <= specs[k].limit
    {
      HoldersAdd(leases, x, ref, specs[k].ref);
      if specs[k].ref == ref {
        assert k == granted;
      }
    }
  }

  lemma DropCounts(specs: seq<LeasePool.Spec>, active: LeasePool.Active, leases: map<nat, string>, x: nat, held: nat)
    requires LeasePool.UniqueRefs(specs) && CountersMatch(specs, active, leases)
    requires x in leases && held < |specs| && specs[held].ref == leases[x]
    ensures active[leases[x]] >= 1
    ensures CountersMatch(specs, active[leases[x] := active[leases[x]] - 1], leases - {x})
  {
    var ref := leases[x];
    assert active[specs[held].ref] == |Holders(leases, specs[held].ref)|;
    assert x in Holders(leases, ref);
    LeasePool.OutstandingChanges(specs, active, held, active[ref] - 1);
    var leases' := leases - {x};
    assert leases'.Keys == leases.Keys - {x};
    assert |leases'| == |leases'.Keys| == |leases.Keys| - 1;
    forall k | 0 <= k < |specs|
      ensures active[ref := active[ref] - 1][specs[k].ref] == |Holders(leases', specs[k].ref)| <= specs[k].limit
    {
      HoldersDrop(leases, x, specs[k].ref);
    }
  }

  function Granted(b: Batch, x: nat, ref: string): Batch
    requires ref in b.active
  {
    Batch(LeasePool.Take(b.active, ref), b.running, b.leases[x := ref])
  }

  lemma AcquireGrants(specs: seq<LeasePool.Spec>, workers: nat, b: Batch, x: nat, start: nat) returns (k: nat)
    requires LeasePool.Known(specs, b.active) && Enabled(specs, workers, b, Acquire(x, start))
    requires LeasePool.FirstFree(specs, b.active, start, 0) < |specs|
    ensures k < |specs| && LeasePool.Free(specs, b.active, k)
    ensures Do(specs, workers, b, Acquire(x, start)) == Ok(Granted(b, x, specs[k].ref))
  {
    var o := LeasePool.FirstFree(specs, b.active, start, 0);
    assert LeasePool.FreeAt(specs, b.active, start, o);
    k := LeasePool.Wrap(start + o, |specs|);
  }

  lemma AcquireKeeps(specs: seq<LeasePool.Spec>, workers: nat, b: Batch, x: nat, start: nat)
    requires LeasePool.UniqueRefs(specs) && workers <= LeasePool.Capacity(specs) && BatchInv(specs, workers, b)
    requires Enabled(specs, workers, b, Acquire(x, start))
    ensures var r := Do(specs, workers, b, Acquire(x, start)); r.Ok? && BatchInv(specs, workers, r.value)
  {
    LeaseAvailable(specs, workers, b, x, start);
    var k := AcquireGrants(specs, workers, b, x, start);
    TakeCounts(specs, b.active, b.leases, x, k);
    AttributedAdds(specs, b.leases, x, k);
    assert Granted(b, x, specs[k].ref).leases.Keys == b.leases.Keys + {x};
  }

  lemma EndKeeps(specs: seq<LeasePool.Spec>, workers: nat, b: Batch, x: nat)
    requires LeasePool.UniqueRefs(specs) && BatchInv(specs, workers, b) && x in b.running
    ensures var r := Do(specs, workers, b, End(x)); r.Ok? && BatchInv(specs, workers, r.value)
  {
    SubsetCardinality(b.running - {x}, b.running);
    if x in b.leases {
      assert HasRef(specs, b.leases[x]);
      var held :| 0 <= held < |specs| && specs[held].ref == b.leases[x];
      DropCounts(specs, b.active, b.leases, x, held);
      assert Attributed(specs, b.leases - {x});
    }
  }

  /** A schedule of actions, each enabled in the batch it is taken in. */
  predicate Schedulable(specs: seq<LeasePool.Spec>, workers: nat, b: Batch, actions: seq<Action>)
    requires LeasePool.Known(specs, b.active)
    decreases |actions|
  {
    actions == [] ||
    (&& Enabled(specs, workers, b, actions[0])
     && match Do(specs, workers, b, actions[0])
        case Err(_) => true
        case Ok(b') => Schedulable(specs, workers, b', actions[1..]))
  }

  /** The batch a schedule reaches, or the first exception. */
  function Play(
      specs: seq<LeasePool.Spec>, workers: nat, b: Batch, actions: seq<Action>): Result<Batch, LeasePool.PoolError>
    requires LeasePool.Known(specs, b.active) && Schedulable(specs, workers, b, actions)
    decreases |actions|
  {
    if actions == [] then Ok(b)
    else
      match Do(specs, workers, b, actions[0])
      case Err(e) => Err(e)
      case Ok(b') => Play(specs, workers, b', actions[1..])
  }

  lemma {:induction false} ScheduleKeeps(specs: seq<LeasePool.Spec>, workers: nat, b: Batch, actions: seq<Action>)
    requires LeasePool.UniqueRefs(specs) && workers <= LeasePool.Capacity(specs)
    requires BatchInv(specs, workers, b) && Schedulable(specs, workers, b, actions)
    ensures var r := Play(specs, workers, b, actions); r.Ok? && BatchInv(specs, workers, r.value)
    decreases |actions|
  {
    if actions != [] {
      match actions[0] {
        case Begin(x) =>
          assert |b.running + {x}| == |b.running| + 1;
        case Acquire(x, start) => AcquireKeeps(specs, workers, b, x, start);
        case AcquireFails(x) =>
        case End(x) => EndKeeps(specs, workers, b, x);
      }
      ScheduleKeeps(specs, workers, Do(specs, workers, b, actions[0]).value, actions[1..]);
    }
  }

  /** The batch before its first attempt, over the counters `ProxyPool.__init__` makes. */
  function FreshBatch(specs: seq<LeasePool.Spec>): (b: Batch)
    ensures LeasePool.Known(specs, b.active)
  {
    Batch(map spec | spec in specs :: spec.ref := 0, {}, map[])
  }

  lemma FreshBatchInv(specs: seq<LeasePool.Spec>, workers: nat)
    ensures BatchInv(specs, workers, FreshBatch(specs))
  {
    NothingOutstanding(specs, FreshBatch(specs).active);
    assert forall ref :: Holders(map[], ref) == {};
  }

  /**
    With at most as many workers as leases, no schedule of attempts on a fresh pool makes an acquire
    or a release raise, wherever each scan starts: the cursor may be in memory or in a file that
    other processes move.  The counters always are the leases held, within every node's limit.
  */
  lemma LeasesNeverRunOut(specs: seq<LeasePool.Spec>, workers: nat, actions: seq<Action>)
    requires LeasePool.UniqueRefs(specs) && workers <= LeasePool.Capacity(specs)
    requires Schedulable(specs, workers, FreshBatch(specs), actions)
    ensures var r := Play(specs, workers, FreshBatch(specs), actions);
            r.Ok? && CountersMatch(specs, r.value.active, r.value.leases) && r.value.leases.Keys <= r.value.running
  {
    FreshBatchInv(specs, workers);
    ScheduleKeeps(specs, workers, FreshBatch(specs), actions);
  }

  lemma {:induction false} NothingOutstanding(specs: seq<LeasePool.Spec>, active: LeasePool.Active)
    requires LeasePool.Known(specs, active)
    requires forall ref :: ref in active ==> active[ref] == 0
    ensures LeasePool.Outstanding(specs, active) == 0
    decreases |specs|
  {
    if specs != [] {
      LeasePool.KnownTail(specs, active);
      NothingOutstanding(specs[1..], active);
    }
  }
}
