/**
  The lease pool of xconsole_client/proxy_pool.py: round-robin grants with a limit per node,
  and an optional rotation file that carries the cursor between processes.
*/
module LeasePool {
  import opened Common

  datatype Spec = Spec(ref: string, limit: nat)

  datatype PoolError = NoNodes | NoLease | InvalidRelease(ref: string) | InvalidState | StateUnavailable

  /** The rotation file: absent, unusable, or naming the next node. */
  datatype RotationState = Missing | Malformed | NextRef(ref: string)

  type Active = map<string, int>

  predicate UniqueRefs(specs: seq<Spec>) {
    forall a, b :: 0 <= a < b < |specs| ==> specs[a].ref != specs[b].ref
  }

  predicate Known(specs: seq<Spec>, active: Active) {
    forall k :: 0 <= k < |specs| ==> specs[k].ref in active
  }

  predicate Free(specs: seq<Spec>, active: Active, k: nat)
    requires Known(specs, active) && k < |specs|
  {
    active[specs[k].ref] < specs[k].limit
  }

  // ---------------------------------------------------------------- the scan

  /** `(cursor + offset) % n` for a cursor and an offset below n. */
  function Wrap(x: nat, n: nat): (k: nat)
    requires x < 2 * n
    ensures k < n
  {
    if x < n then x else x - n
  }

  lemma WrapIsModulo(x: nat, n: nat)
    requires x < 2 * n
    ensures Wrap(x, n) == x % n
  {
    if x >= n {
      assert x == n * 1 + (x - n);
    }
  }

  predicate FreeAt(specs: seq<Spec>, active: Active, cursor: nat, offset: nat)
    requires Known(specs, active) && cursor < |specs| && offset < |specs|
  {
    Free(specs, active, Wrap(cursor + offset, |specs|))
  }

  /** The first offset at or after `o` whose node has a lease left, or n. */
  function FirstFree(specs: seq<Spec>, active: Active, cursor: nat, o: nat): (r: nat)
    requires Known(specs, active) && cursor < |specs| && o <= |specs|
    ensures o <= r <= |specs|
    ensures forall j :: o <= j < r ==> !FreeAt(specs, active, cursor, j)
    ensures r < |specs| ==> FreeAt(specs, active, cursor, r)
    decreases |specs| - o
  {
    if o == |specs| || FreeAt(specs, active, cursor, o) then o
    else FirstFree(specs, active, cursor, o + 1)
  }

  lemma SomeFreeIsFound(specs: seq<Spec>, active: Active, cursor: nat, k: nat)
    requires Known(specs, active) && cursor < |specs| && k < |specs| && Free(specs, active, k)
    ensures FirstFree(specs, active, cursor, 0) < |specs|
  {
    var o := if k >= cursor then k - cursor else k + |specs| - cursor;
    assert FreeAt(specs, active, cursor, o);
  }

  lemma NoneFree(specs: seq<Spec>, active: Active, cursor: nat)
    requires Known(specs, active) && cursor < |specs| && FirstFree(specs, active, cursor, 0) == |specs|
    ensures forall k :: 0 <= k < |specs| ==> !Free(specs, active, k)
  {
    forall k | 0 <= k < |specs| ensures !Free(specs, active, k) {
      if Free(specs, active, k) {
        SomeFreeIsFound(specs, active, cursor, k);
      }
    }
  }

  function Take(active: Active, ref: string): Active
    requires ref in active
  {
    active[ref := active[ref] + 1]
  }

  // ---------------------------------------------------------------- capacity

  function Capacity(specs: seq<Spec>): nat {
    if specs == [] then 0 else specs[0].limit + Capacity(specs[1..])
  }

  function Outstanding(specs: seq<Spec>, active: Active): int
    requires Known(specs, active)
  {
    if specs == [] then 0
    else
      assert Known(specs[1..], active) by { KnownTail(specs, active); }
      active[specs[0].ref] + Outstanding(specs[1..], active)
  }

  lemma KnownTail(specs: seq<Spec>, active: Active)
    requires specs != [] && Known(specs, active)
    ensures Known(specs[1..], active)
  {
    assert forall k :: 0 <= k < |specs[1..]| ==> specs[1..][k] == specs[k + 1];
  }

  /** Pigeonhole: fewer leases out than the pool holds means some node has one left. */
  lemma {:induction false} FreeNodeExists(specs: seq<Spec>, active: Active) returns (k: nat)
    requires Known(specs, active) && Outstanding(specs, active) < Capacity(specs)
    ensures k < |specs| && Free(specs, active, k)
    decreases |specs|
  {
    if active[specs[0].ref] < specs[0].limit {
      k := 0;
    } else {
      KnownTail(specs, active);
      k := FreeNodeExists(specs[1..], active);
      k := k + 1;
    }
  }

  predicate AllSaturated(specs: seq<Spec>, active: Active)
    requires Known(specs, active)
  {
    forall k :: 0 <= k < |specs| ==> !Free(specs, active, k)
  }

  lemma SaturatedTail(specs: seq<Spec>, active: Active)
    requires specs != [] && Known(specs, active)
    ensures Known(specs[1..], active)
    ensures AllSaturated(specs, active) <==> !Free(specs, active, 0) && AllSaturated(specs[1..], active)
  {
    forall k | 0 <= k < |specs| - 1 ensures Free(specs[1..], active, k) == Free(specs, active, k + 1) {
      assert specs[1..][k] == specs[k + 1];
    }
    if !Free(specs, active, 0) && AllSaturated(specs[1..], active) {
      forall k | 0 <= k < |specs| ensures !Free(specs, active, k) {
        if k > 0 {
          assert !Free(specs[1..], active, k - 1);
        }
      }
    }
  }

  /** The capacity is exact: a pool within its limits has that many leases out when no node has one left. */
  lemma {:induction false} FullExactly(specs: seq<Spec>, active: Active)
    requires Known(specs, active) && forall k :: 0 <= k < |specs| ==> active[specs[k].ref] <= specs[k].limit
    ensures Outstanding(specs, active) <= Capacity(specs)
    ensures Outstanding(specs, active) == Capacity(specs) <==> AllSaturated(specs, active)
    decreases |specs|
  {
    if specs != [] {
      SaturatedTail(specs, active);
      FullExactly(specs[1..], active);
    }
  }

  lemma {:induction false} OutstandingUnaffected(specs: seq<Spec>, active: Active, ref: string, n: int)
    requires Known(specs, active) && ref in active
    requires forall k :: 0 <= k < |specs| ==> specs[k].ref != ref
    ensures Outstanding(specs, active[ref := n]) == Outstanding(specs, active)
    decreases |specs|
  {
    if specs != [] {
      KnownTail(specs, active);
      OutstandingUnaffected(specs[1..], active, ref, n);
    }
  }

  /** Changing one node's count changes the total by as much. */
  lemma {:induction false} OutstandingChanges(specs: seq<Spec>, active: Active, k: nat, n: int)
    requires UniqueRefs(specs) && Known(specs, active) && k < |specs|
    ensures Outstanding(specs, active[specs[k].ref := n]) == Outstanding(specs, active) + n - active[specs[k].ref]
    decreases |specs|
  {
    KnownTail(specs, active);
    if k == 0 {
      OutstandingUnaffected(specs[1..], active, specs[0].ref, n);
    } else {
      OutstandingChanges(specs[1..], active, k - 1, n);
    }
  }

  // ---------------------------------------------------------------- the rotation file

  function IndexOfRef(specs: seq<Spec>, ref: string): (k: nat)
    ensures k <= |specs|
    ensures k < |specs| ==> specs[k].ref == ref
    ensures forall j :: 0 <= j < k ==> specs[j].ref != ref
  {
    if specs == [] || specs[0].ref == ref then 0 else 1 + IndexOfRef(specs[1..], ref)
  }

  /** `_read_rotation_cursor`: an unknown or absent name starts over at 0. */
  function ReadCursor(specs: seq<Spec>, state: RotationState): (r: Result<nat, PoolError>)
    ensures r.Ok? && specs != [] ==> r.value < |specs|
  {
    match state
    case Missing => Ok(0)
    case Malformed => Err(InvalidState)
    case NextRef(ref) =>
      var k := IndexOfRef(specs, ref);
      if k < |specs| then Ok(k) else Ok(0)
  }

  function WrittenCursor(specs: seq<Spec>, cursor: nat): RotationState
    requires specs != []
  {
    NextRef(specs[cursor % |specs|].ref)
  }

  /** A rotation starts at node 0 when there is no file or it names no node of this pool, at the first
      node of the name it holds otherwise; a file of another form is refused. */
  lemma RotationStarts(specs: seq<Spec>, ref: string)
    ensures ReadCursor(specs, Missing) == Ok(0) && ReadCursor(specs, Malformed) == Err(InvalidState)
    ensures (forall k :: 0 <= k < |specs| ==> specs[k].ref != ref) ==> ReadCursor(specs, NextRef(ref)) == Ok(0)
    ensures forall k :: 0 <= k < |specs| && specs[k].ref == ref && (forall j :: 0 <= j < k ==> specs[j].ref != ref) ==>
              ReadCursor(specs, NextRef(ref)) == Ok(k)
  {
  }

  /** What is written is read back, modulo the number of nodes. */
  lemma CursorRoundTrip(specs: seq<Spec>, cursor: nat)
    requires specs != [] && UniqueRefs(specs)
    ensures ReadCursor(specs, WrittenCursor(specs, cursor)) == Ok(cursor % |specs|)
  {
    var k, at := cursor % |specs|, IndexOfRef(specs, specs[cursor % |specs|].ref);
    assert specs[at].ref == specs[k].ref;
  }

  class RotationFile {
    var state: RotationState

    constructor ()
      ensures state == Missing
    {
      state := Missing;
    }
  }

  class ProxyPool {
    const specs: seq<Spec>
    const configured: bool
    const rotation: RotationFile?
    var active: Active
    var cursor: nat

    predicate Valid()
      reads this
    {
      Known(specs, active) && (specs != [] ==> cursor < |specs|)
    }

    constructor (specs: seq<Spec>, configured: bool, rotation: RotationFile?)
      ensures Valid() && cursor == 0
      ensures this.specs == specs && this.configured == configured && this.rotation == rotation
      ensures forall ref :: ref in active <==> exists k :: 0 <= k < |specs| && specs[k].ref == ref
      ensures forall ref :: ref in active ==> active[ref] == 0
    {
      this.specs, this.configured, this.rotation := specs, configured, rotation;
      this.active, this.cursor := map spec | spec in specs :: spec.ref := 0, 0;
    }

    /** The cursor a scan starts from: the file's when there is one. */
    function Start(): Result<nat, PoolError>
      requires Valid()
      reads this, rotation
    {
      if rotation == null then Ok(cursor) else ReadCursor(specs, rotation.state)
    }

    /** The scan of `acquire`: the first offset from the cursor whose node has a lease left. */
    method Scan(from: nat) returns (offset: nat)
      requires Valid() && from < |specs|
      ensures offset == FirstFree(specs, active, from, 0)
    {
      for o: nat := 0 to |specs|
        invariant FirstFree(specs, active, from, o) == FirstFree(specs, active, from, 0)
      {
        var index := Wrap(from + o, |specs|);
        if active[specs[index].ref] < specs[index].limit {
          return o;
        }
      }
      offset := |specs|;
    }

    /** Records the grant of node k: first the rotation file, which may fail, then the counters. */
    method Lease(k: nat, writable: bool) returns (r: Result<Option<Spec>, PoolError>)
      requires Valid() && k < |specs|
      modifies this`active, this`cursor, rotation
      ensures Valid()
      ensures r == if rotation != null && !writable then Err(StateUnavailable) else Ok(Some(specs[k]))
      ensures r.Err? ==>
                && active == old(active) && cursor == old(cursor)
                && (rotation != null ==> rotation.state == old(rotation.state))
      ensures r.Ok? ==>
                && active == Take(old(active), specs[k].ref)
                && cursor == Wrap(k + 1, |specs|)
                && (rotation != null ==> rotation.state == WrittenCursor(specs, cursor))
    {
      var next := Wrap(k + 1, |specs|);
      if rotation != null {
        if !writable {
          return Err(StateUnavailable);
        }
        WrapIsModulo(next, |specs|);
        rotation.state := NextRef(specs[next].ref);
      }
      active := Take(active, specs[k].ref);
      cursor := next;
      r := Ok(Some(specs[k]));
    }

    /**
      Grants the first node in cyclic order from the cursor that has a lease left.  The rotation file
      may turn out not to be lockable or not to be writable; then nothing has changed.
    */
    method Acquire(lockable: bool, writable: bool) returns (r: Result<Option<Spec>, PoolError>)
      requires Valid()
      modifies this`active, this`cursor, rotation
      ensures Valid()
      ensures !configured <==> r == Ok(None)
      ensures !(r.Ok? && r.value.Some?) ==>
                && active == old(active) && cursor == old(cursor)
                && (rotation != null ==> rotation.state == old(rotation.state))
      ensures configured && specs == [] ==> r == Err(NoNodes)
      ensures configured && specs != [] ==>
                var full := forall k :: 0 <= k < |specs| ==> !Free(specs, old(active), k);
                && (rotation == null ==> (r == Err(NoLease) <==> full) && (r.Ok? <==> !full))
                && (rotation != null ==>
                      && (r == Err(StateUnavailable) <==>
                            !lockable || (old(rotation.state) != Malformed && !full && !writable))
                      && (r == Err(InvalidState) <==> lockable && old(rotation.state) == Malformed)
                      && (r == Err(NoLease) <==> lockable && old(rotation.state) != Malformed && full))
      ensures r.Ok? && r.value.Some? ==>
                && specs != [] && old(Start()).Ok?
                && var start := old(Start()).value;
                   var o := FirstFree(specs, old(active), start, 0);
                   && o < |specs|
                   && var k := Wrap(start + o, |specs|);
                      && r.value.value == specs[k]
                      && active == Take(old(active), specs[k].ref)
                      && cursor == Wrap(k + 1, |specs|)
                      && (rotation != null ==> rotation.state == WrittenCursor(specs, cursor))
    {
      if !configured {
        return Ok(None);
      }
      if |specs| == 0 {
        return Err(NoNodes);
      }
      if rotation != null && !lockable {
        return Err(StateUnavailable);
      }
      var start := Start();
      if start.Err? {
        return Err(start.error);
      }
      var offset := Scan(start.value);
      if offset == |specs| {
        NoneFree(specs, active, start.value);
        return Err(NoLease);
      }
      assert FreeAt(specs, active, start.value, offset);
      r := Lease(Wrap(start.value + offset, |specs|), writable);
    }

    method Release(lease: Option<Spec>) returns (r: Result<(), PoolError>)
      requires Valid()
      modifies this`active
      ensures Valid()
      ensures lease.None? ==> r.Ok? && active == old(active)
      ensures lease.Some? ==>
                var ref := lease.value.ref;
                if ref in old(active) && old(active)[ref] >= 1
                then r.Ok? && active == old(active)[ref := old(active)[ref] - 1]
                else r == Err(InvalidRelease(ref)) && active == old(active)
    {
      if lease.None? {
        return Ok(());
      }
      var ref := lease.value.ref;
      if ref !in active || active[ref] < 1 {
        return Err(InvalidRelease(ref));
      }
      active := active[ref := active[ref] - 1];
      r := Ok(());
    }
  }

  // ---------------------------------------------------------------- fairness over runs

  /** The grants and releases of an in-memory pool; `Grant(o)` passes o saturated nodes. */
  datatype Event = Grant(offset: nat) | Refuse | GiveBack(ref: string)

  datatype State = State(active: Active, cursor: nat)

  predicate ValidState(specs: seq<Spec>, s: State) {
    specs != [] && Known(specs, s.active) && s.cursor < |specs|
  }

  function Granted(specs: seq<Spec>, s: State, o: nat): nat
    requires ValidState(specs, s) && o < |specs|
  {
    Wrap(s.cursor + o, |specs|)
  }

  predicate Step(specs: seq<Spec>, s: State, e: Event, s': State) {
    && ValidState(specs, s) && ValidState(specs, s')
    && match e
       case Grant(o) =>
         && o == FirstFree(specs, s.active, s.cursor, 0) && o < |specs|
         && s' == State(Take(s.active, specs[Granted(specs, s, o)].ref), Wrap(Granted(specs, s, o) + 1, |specs|))
       case Refuse => FirstFree(specs, s.active, s.cursor, 0) == |specs| && s' == s
       case GiveBack(ref) =>
         ref in s.active && s.active[ref] >= 1 && s' == State(s.active[ref := s.active[ref] - 1], s.cursor)
  }

  /** A run: `states` has one more element than `events`. */
  predicate IsRun(specs: seq<Spec>, states: seq<State>, events: seq<Event>) {
    && |states| == |events| + 1
    && forall t :: 0 <= t < |events| ==> Step(specs, states[t], events[t], states[t + 1])
  }

  predicate Grants(specs: seq<Spec>, states: seq<State>, events: seq<Event>, t: nat, k: nat)
    requires IsRun(specs, states, events)
  {
    t < |events| && Step(specs, states[t], events[t], states[t + 1])
    && events[t].Grant? && Granted(specs, states[t], events[t].offset) == k
  }

  /** Event t granted node k or passed over it because it was saturated. */
  predicate Served(specs: seq<Spec>, states: seq<State>, events: seq<Event>, t: nat, k: nat)
    requires IsRun(specs, states, events)
  {
    && t < |events| && k < |specs|
    && Step(specs, states[t], events[t], states[t + 1])
    && events[t].Grant?
    && (Granted(specs, states[t], events[t].offset) == k || !Free(specs, states[t].active, k))
  }

  /** The distance the cursor moves over events [a, b). */
  function Travel(events: seq<Event>, a: nat, b: nat): nat
    requires a <= b <= |events|
    decreases b - a
  {
    if a == b then 0
    else Travel(events, a, b - 1) + Distance(events[b - 1])
  }

  function Distance(e: Event): nat {
    if e.Grant? then e.offset + 1 else 0
  }

  /** One event moves the cursor by its distance, at most once past the last node. */
  lemma CursorMoves(specs: seq<Spec>, s: State, e: Event, s': State)
    requires Step(specs, s, e, s')
    ensures s'.cursor == s.cursor + Distance(e) || s'.cursor + |specs| == s.cursor + Distance(e)
  {
  }

  lemma OneMoreLap(laps: nat, n: nat)
    ensures (laps + 1) * n == laps * n + n
  {
  }

  /** Telescoping: the cursor has moved by Travel, in whole laps. */
  lemma {:induction false} CursorTravels(specs: seq<Spec>, states: seq<State>, events: seq<Event>, a: nat, b: nat)
    returns (laps: nat)
    requires IsRun(specs, states, events) && a < b <= |events|
    ensures states[b].cursor + laps * |specs| == states[a].cursor + Travel(events, a, b)
    decreases b - a
  {
    CursorMoves(specs, states[b - 1], events[b - 1], states[b]);
    assert Travel(events, a, b) == Travel(events, a, b - 1) + Distance(events[b - 1]);
    laps := 0;
    if a < b - 1 {
      laps := CursorTravels(specs, states, events, a, b - 1);
    }
    if states[b].cursor != states[b - 1].cursor + Distance(events[b - 1]) {
      OneMoreLap(laps, |specs|);
      laps := laps + 1;
    }
  }

  lemma GrantServes(specs: seq<Spec>, states: seq<State>, events: seq<Event>, t: nat, j: nat)
    requires IsRun(specs, states, events) && t < |events| && events[t].Grant? && j <= events[t].offset
    requires Step(specs, states[t], events[t], states[t + 1])
    ensures Served(specs, states, events, t, Wrap(states[t].cursor + j, |specs|))
  {
    if j < events[t].offset {
      assert !FreeAt(specs, states[t].active, states[t].cursor, j);
    }
  }

  lemma SameNode(from: nat, travelled: nat, at: nat, laps: nat, n: nat, j: nat)
    requires from < n && at < n && at + laps * n == from + travelled && travelled + j < n
    ensures Wrap(at + j, n) == Wrap(from + travelled + j, n)
  {
    ProductGrows(n, 2, laps);
    assert laps < 2;
  }

  lemma ProductGrows(n: nat, a: nat, b: nat)
    ensures a <= b ==> n * a <= n * b
  {
    if a <= b {
      assert n * b == n * a + n * (b - a);
    }
  }

  /** Travel over [a, b) serves every node within that distance of the starting cursor. */
  lemma {:induction false} TravelServes(
      specs: seq<Spec>, states: seq<State>, events: seq<Event>, a: nat, b: nat, m: nat)
    returns (t: nat)
    requires IsRun(specs, states, events) && a < b <= |events|
    requires m < |specs| && m < Travel(events, a, b)
    requires ValidState(specs, states[a])
    ensures a <= t < b && Served(specs, states, events, t, Wrap(states[a].cursor + m, |specs|))
    decreases b - a
  {
    t := b - 1;
    if m < Travel(events, a, t) {
      t := TravelServes(specs, states, events, a, t, m);
    } else {
      LastEventServes(specs, states, events, a, t, m);
    }
  }

  /** The event that travels past distance m serves the node there. */
  lemma LastEventServes(specs: seq<Spec>, states: seq<State>, events: seq<Event>, a: nat, t: nat, m: nat)
    requires IsRun(specs, states, events) && a <= t < |events| && ValidState(specs, states[a])
    requires Travel(events, a, t) <= m < Travel(events, a, t + 1) && m < |specs|
    ensures Served(specs, states, events, t, Wrap(states[a].cursor + m, |specs|))
  {
    var travelled, laps := Travel(events, a, t), 0;
    if a < t {
      laps := CursorTravels(specs, states, events, a, t);
    }
    assert Step(specs, states[t], events[t], states[t + 1]);
    SameNode(states[a].cursor, travelled, states[t].cursor, laps, |specs|, m - travelled);
    GrantServes(specs, states, events, t, m - travelled);
  }

  /** Coming back to the same cursor after a grant takes at least one whole lap. */
  lemma FullLap(specs: seq<Spec>, states: seq<State>, events: seq<Event>, a: nat, b: nat)
    requires IsRun(specs, states, events) && a < b <= |events|
    requires states[a].cursor == states[b].cursor && events[b - 1].Grant?
    ensures Travel(events, a, b) >= |specs|
  {
    var laps := CursorTravels(specs, states, events, a, b);
    WholeLap(laps, |specs|);
  }

  lemma WholeLap(laps: nat, n: nat)
    ensures laps * n == 0 || laps * n >= n
  {
    if laps > 0 {
      ProductGrows(n, 1, laps);
    }
  }

  lemma OffsetTo(from: nat, k: nat, n: nat) returns (m: nat)
    requires from < n && k < n
    ensures m < n && Wrap(from + m, n) == k
  {
    m := if k >= from then k - from else k + n - from;
  }

  lemma AfterGrant(specs: seq<Spec>, states: seq<State>, events: seq<Event>, t: nat, k: nat)
    requires IsRun(specs, states, events) && Grants(specs, states, events, t, k)
    ensures k < |specs| && states[t + 1].cursor == Wrap(k + 1, |specs|) && ValidState(specs, states[t + 1])
  {
  }

  /**
    No starvation: between two grants of node i, every node was granted or was found saturated
    by some scan, whatever acquires and releases happen in between.
  */
  lemma NoStarvation(specs: seq<Spec>, states: seq<State>, events: seq<Event>, t1: nat, t2: nat, i: nat, k: nat)
    returns (t: nat)
    requires IsRun(specs, states, events) && t1 < t2
    requires Grants(specs, states, events, t1, i) && Grants(specs, states, events, t2, i) && k < |specs|
    ensures t1 < t <= t2 && Served(specs, states, events, t, k)
  {
    var a, from := t1 + 1, Wrap(i + 1, |specs|);
    AfterGrant(specs, states, events, t1, i);
    AfterGrant(specs, states, events, t2, i);
    FullLap(specs, states, events, a, t2 + 1);
    var m := OffsetTo(from, k, |specs|);
    t := TravelServes(specs, states, events, a, t2 + 1, m);
  }

  // ---------------------------------------------------------------- the file-backed pool

  /** One operation of a process whose cursor lives in the rotation file. */
  predicate FileStep(
      specs: seq<Spec>, active: Active, file: RotationState, e: Event, active': Active, file': RotationState)
  {
    && specs != [] && Known(specs, active) && ReadCursor(specs, file).Ok?
    && var start := ReadCursor(specs, file).value;
       var o := FirstFree(specs, active, start, 0);
       match e
       case Grant(offset) =>
         && offset == o < |specs|
         && active' == Take(active, specs[Wrap(start + o, |specs|)].ref)
         && file' == WrittenCursor(specs, Wrap(Wrap(start + o, |specs|) + 1, |specs|))
       case Refuse => o == |specs| && active' == active && file' == file
       case GiveBack(ref) =>
         ref in active && active[ref] >= 1 && active' == active[ref := active[ref] - 1] && file' == file
  }

  function MemoryState(specs: seq<Spec>, active: Active, file: RotationState): State
    requires ReadCursor(specs, file).Ok?
  {
    State(active, ReadCursor(specs, file).value)
  }

  /** The cursor file refines the cursor field: each file-backed step is an in-memory step. */
  lemma FileRefinesMemory(
      specs: seq<Spec>, active: Active, file: RotationState, e: Event, active': Active, file': RotationState)
    requires UniqueRefs(specs) && FileStep(specs, active, file, e, active', file')
    ensures ReadCursor(specs, file').Ok?
    ensures Step(specs, MemoryState(specs, active, file), e, MemoryState(specs, active', file'))
  {
    if e.Grant? {
      var next := Wrap(Wrap(ReadCursor(specs, file).value + e.offset, |specs|) + 1, |specs|);
      CursorRoundTrip(specs, next);
      WrapIsModulo(next, |specs|);
    }
  }

  /** Hence a whole file-backed run is an in-memory run, and is as fair. */
  lemma FileRunIsMemoryRun(specs: seq<Spec>, actives: seq<Active>, files: seq<RotationState>, events: seq<Event>)
    returns (states: seq<State>)
    requires UniqueRefs(specs) && |actives| == |files| == |events| + 1
    requires ReadCursor(specs, files[0]).Ok?
    requires forall t :: 0 <= t < |events| ==>
               FileStep(specs, actives[t], files[t], events[t], actives[t + 1], files[t + 1])
    ensures IsRun(specs, states, events)
    ensures forall t :: 0 <= t <= |events| ==>
              ReadCursor(specs, files[t]) == Ok(states[t].cursor) && states[t].active == actives[t]
  {
    states := [MemoryState(specs, actives[0], files[0])];
    for t := 0 to |events|
      invariant |states| == t + 1
      invariant IsRun(specs, states, events[..t])
      invariant forall u :: 0 <= u <= t ==>
                  ReadCursor(specs, files[u]) == Ok(states[u].cursor) && states[u].active == actives[u]
    {
      assert FileStep(specs, actives[t], files[t], events[t], actives[t + 1], files[t + 1]);
      FileRefinesMemory(specs, actives[t], files[t], events[t], actives[t + 1], files[t + 1]);
      assert IsRun(specs, states, events[..t]);
      var next := MemoryState(specs, actives[t + 1], files[t + 1]);
      ExtendRun(specs, states, events[..t], events[t], next);
      assert events[..t + 1] == events[..t] + [events[t]];
      states := states + [next];
    }
    assert events[..|events|] == events;
  }

  lemma ExtendRun(specs: seq<Spec>, states: seq<State>, events: seq<Event>, e: Event, s: State)
    requires IsRun(specs, states, events) && Step(specs, states[|events|], e, s)
    ensures IsRun(specs, states + [s], events + [e])
  {
    forall t | 0 <= t < |events| + 1
      ensures Step(specs, (states + [s])[t], (events + [e])[t], (states + [s])[t + 1])
    {
      if t < |events| {
        assert Step(specs, states[t], events[t], states[t + 1]);
      }
    }
  }

  lemma NextWritten(
      specs: seq<Spec>, active: Active, file: RotationState, active': Active, file': RotationState, k: nat)
    requires UniqueRefs(specs) && FileStep(specs, active, file, Grant(0), active', file')
    requires ReadCursor(specs, file) == Ok(k)
    ensures k < |specs| && specs[k].ref in active && active' == Take(active, specs[k].ref)
    ensures ReadCursor(specs, file') == Ok(Wrap(k + 1, |specs|))
  {
    CursorRoundTrip(specs, Wrap(k + 1, |specs|));
    WrapIsModulo(Wrap(k + 1, |specs|), |specs|);
  }

  /** The acting processes' counts before and after each grant, and the file between them. */
  predicate SharedGrants(specs: seq<Spec>, actives: seq<Active>, nexts: seq<Active>, files: seq<RotationState>) {
    && UniqueRefs(specs) && |actives| == |nexts| && |files| == |actives| + 1
    && forall u :: 0 <= u < |actives| ==> FileStep(specs, actives[u], files[u], Grant(0), nexts[u], files[u + 1])
  }

  lemma {:induction false} SharedCursor(
      specs: seq<Spec>, actives: seq<Active>, nexts: seq<Active>, files: seq<RotationState>, c: nat, t: nat)
    requires SharedGrants(specs, actives, nexts, files) && t < |files|
    requires specs != [] && ReadCursor(specs, files[0]) == Ok(c)
    ensures ReadCursor(specs, files[t]) == Ok((c + t) % |specs|)
    decreases t
  {
    if t == 0 {
      WrapIsModulo(c, |specs|);
    } else {
      SharedCursor(specs, actives, nexts, files, c, t - 1);
      NextWritten(specs, actives[t - 1], files[t - 1], nexts[t - 1], files[t], (c + (t - 1)) % |specs|);
      NextModulo(c + (t - 1), |specs|);
    }
  }

  /**
    Several processes sharing one file, none finding the node at the cursor saturated: the
    grants of all of them together go round the nodes in order.
  */
  lemma SharedFileRoundRobin(
      specs: seq<Spec>, actives: seq<Active>, nexts: seq<Active>, files: seq<RotationState>, c: nat, t: nat)
    requires SharedGrants(specs, actives, nexts, files) && t < |actives|
    requires ReadCursor(specs, files[0]) == Ok(c)
    ensures specs != []
    ensures var k := (c + t) % |specs|;
            specs[k].ref in actives[t] && nexts[t] == Take(actives[t], specs[k].ref)
  {
    assert FileStep(specs, actives[t], files[t], Grant(0), nexts[t], files[t + 1]);
    SharedCursor(specs, actives, nexts, files, c, t);
    NextWritten(specs, actives[t], files[t], nexts[t], files[t + 1], (c + t) % |specs|);
  }

  lemma NextModulo(x: nat, n: nat)
    requires n > 0
    ensures (x + 1) % n == Wrap(x % n + 1, n)
  {
    var q := x / n;
    assert x == n * q + x % n;
    if x % n + 1 == n {
      assert x + 1 == n * (q + 1);
      ModuloUnique(x + 1, n, q + 1, 0);
    } else {
      ModuloUnique(x + 1, n, q, x % n + 1);
    }
  }

  lemma ModuloUnique(x: nat, n: nat, q: nat, r: nat)
    requires r < n && x == n * q + r
    ensures x % n == r
  {
    var q' := x / n;
    assert x == n * q' + x % n;
    LargerQuotient(n, q, q', r, x % n);
    LargerQuotient(n, q', q, x % n, r);
  }

  lemma LargerQuotient(n: nat, a: nat, b: nat, r: nat, s: nat)
    requires r < n && s < n && n * a + r == n * b + s
    ensures a <= b
  {
    ProductGrows(n, b + 1, a);
    assert n * (b + 1) == n * b + n;
  }
}
