/**
  The credential file lifecycle of clients/windows/cpa/state.py: three state directories, one
  lock per identity, a write before every unlink.

  Every `os.replace` and `unlink` is one atomic operation, and a crash may come between any two.
*/
module CredentialFiles {
  import opened Common

  type Digest = string

  datatype State = Verified | InPending | Cooldown

  /** A file in a state directory, or anywhere else (a source path may be elsewhere). */
  datatype Path = In(state: State, name: string) | Elsewhere(path: string)

  /** An auth payload: its lock key (None when it has neither email nor subject), its canonical
      file name, its refresh fingerprint, and the rest. */
  datatype Payload = Payload(identity: Option<string>, fileName: string, fingerprint: Digest, body: string)

  /** A file's payload is None when it is not readable JSON. */
  datatype File = File(payload: Option<Payload>, mtime: nat)

  type Files = map<Path, File>

  datatype StateError = NoIdentity | SourceChanged | NewerStateExists | Unreadable

  datatype Request = Request(payload: Payload, target: State, source: Option<Path>, expected: Option<Digest>)

  /** One atomic disk operation. */
  datatype Op = Put(path: Path, file: File) | Remove(path: Path)

  function Apply(files: Files, op: Op): Files {
    match op
    case Put(path, file) => files[path := file]
    case Remove(path) => files - {path}
  }

  function ApplyAll(files: Files, ops: seq<Op>): Files
    decreases |ops|
  {
    if ops == [] then files else Apply(ApplyAll(files, ops[..|ops| - 1]), ops[|ops| - 1])
  }

  predicate SameFile(a: Files, b: Files, path: Path) {
    (path in a <==> path in b) && (path in a ==> a[path] == b[path])
  }

  function StatePaths(name: string): seq<Path> {
    [In(InPending, name), In(Cooldown, name), In(Verified, name)]
  }

  /** Some state path other than the source holds a strictly newer file. */
  predicate NewerExists(files: Files, source: Path, name: string) {
    exists k :: 0 <= k < 3 && StatePaths(name)[k] != source && StatePaths(name)[k] in files &&
      source in files && files[StatePaths(name)[k]].mtime > files[source].mtime
  }

  function CheckSource(files: Files, req: Request): Result<(), StateError> {
    match req.source
    case None => Ok(())
    case Some(source) =>
      if source !in files then Err(SourceChanged)
      else if files[source].payload.None? then Err(Unreadable)
      else if req.expected.Some? && files[source].payload.value.fingerprint != req.expected.value then
        Err(SourceChanged)
      else if NewerExists(files, source, req.payload.fileName) then Err(NewerStateExists)
      else Ok(())
  }

  function Destination(req: Request): Path {
    In(req.target, req.payload.fileName)
  }

  function Unlinks(paths: seq<Path>, dest: Path): seq<Op> {
    if paths == [] then []
    else (if paths[0] == dest then [] else [Remove(paths[0])]) + Unlinks(paths[1..], dest)
  }

  /** What `transition` will do to the disk, decided under the lock before it writes anything. */
  function TransitionPlan(files: Files, req: Request, now: nat): Result<seq<Op>, StateError> {
    if req.payload.identity.None? then Err(NoIdentity)
    else
      match CheckSource(files, req)
      case Err(e) => Err(e)
      case Ok(_) =>
        var dest := Destination(req);
        Ok([Put(dest, File(Some(req.payload), now))] + Unlinks(StatePaths(req.payload.fileName), dest))
  }

  /** `replace_if_fingerprint`: an empty plan when the fingerprint has moved on. */
  function ReplacePlan(
      files: Files, path: Path, expected: Digest, payload: Payload, now: nat): Result<seq<Op>, StateError>
  {
    if payload.identity.None? then Err(NoIdentity)
    else if path !in files || files[path].payload.None? then Err(Unreadable)
    else if files[path].payload.value.fingerprint != expected then Ok([])
    else Ok([Put(path, File(Some(payload), now))])
  }

  // ---------------------------------------------------------------- one operation, crashed anywhere

  predicate Present(files: Files, name: string) {
    exists k :: 0 <= k < 3 && StatePaths(name)[k] in files
  }

  /** The shape of every plan: one write, then removals of other state paths of the same name. */
  predicate WriteThenUnlink(ops: seq<Op>) {
    && ops != [] && ops[0].Put?
    && forall m :: 1 <= m < |ops| ==>
         && ops[m].Remove? && ops[m].path != ops[0].path
         && ops[0].path.In? && ops[m].path.In? && ops[m].path.name == ops[0].path.name
  }

  lemma PlanShape(files: Files, req: Request, now: nat)
    requires TransitionPlan(files, req, now).Ok?
    ensures var ops := TransitionPlan(files, req, now).value;
            && WriteThenUnlink(ops) && ops[0] == Put(Destination(req), File(Some(req.payload), now))
            && |ops| == 3 && ops[1].path != ops[2].path
            && forall k :: 0 <= k < 3 && StatePaths(req.payload.fileName)[k] != Destination(req) ==>
                 Remove(StatePaths(req.payload.fileName)[k]) in {ops[1], ops[2]}
  {
    var name, dest := req.payload.fileName, Destination(req);
    var a, b, c := In(InPending, name), In(Cooldown, name), In(Verified, name);
    assert [a, b, c][1..] == [b, c] && [b, c][1..] == [c] && [c][1..] == [];
    assert Unlinks([c], dest) == if c == dest then [] else [Remove(c)];
    assert Unlinks([b, c], dest) == (if b == dest then [] else [Remove(b)]) + Unlinks([c], dest);
    assert Unlinks([a, b, c], dest) == (if a == dest then [] else [Remove(a)]) + Unlinks([b, c], dest);
    match req.target
    case InPending => assert Unlinks([a, b, c], dest) == [Remove(b), Remove(c)];
    case Cooldown => assert Unlinks([a, b, c], dest) == [Remove(a), Remove(c)];
    case Verified => assert Unlinks([a, b, c], dest) == [Remove(a), Remove(b)];
  }

  /** After any number of a plan's operations, the written file is there as written and the
      removed ones are not; nothing else has changed. */
  lemma {:induction false} PlanProgress(files: Files, ops: seq<Op>, k: nat)
    requires WriteThenUnlink(ops) && 1 <= k <= |ops|
    ensures var now := ApplyAll(files, ops[..k]);
            && ops[0].path in now && now[ops[0].path] == ops[0].file
            && (forall m :: 1 <= m < k ==> ops[m].path !in now)
            && (forall p :: (forall m :: 0 <= m < k ==> ops[m].path != p) ==>
                  (p in now <==> p in files) && (p in now ==> now[p] == files[p]))
    decreases k
  {
    assert ops[..k][..k - 1] == ops[..k - 1];
    if k == 1 {
      assert ops[..0] == [];
    } else {
      PlanProgress(files, ops, k - 1);
    }
  }

  /** Never lost: from at least one file, a crash after any prefix leaves at least one. */
  lemma NeverLost(files: Files, req: Request, now: nat, k: nat)
    requires TransitionPlan(files, req, now).Ok? && k <= |TransitionPlan(files, req, now).value|
    requires Present(files, req.payload.fileName)
    ensures Present(ApplyAll(files, TransitionPlan(files, req, now).value[..k]), req.payload.fileName)
  {
    var ops := TransitionPlan(files, req, now).value;
    PlanShape(files, req, now);
    if k == 0 {
      assert ops[..0] == [];
    } else {
      PlanProgress(files, ops, k);
      var at := match req.target case InPending => 0 case Cooldown => 1 case Verified => 2;
      assert StatePaths(req.payload.fileName)[at] == Destination(req);
    }
  }

  /** Finally unique: a completed transition leaves one file, the requested one, in one directory. */
  lemma FinallyUnique(files: Files, req: Request, now: nat, k: nat)
    requires TransitionPlan(files, req, now).Ok? && k < 3
    ensures var path := StatePaths(req.payload.fileName)[k];
            var after := ApplyAll(files, TransitionPlan(files, req, now).value);
            && (path in after <==> path == Destination(req))
            && (path in after ==> after[path] == File(Some(req.payload), now))
  {
    var ops := TransitionPlan(files, req, now).value;
    PlanShape(files, req, now);
    PlanProgress(files, ops, 3);
    assert ops[..3] == ops;
  }

  /** Exactly when a transition goes through: the payload has an identity, and its source is readable,
      has the fingerprint that was expected, and has no strictly newer copy in a state directory. */
  lemma TransitionAcceptedExactly(files: Files, req: Request, now: nat)
    ensures TransitionPlan(files, req, now).Ok? <==>
              && req.payload.identity.Some?
              && (req.source.Some? ==>
                    && req.source.value in files && files[req.source.value].payload.Some?
                    && (req.expected.Some? ==>
                          files[req.source.value].payload.value.fingerprint == req.expected.value)
                    && forall state :: state in {InPending, Cooldown, Verified} ==>
                         var other := In(state, req.payload.fileName);
                         other == req.source.value || other !in files ||
                         files[other].mtime <= files[req.source.value].mtime)
  {
    var name := req.payload.fileName;
    assert StatePaths(name)[0] == In(InPending, name) && StatePaths(name)[1] == In(Cooldown, name);
    assert StatePaths(name)[2] == In(Verified, name);
  }

  /** Exactly what a compare and swap does: the new payload replaces the one with the expected
      fingerprint, any other readable file stays, and nothing else changes. */
  lemma ReplacesExactly(files: Files, path: Path, expected: Digest, payload: Payload, now: nat)
    requires payload.identity.Some? && path in files && files[path].payload.Some?
    ensures var plan := ReplacePlan(files, path, expected, payload, now);
            && plan.Ok?
            && (plan.value == [] <==> files[path].payload.value.fingerprint != expected)
            && ApplyAll(files, plan.value) ==
                 if files[path].payload.value.fingerprint == expected then files[path := File(Some(payload), now)]
                 else files
  {
    var put := Put(path, File(Some(payload), now));
    assert [put][..0] == [] && ApplyAll(files, [put]) == Apply(ApplyAll(files, [put][..0]), put);
  }

  // ---------------------------------------------------------------- lock holders, interleaved

  /** The work of one lock holder: its plan and how many operations it has done. */
  datatype Job = Job(ops: seq<Op>, done: nat)

  /** The disk and the held identity locks. */
  datatype World = World(files: Files, jobs: map<string, Job>)

  datatype Event =
    | StartTransition(key: string, req: Request, now: nat)
    | StartReplace(key: string, path: Path, expected: Digest, payload: Payload, now: nat)
    | Advance(key: string)
    | Finish(key: string)
    | Crash(key: string)   // the holder dies and its stale lock is cleared

  /** Each path belongs to one identity; a name has the same owner in every directory. */
  ghost predicate Ownership(owner: Path -> string) {
    forall a: State, b: State, name: string :: owner(In(a, name)) == owner(In(b, name))
  }

  predicate OwnedOps(owner: Path -> string, key: string, ops: seq<Op>) {
    forall m :: 0 <= m < |ops| ==> owner(ops[m].path) == key
  }

  /** A lock is taken only when free: `O_CREAT | O_EXCL`.  A refused operation releases at once. */
  ghost predicate Step(owner: Path -> string, w: World, e: Event, w': World) {
    match e
    case StartTransition(key, req, now) =>
      && key !in w.jobs && req.payload.identity == Some(key) && owner(Destination(req)) == key
      && (match TransitionPlan(w.files, req, now)
          case Err(_) => w' == w
          case Ok(ops) => w' == w.(jobs := w.jobs[key := Job(ops, 0)]))
    case StartReplace(key, path, expected, payload, now) =>
      && key !in w.jobs && payload.identity == Some(key) && owner(path) == key
      && (match ReplacePlan(w.files, path, expected, payload, now)
          case Err(_) => w' == w
          case Ok(ops) => if ops == [] then w' == w else w' == w.(jobs := w.jobs[key := Job(ops, 0)]))
    case Advance(key) =>
      && key in w.jobs && w.jobs[key].done < |w.jobs[key].ops|
      && var job := w.jobs[key];
         w' == World(Apply(w.files, job.ops[job.done]), w.jobs[key := Job(job.ops, job.done + 1)])
    case Finish(key) =>
      key in w.jobs && w.jobs[key].done == |w.jobs[key].ops| && w' == w.(jobs := w.jobs - {key})
    case Crash(key) =>
      key in w.jobs && w' == w.(jobs := w.jobs - {key})
  }

  predicate JobInv(owner: Path -> string, files: Files, key: string, job: Job) {
    && WriteThenUnlink(job.ops) && OwnedOps(owner, key, job.ops) && job.done <= |job.ops|
    && (job.done >= 1 ==> job.ops[0].path in files && files[job.ops[0].path] == job.ops[0].file)
    && forall m :: 1 <= m < job.done ==> job.ops[m].path !in files
  }

  ghost predicate WorldInv(owner: Path -> string, w: World) {
    forall key :: key in w.jobs ==> JobInv(owner, w.files, key, w.jobs[key])
  }

  lemma TransitionOwned(owner: Path -> string, files: Files, req: Request, now: nat)
    requires Ownership(owner) && TransitionPlan(files, req, now).Ok?
    ensures OwnedOps(owner, owner(Destination(req)), TransitionPlan(files, req, now).value)
  {
    PlanShape(files, req, now);
    var ops := TransitionPlan(files, req, now).value;
    forall m | 0 <= m < |ops|
      ensures owner(ops[m].path) == owner(Destination(req))
    {
      if m >= 1 {
        assert ops[m].path == In(ops[m].path.state, req.payload.fileName);
      }
    }
  }

  /** Every step of every lock holder keeps the invariant. */
  lemma StepKeeps(owner: Path -> string, w: World, e: Event, w': World)
    requires Ownership(owner) && WorldInv(owner, w) && Step(owner, w, e, w')
    ensures WorldInv(owner, w')
  {
    if e.StartTransition? && w' != w {
      PlanShape(w.files, e.req, e.now);
      TransitionOwned(owner, w.files, e.req, e.now);
    }
    if e.Advance? {
      var job := w.jobs[e.key];
      assert JobInv(owner, w.files, e.key, job);
      var op := job.ops[job.done];
      forall key | key in w'.jobs
        ensures JobInv(owner, w'.files, key, w'.jobs[key])
      {
        if key != e.key {
          assert JobInv(owner, w.files, key, w.jobs[key]);
          assert forall m :: 0 <= m < |w.jobs[key].ops| ==> w.jobs[key].ops[m].path != op.path;
        }
      }
    }
  }

  /** No step of any interleaving, crashes included, removes the last file of a name. */
  lemma StepNeverLoses(owner: Path -> string, w: World, e: Event, w': World, name: string)
    requires Ownership(owner) && WorldInv(owner, w) && Step(owner, w, e, w') && Present(w.files, name)
    ensures Present(w'.files, name)
  {
    if e.Advance? {
      var job := w.jobs[e.key];
      assert JobInv(owner, w.files, e.key, job);
      var op := job.ops[job.done];
      var k :| 0 <= k < 3 && StatePaths(name)[k] in w.files;
      if op.Remove? && op.path == StatePaths(name)[k] {
        var dest := job.ops[0].path;
        var at := match dest.state case InPending => 0 case Cooldown => 1 case Verified => 2;
        assert StatePaths(name)[at] == dest;
        assert dest in w'.files;
      } else {
        assert StatePaths(name)[k] in w'.files;
      }
    }
  }

  ghost predicate IsTrace(owner: Path -> string, worlds: seq<World>, events: seq<Event>) {
    && |worlds| == |events| + 1
    && forall t :: 0 <= t < |events| ==> Step(owner, worlds[t], events[t], worlds[t + 1])
  }

  lemma {:induction false} TraceKeeps(owner: Path -> string, worlds: seq<World>, events: seq<Event>, t: nat)
    requires Ownership(owner) && IsTrace(owner, worlds, events) && worlds[0].jobs == map[] && t < |worlds|
    ensures WorldInv(owner, worlds[t])
    decreases t
  {
    if t > 0 {
      TraceKeeps(owner, worlds, events, t - 1);
      StepKeeps(owner, worlds[t - 1], events[t - 1], worlds[t]);
    }
  }

  /** Hence no reachable state of any number of interleaved operations has lost an identity's file. */
  lemma {:induction false} TraceNeverLoses(
    owner: Path -> string, worlds: seq<World>, events: seq<Event>, t: nat, name: string)
    requires Ownership(owner) && IsTrace(owner, worlds, events) && worlds[0].jobs == map[] && t < |worlds|
    requires Present(worlds[0].files, name)
    ensures Present(worlds[t].files, name)
    decreases t
  {
    if t > 0 {
      TraceNeverLoses(owner, worlds, events, t - 1, name);
      TraceKeeps(owner, worlds, events, t - 1);
      StepNeverLoses(owner, worlds[t - 1], events[t - 1], worlds[t], name);
    }
  }

  // ---------------------------------------------------------------- newer copies, interleaved

  /** Nothing a job has still to touch has changed since it was planned. */
  predicate AsPlanned(planned: Files, w: World, key: string, ops: seq<Op>) {
    && key in w.jobs && w.jobs[key].ops == ops
    && forall m :: w.jobs[key].done <= m < |ops| ==> SameFile(planned, w.files, ops[m].path)
  }

  predicate DistinctOps(ops: seq<Op>) {
    forall m, n :: 0 <= m < n < |ops| ==> ops[m].path != ops[n].path
  }

  lemma StepAsPlanned(
    owner: Path -> string, w: World, e: Event, w': World, planned: Files, key: string, ops: seq<Op>)
    requires WorldInv(owner, w) && Step(owner, w, e, w') && DistinctOps(ops)
    requires AsPlanned(planned, w, key, ops) && e != Finish(key) && e != Crash(key)
    ensures AsPlanned(planned, w', key, ops)
  {
    assert JobInv(owner, w.files, key, w.jobs[key]);
    if e.Advance? {
      var job := w.jobs[e.key];
      assert JobInv(owner, w.files, e.key, job);
      forall m | w'.jobs[key].done <= m < |ops|
        ensures SameFile(planned, w'.files, ops[m].path)
      {
        assert ops[m].path != job.ops[job.done].path;
      }
    }
  }

  lemma {:induction false} TraceAsPlanned(
    owner: Path -> string, worlds: seq<World>, events: seq<Event>, t: nat, u: nat, key: string, ops: seq<Op>)
    requires Ownership(owner) && IsTrace(owner, worlds, events) && worlds[0].jobs == map[] && t < u < |worlds|
    requires worlds[t + 1] == worlds[t].(jobs := worlds[t].jobs[key := Job(ops, 0)]) && DistinctOps(ops)
    requires forall v :: t < v < u ==> events[v] != Finish(key) && events[v] != Crash(key)
    ensures AsPlanned(worlds[t].files, worlds[u], key, ops)
    decreases u
  {
    if t + 1 < u {
      TraceAsPlanned(owner, worlds, events, t, u - 1, key, ops);
      TraceKeeps(owner, worlds, events, u - 1);
      StepAsPlanned(owner, worlds[u - 1], events[u - 1], worlds[u], worlds[t].files, key, ops);
    }
  }

  /** A transition touches only the state paths of its file name. */
  lemma TouchesStatePaths(files: Files, req: Request, now: nat, m: nat) returns (k: nat)
    requires TransitionPlan(files, req, now).Ok? && m < |TransitionPlan(files, req, now).value|
    ensures k < 3 && TransitionPlan(files, req, now).value[m].path == StatePaths(req.payload.fileName)[k]
  {
    PlanShape(files, req, now);
    var path := TransitionPlan(files, req, now).value[m].path;
    k := match path.state case InPending => 0 case Cooldown => 1 case Verified => 2;
  }

  /**
    In every interleaving, whatever an accepted sourced transition overwrites or unlinks, however
    late, is still the file it checked under the lock: the source itself, or no newer than it was.
  */
  lemma NewerCopySurvives(
    owner: Path -> string, worlds: seq<World>, events: seq<Event>, t: nat, u: nat, key: string, req: Request, now: nat)
    requires Ownership(owner) && IsTrace(owner, worlds, events) && worlds[0].jobs == map[] && t < u < |events|
    requires events[t] == StartTransition(key, req, now) && TransitionPlan(worlds[t].files, req, now).Ok?
    requires req.source.Some? && events[u] == Advance(key)
    requires forall v :: t < v < u ==> events[v] != Finish(key) && events[v] != Crash(key)
    ensures key in worlds[u].jobs && worlds[u].jobs[key].done < |worlds[u].jobs[key].ops|
    ensures var path, source := worlds[u].jobs[key].ops[worlds[u].jobs[key].done].path, req.source.value;
            && SameFile(worlds[t].files, worlds[u].files, path) && source in worlds[t].files
            && (path in worlds[u].files && path != source ==>
                  worlds[u].files[path].mtime <= worlds[t].files[source].mtime)
  {
    assert Step(owner, worlds[t], events[t], worlds[t + 1]) && Step(owner, worlds[u], events[u], worlds[u + 1]);
    var ops := TransitionPlan(worlds[t].files, req, now).value;
    PlanShape(worlds[t].files, req, now);
    TraceAsPlanned(owner, worlds, events, t, u, key, ops);
    var m := worlds[u].jobs[key].done;
    var k := TouchesStatePaths(worlds[t].files, req, now, m);
    assert CheckSource(worlds[t].files, req).Ok?;
    assert SameFile(worlds[t].files, worlds[u].files, ops[m].path);
    assert !NewerExists(worlds[t].files, req.source.value, req.payload.fileName);
  }

  /** A transition that runs to its end beside other identities' work leaves the one file it wrote. */
  lemma FinishedTransitionIsUnique(owner: Path -> string, w: World, key: string, req: Request, now: nat, k: nat)
    requires WorldInv(owner, w) && key in w.jobs && w.jobs[key].done == |w.jobs[key].ops| && k < 3
    requires var put := Put(Destination(req), File(Some(req.payload), now));
             w.jobs[key].ops == [put] + Unlinks(StatePaths(req.payload.fileName), Destination(req))
    requires req.payload.identity.Some?
    ensures var path := StatePaths(req.payload.fileName)[k];
            && (path in w.files <==> path == Destination(req))
            && (path in w.files ==> w.files[path] == File(Some(req.payload), now))
  {
    assert JobInv(owner, w.files, key, w.jobs[key]);
    PlanShape(map[], req.(source := None), now);
  }

  // ---------------------------------------------------------------- the program itself

  lemma {:induction false} PutFirst(files: Files, put: Op, ops: seq<Op>, k: nat)
    requires k <= |ops|
    ensures ApplyAll(files, ([put] + ops)[..k + 1]) == ApplyAll(Apply(files, put), ops[..k])
    decreases k
  {
    assert ([put] + ops)[..k + 1][..k] == ([put] + ops)[..k];
    if k == 0 {
      assert ([put] + ops)[..0] == [] && ops[..0] == [];
    } else {
      assert ops[..k][..k - 1] == ops[..k - 1];
      PutFirst(files, put, ops, k - 1);
    }
  }

  lemma UnlinkStep(paths: seq<Path>, dest: Path, ops: seq<Op>, k: nat, done: nat)
    requires k < |paths| && done <= |ops| && ops[done..] == Unlinks(paths[k..], dest)
    ensures if paths[k] == dest then ops[done..] == Unlinks(paths[k + 1..], dest)
            else done < |ops| && ops[done] == Remove(paths[k]) && ops[done + 1..] == Unlinks(paths[k + 1..], dest)
  {
    assert paths[k..][1..] == paths[k + 1..];
    if paths[k] != dest {
      assert ops[done] == ops[done..][0];
      assert ops[done + 1..] == ops[done..][1..];
    }
  }

  lemma NextOp(files: Files, ops: seq<Op>, done: nat)
    requires done < |ops|
    ensures ApplyAll(files, ops[..done + 1]) == Apply(ApplyAll(files, ops[..done]), ops[done])
  {
    assert ops[..done + 1][..done] == ops[..done];
  }

  /** The disk; `fuel` counts the operations before a crash. */
  class CredentialStore {
    var files: Files
    var fuel: nat

    /** Performs one operation, or crashes. */
    method Perform(op: Op) returns (alive: bool)
      modifies this
      ensures alive <==> old(fuel) > 0
      ensures alive ==> files == Apply(old(files), op) && fuel == old(fuel) - 1
      ensures !alive ==> files == old(files) && fuel == 0
    {
      if fuel == 0 {
        return false;
      }
      fuel := fuel - 1;
      files := Apply(files, op);
      alive := true;
    }

    method FindNewer(source: Path, name: string) returns (newer: bool)
      requires source in files
      ensures newer <==> NewerExists(files, source, name)
    {
      var paths := StatePaths(name);
      for k: nat := 0 to 3
        invariant forall i :: 0 <= i < k ==>
                    paths[i] == source || paths[i] !in files || files[paths[i]].mtime <= files[source].mtime
      {
        var other := paths[k];
        if other != source && other in files && files[other].mtime > files[source].mtime {
          return true;
        }
      }
      newer := false;
    }

    /** The checks `transition` makes on its source under the lock. */
    method CheckSourceOnDisk(req: Request) returns (r: Result<(), StateError>)
      ensures r == CheckSource(files, req)
    {
      if req.source.None? {
        return Ok(());
      }
      var source := req.source.value;
      if source !in files {
        return Err(SourceChanged);
      }
      if files[source].payload.None? {
        return Err(Unreadable);
      }
      if req.expected.Some? && files[source].payload.value.fingerprint != req.expected.value {
        return Err(SourceChanged);
      }
      var newer := FindNewer(source, req.payload.fileName);
      r := if newer then Err(NewerStateExists) else Ok(());
    }

    /** The unlink loop of `transition`, crashed anywhere. */
    method UnlinkOthers(paths: seq<Path>, dest: Path) returns (alive: bool)
      modifies this
      ensures var ops := Unlinks(paths, dest);
              && (alive <==> old(fuel) >= |ops|)
              && files == ApplyAll(old(files), ops[..if alive then |ops| else old(fuel)])
    {
      ghost var ops := Unlinks(paths, dest);
      ghost var done := 0;
      assert paths[0..] == paths && ops[0..] == ops && ops[..0] == [];
      for k := 0 to |paths|
        invariant done <= |ops| && ops[done..] == Unlinks(paths[k..], dest)
        invariant files == ApplyAll(old(files), ops[..done]) && fuel == old(fuel) - done
      {
        UnlinkStep(paths, dest, ops, k, done);
        if paths[k] != dest {
          NextOp(old(files), ops, done);
          alive := Perform(Remove(paths[k]));
          if !alive {
            return;
          }
          done := done + 1;
        }
      }
      assert ops[..done] == ops;
      alive := true;
    }

    /** `transition`, with a crash after `fuel` operations: the disk shows a prefix of the plan. */
    method Transition(req: Request, now: nat) returns (r: Result<Path, StateError>, alive: bool)
      modifies this
      ensures match TransitionPlan(old(files), req, now)
              case Err(e) => alive && r == Err(e) && files == old(files)
              case Ok(ops) =>
                && r == Ok(Destination(req))
                && (alive <==> old(fuel) >= |ops|)
                && files == ApplyAll(old(files), ops[..if alive then |ops| else old(fuel)])
    {
      if req.payload.identity.None? {
        return Err(NoIdentity), true;
      }
      var checked := CheckSourceOnDisk(req);
      if checked.Err? {
        return Err(checked.error), true;
      }
      var dest := Destination(req);
      r := Ok(dest);
      ghost var put := Put(dest, File(Some(req.payload), now));
      alive := Perform(Put(dest, File(Some(req.payload), now)));
      assert ([put] + Unlinks(StatePaths(req.payload.fileName), dest))[..0] == [];
      if alive {
        ghost var wrote, left := files, fuel;
        alive := UnlinkOthers(StatePaths(req.payload.fileName), dest);
        ghost var unlinks := Unlinks(StatePaths(req.payload.fileName), dest);
        PutFirst(old(files), put, unlinks, if alive then |unlinks| else left);
      }
    }

    /** `replace_if_fingerprint`: compare and swap under the identity lock. */
    method ReplaceIfFingerprint(path: Path, expected: Digest, payload: Payload, now: nat)
      returns (r: Result<bool, StateError>, alive: bool)
      modifies this
      ensures match ReplacePlan(old(files), path, expected, payload, now)
              case Err(e) => alive && r == Err(e) && files == old(files)
              case Ok(ops) =>
                && r == Ok(ops != [])
                && (alive <==> old(fuel) >= |ops|)
                && (alive ==> fuel == old(fuel) - |ops|)
                && files == if alive then ApplyAll(old(files), ops) else old(files)
    {
      if payload.identity.None? {
        return Err(NoIdentity), true;
      }
      if path !in files || files[path].payload.None? {
        return Err(Unreadable), true;
      }
      if files[path].payload.value.fingerprint != expected {
        return Ok(false), true;
      }
      alive := Perform(Put(path, File(Some(payload), now)));
      assert [Put(path, File(Some(payload), now))][..0] == [];
      r := Ok(true);
    }

    /** `delete_if_fingerprint` removes the file only while it still is the one expected. */
    method DeleteIfFingerprint(path: Path, expected: Digest) returns (r: Result<bool, StateError>, alive: bool)
      modifies this
      ensures var current := if path in old(files) then old(files)[path].payload else None;
              if current.None? then alive && r == Err(Unreadable) && files == old(files)
              else if current.value.identity.None? then alive && r == Err(NoIdentity) && files == old(files)
              else if current.value.fingerprint != expected then alive && r == Ok(false) && files == old(files)
              else
                && r == Ok(true) && (alive <==> old(fuel) > 0)
                && files == if alive then old(files) - {path} else old(files)
    {
      if path !in files || files[path].payload.None? {
        return Err(Unreadable), true;
      }
      if files[path].payload.value.identity.None? {
        return Err(NoIdentity), true;
      }
      if files[path].payload.value.fingerprint != expected {
        return Ok(false), true;
      }
      alive := Perform(Remove(path));
      r := Ok(true);
    }
  }
}
