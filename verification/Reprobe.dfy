/**
  The reprobe worker pool of clients/windows/cpa_reprobe.py: what one path's processing does to
  the files and to its counters, and the statistics over all paths.

  A `Script` holds every answer the outside world gives while one path is processed; statements
  for all scripts cover every probe, refresh and push outcome.
*/
module Reprobe {
  import opened Common
  import opened CredentialFiles

  /** `Unstated`: the probe result carries no decision. */
  datatype Decision = Pass | CoolDown | Refresh | Retry | Unstated

  datatype ProbeReply = Answer(decision: Decision, retryable: bool) | ProbeRaises

  datatype RefreshReply = Refreshed(fingerprint: Digest, body: string) | TokenInvalid | RefreshFailed | RefreshRaises

  datatype PushReply = PushAnswer(ok: bool, created: bool, stale: bool) | PushRaises

  datatype Script = Script(
    probe: nat -> ProbeReply, refresh: RefreshReply, reprobe: ProbeReply, push: PushReply, now: nat)

  datatype Options = Options(attempts: nat, remote: bool, pushCooldown: bool, requireCreated: bool)

  /** The checkpoint record of an earlier run, if any. */
  datatype Checkpoint = Checkpoint(pushFingerprint: Option<(Digest, string)>, pushed: Option<bool>, terminal: bool)

  datatype Counters = Counters(
    passed: nat, cooldown: nat, pending: nat, revokedDeleted: nat, revokedPreserved: nat, verifiedSkipped: nat,
    errors: nat, pushed: nat, pushFailed: nat, pushSkipped: nat, staleRejected: nat, terminalSkipped: nat)

  const NO_COUNTS := Counters(0, 0, 0, 0, 0, 0, 0, 0, 0, 0, 0, 0)

  function Add(a: Counters, b: Counters): Counters {
    Counters(
      a.passed + b.passed, a.cooldown + b.cooldown, a.pending + b.pending, a.revokedDeleted + b.revokedDeleted,
      a.revokedPreserved + b.revokedPreserved, a.verifiedSkipped + b.verifiedSkipped, a.errors + b.errors,
      a.pushed + b.pushed, a.pushFailed + b.pushFailed, a.pushSkipped + b.pushSkipped,
      a.staleRejected + b.staleRejected, a.terminalSkipped + b.terminalSkipped)
  }

  function Classified(c: Counters): nat {
    c.passed + c.cooldown + c.pending + c.revokedDeleted + c.revokedPreserved + c.verifiedSkipped
    + c.terminalSkipped + c.errors
  }

  /** What processing a path leaves; `lostPush` marks a push that raised after the path was counted as passed. */
  datatype Outcome = Outcome(files: Files, counters: Counters, lostPush: bool)

  function PushFingerprint(p: Payload): (Digest, string) {
    (p.fingerprint, p.body)
  }

  predicate IsVerified(path: Path) {
    path.In? && path.state.Verified?
  }

  /** The bounded probe loop: only retryable answers to a "retry" decision are probed again. */
  function LastProbe(s: Script, attempts: nat, attempt: nat): ProbeReply
    decreases attempts - attempt
  {
    var reply := s.probe(attempt);
    if reply.Answer? && reply.decision.Retry? && reply.retryable && attempt < attempts
    then LastProbe(s, attempts, attempt + 1)
    else reply
  }

  method ProbeLoop(s: Script, attempts: nat) returns (reply: ProbeReply)
    requires attempts >= 1
    ensures reply == LastProbe(s, attempts, 1)
  {
    var attempt := 1;
    reply := s.probe(1);
    while reply.Answer? && reply.decision.Retry? && reply.retryable && attempt < attempts
      invariant 1 <= attempt <= attempts && reply == s.probe(attempt)
      invariant LastProbe(s, attempts, attempt) == LastProbe(s, attempts, 1)
      decreases attempts - attempt
    {
      attempt := attempt + 1;
      reply := s.probe(attempt);
    }
  }

  function Failed(files: Files): Outcome {
    Outcome(files, NO_COUNTS.(errors := 1), false)
  }

  /** `cpa.transition` of the processed path, or the exception it raises. */
  function Move(files: Files, path: Path, payload: Payload, target: State, now: nat): Result<Files, StateError> {
    match TransitionPlan(files, Request(payload, target, Some(path), Some(payload.fingerprint)), now)
    case Err(e) => Err(e)
    case Ok(ops) => Ok(ApplyAll(files, ops))
  }

  function AfterPass(files: Files, path: Path, payload: Payload, o: Options, s: Script): Outcome {
    var moved := if IsVerified(path) then Ok(files) else Move(files, path, payload, Verified, s.now);
    match moved
    case Err(_) => Failed(files)
    case Ok(files') =>
      var counted := NO_COUNTS.(passed := 1);
      if !o.remote then Outcome(files', counted.(pushSkipped := 1), false)
      else
        match s.push
        case PushRaises => Outcome(files', counted.(errors := 1), true)
        case PushAnswer(ok, created, stale) =>
          var accepted := ok && (o.requireCreated ==> created);
          var refusedAsNotCreated := ok && !accepted;
          var marked := if accepted then counted.(pushed := 1) else counted.(pushFailed := 1);
          Outcome(files', if stale && !refusedAsNotCreated then marked.(staleRejected := 1) else marked, false)
  }

  function AfterCooldown(files: Files, path: Path, payload: Payload, o: Options, s: Script): Outcome {
    var pushing := o.pushCooldown && o.remote;
    if pushing && s.push.PushRaises? then Failed(files)
    else
      var pushed := pushing && s.push.ok;
      var counted := if pushing && s.push.stale then NO_COUNTS.(staleRejected := 1) else NO_COUNTS;
      if pushed then
        match Move(files, path, payload, Verified, s.now)
        case Err(_) => Outcome(files, counted.(errors := 1), false)
        case Ok(files') => Outcome(files', counted.(passed := 1, pushed := 1), false)
      else
        var moved := if IsVerified(path) then Ok(files) else Move(files, path, payload, Cooldown, s.now);
        match moved
        case Err(_) => Outcome(files, counted.(errors := 1), false)
        case Ok(files') => Outcome(files', counted.(cooldown := 1, pushFailed := if pushing then 1 else 0), false)
  }

  function AfterNeither(files: Files, path: Path, payload: Payload, s: Script): Outcome {
    var moved := if IsVerified(path) then Ok(files) else Move(files, path, payload, InPending, s.now);
    match moved
    case Err(_) => Failed(files)
    case Ok(files') => Outcome(files', NO_COUNTS.(pending := 1), false)
  }

  function Decide(files: Files, path: Path, payload: Payload, decision: Decision, o: Options, s: Script): Outcome {
    match decision
    case Pass => AfterPass(files, path, payload, o, s)
    case CoolDown => AfterCooldown(files, path, payload, o, s)
    case _ => AfterNeither(files, path, payload, s)
  }

  /** The refresh branch: swap in the new credential, probe once more, decide. */
  function AfterRefresh(files: Files, path: Path, payload: Payload, o: Options, s: Script): Outcome {
    match s.refresh
    case RefreshRaises => Failed(files)
    case TokenInvalid => Outcome(files, NO_COUNTS.(revokedPreserved := 1), false)
    case RefreshFailed => Decide(files, path, payload, Refresh, o, s)
    case Refreshed(fingerprint, body) =>
      var renewed := payload.(fingerprint := fingerprint, body := body);
      match ReplacePlan(files, path, payload.fingerprint, renewed, s.now)
      case Err(_) => Failed(files)
      case Ok(ops) =>
        if ops == [] then Failed(files)
        else if s.reprobe.ProbeRaises? then Failed(ApplyAll(files, ops))
        else Decide(ApplyAll(files, ops), path, renewed, s.reprobe.decision, o, s)
  }

  /** Probe, refresh if asked to, decide. */
  function Attempt(files: Files, path: Path, payload: Payload, o: Options, s: Script): Outcome {
    match LastProbe(s, o.attempts, 1)
    case ProbeRaises => Failed(files)
    case Answer(decision, _) =>
      match decision
      case Unstated => Failed(files)
      case Refresh => AfterRefresh(files, path, payload, o, s)
      case _ => Decide(files, path, payload, decision, o, s)
  }

  predicate Seen(past: Checkpoint, payload: Payload) {
    past.pushFingerprint == Some(PushFingerprint(payload))
  }

  /** `process_locked`: what the checkpoint settles without probing, or an attempt. */
  function Process(files: Files, path: Path, past: Checkpoint, o: Options, s: Script): Outcome {
    if path !in files || files[path].payload.None? || files[path].payload.value.identity.None? then Failed(files)
    else
      var payload := files[path].payload.value;
      var seen := Seen(past, payload);
      if past.terminal && seen then Outcome(files, NO_COUNTS.(terminalSkipped := 1, pushSkipped := 1), false)
      else if IsVerified(path) && seen && past.pushed == Some(true) then
        Outcome(files, NO_COUNTS.(passed := 1, pushSkipped := 1), false)
      else if IsVerified(path) && !(seen && past.pushed == Some(false)) then
        Outcome(files, NO_COUNTS.(verifiedSkipped := 1, pushSkipped := 1), false)
      else Attempt(files, path, payload, o, s)
  }

  // ---------------------------------------------------------------- the program itself

  /** No crash while one path is processed: a swap and a transition are at most four operations. */
  const OPERATIONS := 4

  /** Moves the processed path on disk, unless it is verified and stays put. */
  method MoveOnDisk(store: CredentialStore, path: Path, payload: Payload, target: State, now: nat, stay: bool)
    returns (ok: bool)
    requires store.fuel >= 3
    modifies store
    ensures var moved := if stay then Ok(old(store.files)) else Move(old(store.files), path, payload, target, now);
            && (ok <==> moved.Ok?)
            && store.files == if ok then moved.value else old(store.files)
  {
    if stay {
      return true;
    }
    var req := Request(payload, target, Some(path), Some(payload.fingerprint));
    ghost var plan := TransitionPlan(store.files, req, now);
    if plan.Ok? {
      PlanShape(store.files, req, now);
      assert plan.value[..|plan.value|] == plan.value;
    }
    var r, alive := store.Transition(req, now);
    ok := r.Ok?;
  }

  /** The branches on the probe's decision. */
  method DecideOnDisk(store: CredentialStore, path: Path, payload: Payload, decision: Decision, o: Options, s: Script)
    returns (result: Counters, lostPush: bool)
    requires store.fuel >= 3
    modifies store
    ensures Outcome(store.files, result, lostPush) == Decide(old(store.files), path, payload, decision, o, s)
  {
    result, lostPush := NO_COUNTS, false;
    var isVerified := IsVerified(path);
    match decision
    case Pass =>
      var moved := MoveOnDisk(store, path, payload, Verified, s.now, isVerified);
      if !moved {
        return result.(errors := 1), false;
      }
      result := result.(passed := 1);
      if !o.remote {
        return result.(pushSkipped := 1), false;
      }
      if s.push.PushRaises? {
        return result.(errors := 1), true;
      }
      var notCreated := s.push.ok && o.requireCreated && !s.push.created;
      var ok := s.push.ok && !notCreated;
      result := if ok then result.(pushed := 1) else result.(pushFailed := 1);
      if s.push.stale && !notCreated {
        result := result.(staleRejected := 1);
      }
    case CoolDown =>
      var pushing, pushed := o.pushCooldown && o.remote, false;
      if pushing {
        if s.push.PushRaises? {
          return result.(errors := 1), false;
        }
        pushed := s.push.ok;
        if s.push.stale {
          result := result.(staleRejected := 1);
        }
      }
      var target := if pushed then Verified else Cooldown;
      var moved := MoveOnDisk(store, path, payload, target, s.now, isVerified && !pushed);
      if !moved {
        return result.(errors := 1), false;
      }
      result := if pushed then result.(passed := 1, pushed := 1)
      else result.(cooldown := 1, pushFailed := if pushing then 1 else 0);
    case _ =>
      var moved := MoveOnDisk(store, path, payload, InPending, s.now, isVerified);
      if !moved {
        return result.(errors := 1), false;
      }
      result := result.(pending := 1);
  }

  /** `process_locked` */
  method ProcessLocked(store: CredentialStore, path: Path, past: Checkpoint, o: Options, s: Script)
    returns (result: Counters, lostPush: bool)
    requires store.fuel >= OPERATIONS && o.attempts >= 1
    modifies store
    ensures Outcome(store.files, result, lostPush) == Process(old(store.files), path, past, o, s)
  {
    result, lostPush := NO_COUNTS, false;
    if path !in store.files || store.files[path].payload.None? || store.files[path].payload.value.identity.None? {
      return result.(errors := 1), false;
    }
    var payload := store.files[path].payload.value;
    var seen, isVerified := Seen(past, payload), IsVerified(path);
    if past.terminal && seen {
      return result.(terminalSkipped := 1, pushSkipped := 1), false;
    }
    if isVerified {
      if seen && past.pushed == Some(true) {
        return result.(passed := 1, pushSkipped := 1), false;
      }
      if !seen || past.pushed != Some(false) {
        return result.(verifiedSkipped := 1, pushSkipped := 1), false;
      }
    }
    var probe := ProbeLoop(s, o.attempts);
    if probe.ProbeRaises? || probe.decision.Unstated? {
      return result.(errors := 1), false;
    }
    if probe.decision.Refresh? {
      result, lostPush := RefreshOnDisk(store, path, payload, o, s);
    } else {
      result, lostPush := DecideOnDisk(store, path, payload, probe.decision, o, s);
    }
  }

  /** The refresh branch of `process_locked`. */
  method RefreshOnDisk(store: CredentialStore, path: Path, payload: Payload, o: Options, s: Script)
    returns (result: Counters, lostPush: bool)
    requires store.fuel >= OPERATIONS
    modifies store
    ensures Outcome(store.files, result, lostPush) == AfterRefresh(old(store.files), path, payload, o, s)
  {
    result, lostPush := NO_COUNTS, false;
    match s.refresh
    case RefreshRaises => result := result.(errors := 1);
    case TokenInvalid => result := result.(revokedPreserved := 1);
    case RefreshFailed => result, lostPush := DecideOnDisk(store, path, payload, Refresh, o, s);
    case Refreshed(fingerprint, body) =>
      var renewed := payload.(fingerprint := fingerprint, body := body);
      var swapped, alive := store.ReplaceIfFingerprint(path, payload.fingerprint, renewed, s.now);
      if swapped != Ok(true) || s.reprobe.ProbeRaises? {
        return result.(errors := 1), false;
      }
      result, lostPush := DecideOnDisk(store, path, renewed, s.reprobe.decision, o, s);
  }

  // ---------------------------------------------------------------- statistics

  /** One class per path, or passed and error together when the push raised after the count. */
  predicate CountedOnce(r: Outcome) {
    && Classified(r.counters) == 1 + (if r.lostPush then 1 else 0)
    && r.counters.pushed + r.counters.pushFailed + r.counters.pushSkipped <= 1
    && (r.lostPush ==> r.counters.passed == 1 && r.counters.errors == 1)
  }

  lemma DecidedOnce(files: Files, path: Path, payload: Payload, decision: Decision, o: Options, s: Script)
    ensures CountedOnce(Decide(files, path, payload, decision, o, s))
  {
    match decision
    case Pass => assert CountedOnce(AfterPass(files, path, payload, o, s));
    case CoolDown => assert CountedOnce(AfterCooldown(files, path, payload, o, s));
    case _ => assert CountedOnce(AfterNeither(files, path, payload, s));
  }

  lemma SwapApplied(files: Files, path: Path, file: File)
    ensures ApplyAll(files, [Put(path, file)]) == files[path := file]
  {
    assert [Put(path, file)][..0] == [];
  }

  lemma RefreshedOnce(files: Files, path: Path, payload: Payload, o: Options, s: Script)
    ensures CountedOnce(AfterRefresh(files, path, payload, o, s))
  {
    match s.refresh
    case RefreshRaises =>
    case TokenInvalid =>
    case RefreshFailed => DecidedOnce(files, path, payload, Refresh, o, s);
    case Refreshed(fingerprint, body) =>
      var renewed := payload.(fingerprint := fingerprint, body := body);
      var swap := ReplacePlan(files, path, payload.fingerprint, renewed, s.now);
      if swap.Ok? && s.reprobe.Answer? {
        DecidedOnce(ApplyAll(files, swap.value), path, renewed, s.reprobe.decision, o, s);
      }
  }

  lemma AttemptedOnce(files: Files, path: Path, payload: Payload, o: Options, s: Script)
    ensures CountedOnce(Attempt(files, path, payload, o, s))
  {
    match LastProbe(s, o.attempts, 1)
    case ProbeRaises =>
    case Answer(decision, _) =>
      RefreshedOnce(files, path, payload, o, s);
      DecidedOnce(files, path, payload, decision, o, s);
  }

  /** Each path is counted in exactly one class, except when its push raised after it had passed. */
  lemma ProcessedOnce(files: Files, path: Path, past: Checkpoint, o: Options, s: Script)
    ensures CountedOnce(Process(files, path, past, o, s))
  {
    if path in files && files[path].payload.Some? {
      AttemptedOnce(files, path, files[path].payload.value, o, s);
    }
  }

  function Total(results: seq<Outcome>): Counters
    decreases |results|
  {
    if results == [] then NO_COUNTS else Add(Total(results[..|results| - 1]), results[|results| - 1].counters)
  }

  /** Every statistic is the sum of the workers' counters of that name. */
  lemma TotalsAdd(results: seq<Outcome>, r: Outcome)
    ensures var t, t', c := Total(results), Total(results + [r]), r.counters;
            && t'.passed == t.passed + c.passed && t'.cooldown == t.cooldown + c.cooldown
            && t'.pending == t.pending + c.pending && t'.revokedDeleted == t.revokedDeleted + c.revokedDeleted
            && t'.revokedPreserved == t.revokedPreserved + c.revokedPreserved
            && t'.verifiedSkipped == t.verifiedSkipped + c.verifiedSkipped && t'.errors == t.errors + c.errors
            && t'.pushed == t.pushed + c.pushed && t'.pushFailed == t.pushFailed + c.pushFailed
            && t'.pushSkipped == t.pushSkipped + c.pushSkipped
            && t'.staleRejected == t.staleRejected + c.staleRejected
            && t'.terminalSkipped == t.terminalSkipped + c.terminalSkipped
  {
    assert (results + [r])[..|results|] == results;
  }

  function LostPushes(results: seq<Outcome>): nat
    decreases |results|
  {
    if results == [] then 0
    else LostPushes(results[..|results| - 1]) + (if results[|results| - 1].lostPush then 1 else 0)
  }

  /** A worker's result: a processed path, or the error of one whose operation lock timed out. */
  ghost predicate FromWorker(r: Outcome) {
    || (exists files, path, past, o, s :: r == Process(files, path, past, o, s))
    || (exists files :: r == Failed(files))
  }

  /** The statistics over all paths, in whatever order the workers finish. */
  lemma {:induction false} ClassifiedTotal(results: seq<Outcome>)
    requires forall k :: 0 <= k < |results| ==> FromWorker(results[k])
    ensures Classified(Total(results)) == |results| + LostPushes(results)
    decreases |results|
  {
    if results != [] {
      var last := results[|results| - 1];
      ClassifiedTotal(results[..|results| - 1]);
      assert FromWorker(last);
      if exists files, path, past, o, s :: last == Process(files, path, past, o, s) {
        var files, path, past, o, s :| last == Process(files, path, past, o, s);
        ProcessedOnce(files, path, past, o, s);
      }
    }
  }

  lemma {:induction false} NoLostPush(results: seq<Outcome>)
    ensures LostPushes(results) == 0 <==> forall k :: 0 <= k < |results| ==> !results[k].lostPush
    decreases |results|
  {
    if results != [] {
      var before := results[..|results| - 1];
      NoLostPush(before);
      assert forall k :: 0 <= k < |before| ==> before[k] == results[k];
      if LostPushes(results) == 0 {
        forall k | 0 <= k < |results| ensures !results[k].lostPush {
          if k < |before| {
            assert !before[k].lostPush;
          }
        }
      }
    }
  }

  /** The end of `run`: it returns the totals exactly when no push raised after its path had passed. */
  method Tally(results: seq<Outcome>) returns (r: Result<Counters, string>)
    requires forall k :: 0 <= k < |results| ==> FromWorker(results[k])
    ensures r.Ok? <==> forall k :: 0 <= k < |results| ==> !results[k].lostPush
    ensures r.Ok? ==> r.value == Total(results) && Classified(r.value) == |results|
  {
    var stats := NO_COUNTS;
    for k := 0 to |results|
      invariant stats == Total(results[..k])
    {
      assert results[..k + 1][..k] == results[..k];
      stats := Add(stats, results[k].counters);
    }
    assert results[..|results|] == results;
    ClassifiedTotal(results);
    NoLostPush(results);
    if Classified(stats) != |results| {
      return Err("statistics invariant failed");
    }
    r := Ok(stats);
  }

  // ---------------------------------------------------------------- what each answer leads to

  /** The probe that is acted upon: all before it asked for a retry and could be retried, and it is the
      first that did not, or the last allowed. */
  lemma {:induction false} LastProbeIs(s: Script, attempts: nat, attempt: nat) returns (n: nat)
    requires attempt <= attempts
    ensures attempt <= n <= attempts && LastProbe(s, attempts, attempt) == s.probe(n)
    ensures forall m :: attempt <= m < n ==> s.probe(m) == Answer(Retry, true)
    ensures n < attempts ==> s.probe(n) != Answer(Retry, true)
    decreases attempts - attempt
  {
    n := attempt;
    if s.probe(attempt) == Answer(Retry, true) && attempt < attempts {
      n := LastProbeIs(s, attempts, attempt + 1);
    }
  }

  predicate Readable(files: Files, path: Path) {
    path in files && files[path].payload.Some? && files[path].payload.value.identity.Some?
  }

  /** The credential after a successful refresh. */
  function Renewed(payload: Payload, refresh: RefreshReply): Payload
    requires refresh.Refreshed?
  {
    payload.(fingerprint := refresh.fingerprint, body := refresh.body)
  }

  /** What the checkpoint settles without a probe, and nothing on disk changes. */
  lemma CheckpointSettles(files: Files, path: Path, past: Checkpoint, o: Options, s: Script)
    requires Readable(files, path)
    ensures var r, payload := Process(files, path, past, o, s), files[path].payload.value;
            var seen := past.pushFingerprint == Some((payload.fingerprint, payload.body));
            && (past.terminal && seen ==>
                  r == Outcome(files, NO_COUNTS.(terminalSkipped := 1, pushSkipped := 1), false))
            && (!(past.terminal && seen) && IsVerified(path) && seen && past.pushed == Some(true) ==>
                  r == Outcome(files, NO_COUNTS.(passed := 1, pushSkipped := 1), false))
            && (!(past.terminal && seen) && IsVerified(path) && (!seen || past.pushed == None) ==>
                  r == Outcome(files, NO_COUNTS.(verifiedSkipped := 1, pushSkipped := 1), false))
  {
  }

  /** The path still has to be probed: an unverified file the checkpoint does not call terminal, or a
      verified one whose last push failed. */
  predicate Probed(files: Files, path: Path, past: Checkpoint) {
    && Readable(files, path)
    && var payload := files[path].payload.value;
       var seen := past.pushFingerprint == Some((payload.fingerprint, payload.body));
       && !(past.terminal && seen) && (IsVerified(path) ==> seen && past.pushed == Some(false))
  }

  /** The decision that is acted upon, with the credential and the files it is acted upon with. */
  ghost predicate Judged(
      files: Files, path: Path, o: Options, s: Script, decision: Decision,
    files': Files, payload': Payload)
    requires Readable(files, path)
  {
    var probe, payload := LastProbe(s, o.attempts, 1), files[path].payload.value;
    || (probe.Answer? && probe.decision == decision && decision in {Pass, CoolDown, Retry}
        && files' == files && payload' == payload)
    || (probe.Answer? && probe.decision.Refresh? && s.refresh.RefreshFailed? && decision == Refresh
        && files' == files && payload' == payload)
    || (probe.Answer? && probe.decision.Refresh? && s.refresh.Refreshed? && s.reprobe.Answer?
        && decision == s.reprobe.decision
        && payload' == Renewed(payload, s.refresh)
        && files' == files[path := File(Some(payload'), s.now)])
  }

  lemma JudgedDecides(
    files: Files, path: Path, past: Checkpoint, o: Options, s: Script, decision: Decision,
    files': Files, payload': Payload)
    requires Probed(files, path, past) && Judged(files, path, o, s, decision, files', payload')
    ensures Process(files, path, past, o, s) == Decide(files', path, payload', decision, o, s)
    ensures Readable(files', path) && files'[path].payload == Some(payload')
  {
    var payload := files[path].payload.value;
    if s.refresh.Refreshed? {
      SwapApplied(files, path, File(Some(Renewed(payload, s.refresh)), s.now));
    }
  }

  /** Without a decision the files stay, except for a credential that was refreshed and not probed again. */
  lemma NothingDecided(files: Files, path: Path, past: Checkpoint, o: Options, s: Script)
    requires Probed(files, path, past)
    ensures var r, probe := Process(files, path, past, o, s), LastProbe(s, o.attempts, 1);
            var failed := NO_COUNTS.(errors := 1);
            && (probe.ProbeRaises? || probe.decision.Unstated? ==> r == Outcome(files, failed, false))
            && (probe.Answer? && probe.decision.Refresh? ==>
                  && (s.refresh.RefreshRaises? ==> r == Outcome(files, failed, false))
                  && (s.refresh.TokenInvalid? ==> r == Outcome(files, NO_COUNTS.(revokedPreserved := 1), false))
                  && (s.refresh.Refreshed? && s.reprobe.ProbeRaises? ==>
                        && r.counters == failed && r.files.Keys == files.Keys
                        && forall p :: p in files && p != path ==> r.files[p] == files[p]))
  {
    if s.refresh.Refreshed? {
      var payload := files[path].payload.value;
      SwapApplied(files, path, File(Some(Renewed(payload, s.refresh)), s.now));
    }
  }

  /** The name is in this state directory, with this payload, and in no other. */
  predicate OnlyIn(files: Files, state: State, payload: Payload) {
    forall k :: 0 <= k < 3 ==>
      var path := StatePaths(payload.fileName)[k];
      && (path in files <==> path == In(state, payload.fileName))
      && (path in files ==> files[path].payload == Some(payload))
  }

  /** No other copy is newer than the processed file. */
  predicate Newest(files: Files, path: Path, payload: Payload) {
    !NewerExists(files, path, payload.fileName)
  }

  lemma MoveExactly(files: Files, path: Path, payload: Payload, target: State, now: nat)
    requires Readable(files, path) && files[path].payload == Some(payload)
    ensures Move(files, path, payload, target, now).Ok? <==> Newest(files, path, payload)
    ensures Newest(files, path, payload) ==> OnlyIn(Move(files, path, payload, target, now).value, target, payload)
  {
    var req := Request(payload, target, Some(path), Some(payload.fingerprint));
    if Newest(files, path, payload) {
      forall k: nat | k < 3
        ensures var p, after := StatePaths(payload.fileName)[k], ApplyAll(files, TransitionPlan(files, req, now).value);
                && (p in after <==> p == In(target, payload.fileName))
                && (p in after ==> after[p].payload == Some(payload))
      {
        FinallyUnique(files, req, now, k);
      }
    }
  }

  /** The push of a passed credential was accepted; a bridge that did not create the account may not count. */
  predicate PushCounts(o: Options, s: Script) {
    s.push.PushAnswer? && s.push.ok && (o.requireCreated ==> s.push.created)
  }

  /** The credential is where its state says: moved there, or left in place when it is verified already. */
  predicate Settled(files: Files, path: Path, payload: Payload, files': Files, target: State) {
    if IsVerified(path) then files' == files else OnlyIn(files', target, payload)
  }

  /** A credential that passes becomes verified, is pushed when there is a bridge, and is counted once. */
  lemma PassOutcome(
    files: Files, path: Path, past: Checkpoint, o: Options, s: Script, files': Files, payload': Payload)
    requires Probed(files, path, past) && Judged(files, path, o, s, Pass, files', payload')
    ensures var r := Process(files, path, past, o, s);
            var answered := o.remote && s.push.PushAnswer?;
            if !IsVerified(path) && !Newest(files', path, payload') then
              r == Outcome(files', NO_COUNTS.(errors := 1), false)
            else
              && Settled(files', path, payload', r.files, Verified)
              && r.lostPush == (o.remote && s.push.PushRaises?)
              && r.counters == NO_COUNTS.(
                   passed := 1,
                   errors := if o.remote && s.push.PushRaises? then 1 else 0,
                   pushSkipped := if o.remote then 0 else 1,
                   pushed := if o.remote && PushCounts(o, s) then 1 else 0,
                   pushFailed := if answered && !PushCounts(o, s) then 1 else 0,
                   staleRejected := if answered && s.push.stale && (s.push.ok ==> PushCounts(o, s)) then 1 else 0)
  {
    JudgedDecides(files, path, past, o, s, Pass, files', payload');
    MoveExactly(files', path, payload', Verified, s.now);
  }

  /** An exhausted credential goes to cooldown, or to the verified ones when the bridge takes it. */
  lemma CooldownOutcome(
    files: Files, path: Path, past: Checkpoint, o: Options, s: Script, files': Files, payload': Payload)
    requires Probed(files, path, past) && Judged(files, path, o, s, CoolDown, files', payload')
    ensures var r, pushing := Process(files, path, past, o, s), o.pushCooldown && o.remote;
            var stale := if pushing && s.push.PushAnswer? && s.push.stale then 1 else 0;
            && !r.lostPush
            && (pushing && s.push.PushRaises? ==> r == Outcome(files', NO_COUNTS.(errors := 1), false))
            && (pushing && s.push.PushAnswer? && s.push.ok ==>
                  if Newest(files', path, payload') then
                    && OnlyIn(r.files, Verified, payload')
                    && r.counters == NO_COUNTS.(passed := 1, pushed := 1, staleRejected := stale)
                  else r == Outcome(files', NO_COUNTS.(errors := 1, staleRejected := stale), false))
            && (!pushing || (s.push.PushAnswer? && !s.push.ok) ==>
                  if IsVerified(path) || Newest(files', path, payload') then
                    && Settled(files', path, payload', r.files, Cooldown)
                    && r.counters ==
                         NO_COUNTS.(cooldown := 1, pushFailed := if pushing then 1 else 0, staleRejected := stale)
                  else r == Outcome(files', NO_COUNTS.(errors := 1, staleRejected := stale), false))
  {
    JudgedDecides(files, path, past, o, s, CoolDown, files', payload');
    MoveExactly(files', path, payload', Verified, s.now);
    MoveExactly(files', path, payload', Cooldown, s.now);
  }

  /** Everything else is pending, and a verified file stays where it is. */
  lemma PendingOutcome(
    files: Files, path: Path, past: Checkpoint, o: Options, s: Script, decision: Decision,
    files': Files, payload': Payload)
    requires Probed(files, path, past) && Judged(files, path, o, s, decision, files', payload')
    requires decision in {Refresh, Retry, Unstated}
    ensures var r := Process(files, path, past, o, s);
            if IsVerified(path) || Newest(files', path, payload') then
              && Settled(files', path, payload', r.files, InPending)
              && r.counters == NO_COUNTS.(pending := 1) && !r.lostPush
            else r == Outcome(files', NO_COUNTS.(errors := 1), false)
  {
    JudgedDecides(files, path, past, o, s, decision, files', payload');
    MoveExactly(files', path, payload', InPending, s.now);
  }

  /** The name is in this state directory and in no other. */
  predicate NameOnlyIn(files: Files, state: State, name: string) {
    forall k :: 0 <= k < 3 ==> (StatePaths(name)[k] in files <==> StatePaths(name)[k] == In(state, name))
  }

  /** For every script: the class an unverified path is counted in tells where its file is. */
  lemma ClassTellsDirectory(files: Files, path: Path, past: Checkpoint, o: Options, s: Script)
    requires Readable(files, path) && !IsVerified(path)
    ensures var r, name := Process(files, path, past, o, s), files[path].payload.value.fileName;
            && (r.counters.passed == 1 ==> NameOnlyIn(r.files, Verified, name))
            && (r.counters.cooldown == 1 ==> NameOnlyIn(r.files, Cooldown, name))
            && (r.counters.pending == 1 ==> NameOnlyIn(r.files, InPending, name))
  {
    if Probed(files, path, past) {
      ProbedTellsDirectory(files, path, past, o, s);
    } else {
      CheckpointSettles(files, path, past, o, s);
    }
  }

  lemma ProbedTellsDirectory(files: Files, path: Path, past: Checkpoint, o: Options, s: Script)
    requires Probed(files, path, past) && !IsVerified(path)
    ensures var r, name := Process(files, path, past, o, s), files[path].payload.value.fileName;
            && (r.counters.passed == 1 ==> NameOnlyIn(r.files, Verified, name))
            && (r.counters.cooldown == 1 ==> NameOnlyIn(r.files, Cooldown, name))
            && (r.counters.pending == 1 ==> NameOnlyIn(r.files, InPending, name))
  {
    var probe, payload := LastProbe(s, o.attempts, 1), files[path].payload.value;
    NothingDecided(files, path, past, o, s);
    if probe.Answer? && probe.decision in {Pass, CoolDown, Retry} {
      DecisionTellsDirectory(files, path, past, o, s, probe.decision, files, payload);
    } else if probe.Answer? && probe.decision.Refresh? && s.refresh.RefreshFailed? {
      DecisionTellsDirectory(files, path, past, o, s, Refresh, files, payload);
    } else if probe.Answer? && probe.decision.Refresh? && s.refresh.Refreshed? && s.reprobe.Answer? {
      var renewed := Renewed(payload, s.refresh);
      var swapped := files[path := File(Some(renewed), s.now)];
      DecisionTellsDirectory(files, path, past, o, s, s.reprobe.decision, swapped, renewed);
    }
  }

  lemma DecisionTellsDirectory(
    files: Files, path: Path, past: Checkpoint, o: Options, s: Script, decision: Decision,
    files': Files, payload': Payload)
    requires Probed(files, path, past) && !IsVerified(path)
    requires Judged(files, path, o, s, decision, files', payload')
    ensures var r, name := Process(files, path, past, o, s), payload'.fileName;
            && (r.counters.passed == 1 ==> NameOnlyIn(r.files, Verified, name))
            && (r.counters.cooldown == 1 ==> NameOnlyIn(r.files, Cooldown, name))
            && (r.counters.pending == 1 ==> NameOnlyIn(r.files, InPending, name))
  {
    match decision
    case Pass => PassOutcome(files, path, past, o, s, files', payload');
    case CoolDown => CooldownOutcome(files, path, past, o, s, files', payload');
    case _ => PendingOutcome(files, path, past, o, s, decision, files', payload');
  }

  // ---------------------------------------------------------------- which files survive

  lemma PlanKeeps(files: Files, req: Request, now: nat, p: Path)
    requires TransitionPlan(files, req, now).Ok? && p in files
    requires (forall k :: 0 <= k < 3 ==> StatePaths(req.payload.fileName)[k] != p) || p == Destination(req)
    ensures p in ApplyAll(files, TransitionPlan(files, req, now).value)
  {
    var ops := TransitionPlan(files, req, now).value;
    PlanShape(files, req, now);
    PlanProgress(files, ops, 3);
    assert ops[..3] == ops;
    if p != Destination(req) {
      forall m | 0 <= m < 3 ensures ops[m].path != p {
        var at := match ops[m].path.state case InPending => 0 case Cooldown => 1 case Verified => 2;
        assert StatePaths(req.payload.fileName)[at] == ops[m].path;
      }
    }
  }

  /** Moves of a verified path only ever go back into the verified directory. */
  lemma DecideKeepsVerified(
      files: Files, path: Path, payload: Payload, decision: Decision, o: Options, s: Script, name: string)
    requires In(Verified, name) in files && (IsVerified(path) || name != payload.fileName)
    ensures In(Verified, name) in Decide(files, path, payload, decision, o, s).files
  {
    forall target: State | Move(files, path, payload, target, s.now).Ok? && (IsVerified(path) ==> target == Verified)
      ensures In(Verified, name) in Move(files, path, payload, target, s.now).value
    {
      var req := Request(payload, target, Some(path), Some(payload.fingerprint));
      if name == payload.fileName {
        assert Destination(req) == In(Verified, name);
      }
      PlanKeeps(files, req, s.now, In(Verified, name));
    }
  }

  lemma ProcessKeepsVerified(files: Files, path: Path, past: Checkpoint, o: Options, s: Script, name: string)
    requires In(Verified, name) in files
    requires path in files && files[path].payload.Some?
    requires IsVerified(path) || name != files[path].payload.value.fileName
    ensures In(Verified, name) in Process(files, path, past, o, s).files
  {
    var payload := files[path].payload.value;
    forall decision {
      DecideKeepsVerified(files, path, payload, decision, o, s, name);
    }
    if s.refresh.Refreshed? {
      var renewed := payload.(fingerprint := s.refresh.fingerprint, body := s.refresh.body);
      var swap := [Put(path, File(Some(renewed), s.now))];
      SwapApplied(files, path, File(Some(renewed), s.now));
      forall decision {
        DecideKeepsVerified(ApplyAll(files, swap), path, renewed, decision, o, s, name);
      }
    }
  }

  predicate Skipped(path: Path, past: Checkpoint, payload: Payload) {
    past.terminal && Seen(past, payload)
  }

  function MtimeOf(files: Files, p: Path): nat {
    if p in files then files[p].mtime else 0
  }

  /** A run in which the credential is refreshed and then found exhausted. */
  function ExhaustedAfterRefresh(files: Files, name: string): Script {
    Script(
      (attempt: nat) => Answer(Refresh, false),
      Refreshed("renewed", "renewed"),
      Answer(CoolDown, false),
      PushAnswer(false, false, false),
      MtimeOf(files, In(InPending, name)) + MtimeOf(files, In(Cooldown, name)) + MtimeOf(files, In(Verified, name)))
  }

  lemma DuplicateDisplacesVerified(files: Files, path: Path, past: Checkpoint, o: Options)
    requires path in files && files[path].payload.Some? && !IsVerified(path)
    requires files[path].payload.value.identity.Some? && !Skipped(path, past, files[path].payload.value)
    ensures var name := files[path].payload.value.fileName;
            In(Verified, name) !in Process(files, path, past, o, ExhaustedAfterRefresh(files, name)).files
  {
    var payload := files[path].payload.value;
    var name := payload.fileName;
    var s := ExhaustedAfterRefresh(files, name);
    var renewed := payload.(fingerprint := "renewed", body := "renewed");
    var swap := [Put(path, File(Some(renewed), s.now))];
    SwapApplied(files, path, File(Some(renewed), s.now));
    var files' := ApplyAll(files, swap);
    var req := Request(renewed, Cooldown, Some(path), Some(renewed.fingerprint));
    assert forall k :: 0 <= k < 3 ==> StatePaths(name)[k] in files' ==> files'[StatePaths(name)[k]].mtime <= s.now;
    assert TransitionPlan(files', req, s.now).Ok?;
    FinallyUnique(files', req, s.now, 2);
    assert StatePaths(name)[2] == In(Verified, name);
    assert LastProbe(s, o.attempts, 1) == Answer(Refresh, false);
    assert ReplacePlan(files, path, payload.fingerprint, renewed, s.now) == Ok(swap);
  }

  // ---------------------------------------------------------------- a whole run

  /** A selected path and its checkpoint record. */
  datatype Work = Work(path: Path, past: Checkpoint)

  /** The files after the works, in the order the workers take them. */
  function Sweep(files: Files, works: seq<Work>, o: Options, scripts: seq<Script>): Files
    requires |works| == |scripts|
    decreases |works|
  {
    if works == [] then files
    else Sweep(Process(files, works[0].path, works[0].past, o, scripts[0]).files, works[1..], o, scripts[1..])
  }

  /** An unverified duplicate of the name that the checkpoint does not settle. */
  predicate AtRisk(files: Files, w: Work, name: string) {
    && w.path in files && files[w.path].payload.Some? && files[w.path].payload.value.identity.Some?
    && !IsVerified(w.path) && files[w.path].payload.value.fileName == name
    && !Skipped(w.path, w.past, files[w.path].payload.value)
  }

  /** What processing a payload may leave at a path: the file that was there, or the payload under its own name. */
  predicate Touched(files: Files, files': Files, fileName: string, verifiedOnly: bool, p: Path) {
    p in files' ==>
      || SameFile(files, files', p)
      || (files'[p].payload.Some? && files'[p].payload.value.fileName == fileName && (verifiedOnly ==> IsVerified(p)))
  }

  lemma MoveTouches(files: Files, path: Path, payload: Payload, target: State, now: nat, p: Path)
    requires Move(files, path, payload, target, now).Ok?
    ensures Touched(files, Move(files, path, payload, target, now).value, payload.fileName, target == Verified, p)
  {
    var req := Request(payload, target, Some(path), Some(payload.fingerprint));
    var ops := TransitionPlan(files, req, now).value;
    PlanShape(files, req, now);
    PlanProgress(files, ops, 3);
    assert ops[..3] == ops;
  }

  lemma DecideTouches(
    files: Files, path: Path, payload: Payload, decision: Decision, o: Options, s: Script, p: Path)
    ensures Touched(files, Decide(files, path, payload, decision, o, s).files, payload.fileName, IsVerified(path), p)
  {
    forall target: State | Move(files, path, payload, target, s.now).Ok?
      ensures Touched(files, Move(files, path, payload, target, s.now).value, payload.fileName, target == Verified, p)
    {
      MoveTouches(files, path, payload, target, s.now, p);
    }
  }

  lemma RefreshTouches(files: Files, path: Path, payload: Payload, o: Options, s: Script, p: Path)
    requires path in files
    ensures Touched(files, AfterRefresh(files, path, payload, o, s).files, payload.fileName, IsVerified(path), p)
  {
    DecideTouches(files, path, payload, Refresh, o, s, p);
    if s.refresh.Refreshed? {
      var renewed := payload.(fingerprint := s.refresh.fingerprint, body := s.refresh.body);
      SwapApplied(files, path, File(Some(renewed), s.now));
      if s.reprobe.Answer? {
        var swapped := files[path := File(Some(renewed), s.now)];
        DecideTouches(swapped, path, renewed, s.reprobe.decision, o, s, p);
      }
    }
  }

  lemma ProcessTouches(files: Files, path: Path, past: Checkpoint, o: Options, s: Script, p: Path)
    requires path in files && files[path].payload.Some?
    ensures Touched(files, Process(files, path, past, o, s).files, files[path].payload.value.fileName,
              IsVerified(path), p)
  {
    var payload := files[path].payload.value;
    RefreshTouches(files, path, payload, o, s, p);
    forall decision ensures Touched(
        files, Decide(files, path, payload, decision, o, s).files, payload.fileName, IsVerified(path), p)
    {
      DecideTouches(files, path, payload, decision, o, s, p);
    }
  }

  /** Processing a path that is no risk to a verified file keeps it, and makes no other path a risk. */
  lemma HarmlessKeeps(files: Files, w: Work, v: Work, o: Options, s: Script, name: string)
    requires In(Verified, name) in files && !AtRisk(files, w, name) && !AtRisk(files, v, name)
    ensures var files' := Process(files, w.path, w.past, o, s).files;
            In(Verified, name) in files' && !AtRisk(files', v, name)
  {
    if w.path in files && files[w.path].payload.Some? && files[w.path].payload.value.identity.Some? &&
       !Skipped(w.path, w.past, files[w.path].payload.value) {
      ProcessKeepsVerified(files, w.path, w.past, o, s, name);
      ProcessTouches(files, w.path, w.past, o, s, v.path);
    }
  }

  lemma {:induction false} HarmlessSweep(files: Files, works: seq<Work>, o: Options, scripts: seq<Script>, name: string)
    requires |works| == |scripts| && In(Verified, name) in files
    requires forall i :: 0 <= i < |works| ==> !AtRisk(files, works[i], name)
    ensures In(Verified, name) in Sweep(files, works, o, scripts)
    decreases |works|
  {
    if works != [] {
      var files' := Process(files, works[0].path, works[0].past, o, scripts[0]).files;
      HarmlessKeeps(files, works[0], works[0], o, scripts[0], name);
      forall i | 0 <= i < |works| - 1
        ensures !AtRisk(files', works[1..][i], name)
      {
        HarmlessKeeps(files, works[0], works[i + 1], o, scripts[0], name);
      }
      HarmlessSweep(files', works[1..], o, scripts[1..], name);
    }
  }

  /** A worker whose probe raises: nothing on disk changes. */
  const FAILING := Script((attempt: nat) => ProbeRaises, RefreshRaises, ProbeRaises, PushRaises, 0)

  lemma FailingKeeps(files: Files, w: Work, o: Options)
    ensures Process(files, w.path, w.past, o, FAILING).files == files
  {
    assert LastProbe(FAILING, o.attempts, 1) == ProbeRaises;
  }

  function AllFailing(n: nat): (scripts: seq<Script>)
    ensures |scripts| == n
  {
    if n == 0 then [] else [FAILING] + AllFailing(n - 1)
  }

  lemma {:induction false} FailingSweep(files: Files, works: seq<Work>, o: Options)
    ensures Sweep(files, works, o, AllFailing(|works|)) == files
    decreases |works|
  {
    if works != [] {
      FailingKeeps(files, works[0], o);
      assert AllFailing(|works|)[1..] == AllFailing(|works| - 1);
      FailingSweep(files, works[1..], o);
    }
  }

  /** One path at risk is enough: its refresh succeeds and ends in cooldown, all other probes raise. */
  lemma {:induction false} RiskySweep(files: Files, works: seq<Work>, o: Options, i: nat, name: string)
    returns (scripts: seq<Script>)
    requires i < |works| && AtRisk(files, works[i], name)
    ensures |scripts| == |works| && In(Verified, name) !in Sweep(files, works, o, scripts)
    decreases i
  {
    if i == 0 {
      var s := ExhaustedAfterRefresh(files, name);
      DuplicateDisplacesVerified(files, works[0].path, works[0].past, o);
      FailingSweep(Process(files, works[0].path, works[0].past, o, s).files, works[1..], o);
      scripts := [s] + AllFailing(|works| - 1);
      assert scripts[1..] == AllFailing(|works| - 1);
    } else {
      FailingKeeps(files, works[0], o);
      var rest := RiskySweep(files, works[1..], o, i - 1, name);
      scripts := [FAILING] + rest;
      assert scripts[1..] == rest;
    }
  }

  ghost predicate SurvivesAll(files: Files, works: seq<Work>, o: Options, name: string) {
    forall scripts: seq<Script> | |scripts| == |works| :: In(Verified, name) in Sweep(files, works, o, scripts)
  }

  /**
    Exactly when a verified file survives a run, whatever the probe, refresh and push outcomes and in
    whatever order the selected paths are processed: none of them is an unverified duplicate of its
    name that is still to be probed.  Such a pending or cooldown duplicate can displace the verified
    copy, even a newer one, because a refresh makes the duplicate the newest.
  */
  lemma VerifiedFileSafe(files: Files, works: seq<Work>, o: Options, name: string)
    requires In(Verified, name) in files
    ensures SurvivesAll(files, works, o, name) <==> forall i :: 0 <= i < |works| ==> !AtRisk(files, works[i], name)
  {
    if i: nat :| i < |works| && AtRisk(files, works[i], name) {
      var scripts := RiskySweep(files, works, o, i, name);
      assert In(Verified, name) !in Sweep(files, works, o, scripts);
    } else {
      forall scripts: seq<Script> | |scripts| == |works|
        ensures In(Verified, name) in Sweep(files, works, o, scripts)
      {
        HarmlessSweep(files, works, o, scripts, name);
      }
    }
  }

  lemma DecideNeverLoses(
      files: Files, path: Path, payload: Payload, decision: Decision, o: Options, s: Script, name: string)
    requires Present(files, name)
    ensures Present(Decide(files, path, payload, decision, o, s).files, name)
  {
    forall target: State | Move(files, path, payload, target, s.now).Ok?
      ensures Present(Move(files, path, payload, target, s.now).value, name)
    {
      var req := Request(payload, target, Some(path), Some(payload.fingerprint));
      var ops := TransitionPlan(files, req, s.now).value;
      if name == payload.fileName {
        NeverLost(files, req, s.now, |ops|);
        assert ops[..|ops|] == ops;
      } else {
        var k :| 0 <= k < 3 && StatePaths(name)[k] in files;
        PlanKeeps(files, req, s.now, StatePaths(name)[k]);
      }
    }
  }

  /** No outcome costs any identity its last file. */
  lemma ProcessNeverLoses(files: Files, path: Path, past: Checkpoint, o: Options, s: Script, name: string)
    requires Present(files, name)
    ensures Present(Process(files, path, past, o, s).files, name)
  {
    if path in files && files[path].payload.Some? {
      var payload := files[path].payload.value;
      forall decision {
        DecideNeverLoses(files, path, payload, decision, o, s, name);
      }
      if s.refresh.Refreshed? {
        var renewed := payload.(fingerprint := s.refresh.fingerprint, body := s.refresh.body);
        var swap := [Put(path, File(Some(renewed), s.now))];
        SwapApplied(files, path, File(Some(renewed), s.now));
        var k :| 0 <= k < 3 && StatePaths(name)[k] in files;
        assert StatePaths(name)[k] in ApplyAll(files, swap);
        forall decision {
          DecideNeverLoses(ApplyAll(files, swap), path, renewed, decision, o, s, name);
        }
      }
    }
  }

  // ---------------------------------------------------------------- selecting the paths

  /** Unreadable files are never merged with anything. */
  datatype Key = Identity(key: string) | Invalid(path: Path)

  function KeyOf(files: Files, path: Path): Key
    requires path in files
  {
    var payload := files[path].payload;
    if payload.Some? && payload.value.identity.Some? then Identity(payload.value.identity.value) else Invalid(path)
  }

  /** One path per identity: a candidate than which no candidate of that identity is newer. */
  method SelectNewest(files: Files, candidates: seq<Path>) returns (chosen: map<Key, Path>)
    requires forall c :: c in candidates ==> c in files
    ensures forall c :: c in candidates ==> KeyOf(files, c) in chosen
    ensures forall key :: key in chosen ==> chosen[key] in candidates && KeyOf(files, chosen[key]) == key
    ensures forall c :: c in candidates ==> files[c].mtime <= files[chosen[KeyOf(files, c)]].mtime
  {
    chosen := map[];
    for i := 0 to |candidates|
      invariant forall c :: c in candidates[..i] ==> KeyOf(files, c) in chosen
      invariant forall key :: key in chosen ==> chosen[key] in candidates && KeyOf(files, chosen[key]) == key
      invariant forall c :: c in candidates[..i] ==> files[c].mtime <= files[chosen[KeyOf(files, c)]].mtime
    {
      var path := candidates[i];
      var key := KeyOf(files, path);
      assert candidates[..i + 1] == candidates[..i] + [path];
      if key !in chosen || files[path].mtime > files[chosen[key]].mtime {
        chosen := chosen[key := path];
      }
    }
    assert candidates[..|candidates|] == candidates;
  }
}
