/**
  The bounded retry loop `run_preimport_auth_probes` of scripts/register_and_import.py.
  The clock is real-valued: probing takes any time, and a sleep takes at least what was asked.
*/
module PreimportProbes {
  datatype AuthPath = AuthPath(directory: string, name: string)

  /** A probe's answer: an HTTP status, or an error text (which a failed status may carry too). */
  datatype Probe = Probe(status: int, error: bool)

  /** The answers to each file's probes, in order, and the clock: how long round r takes to probe and by
      how much the sleep after it overshoots (nothing when negative). */
  datatype World = World(answer: (string, nat) -> Probe, probing: nat -> real, overshoot: nat -> real)

  datatype ProbeResult = ProbeResult(file: string, probe: Probe, attempts: nat)

  predicate Retryable(p: Probe) {
    p.error || p.status == 403 || p.status >= 500
  }

  predicate Passed(r: ProbeResult) {
    r.probe.status == 200 && !r.probe.error
  }

  /** The attempt and result dictionaries are keyed by file name. */
  predicate DistinctNames(paths: seq<AuthPath>) {
    forall a, b :: 0 <= a < b < |paths| ==> paths[a].name != paths[b].name
  }

  type History = map<string, seq<Probe>>

  /** Every probe but the last was retryable. */
  predicate RetriedOnly(probes: seq<Probe>) {
    forall j :: 0 <= j < |probes| - 1 ==> Retryable(probes[j])
  }

  /** The last answer is still one to retry. */
  predicate Unsettled(probes: seq<Probe>) {
    probes != [] && Retryable(probes[|probes| - 1])
  }

  function Names(paths: seq<AuthPath>): set<string> {
    set p | p in paths :: p.name
  }

  function CountPassed(results: seq<ProbeResult>): nat
    decreases |results|
  {
    if results == [] then 0
    else CountPassed(results[..|results| - 1]) + (if Passed(results[|results| - 1]) then 1 else 0)
  }

  /** Where a name stands during a round: still to be probed, to be retried, or answered. */
  datatype Standing = Todo | Retry | Answered

  function StandingOf(name: string, todo: set<string>, retry: set<string>): Standing {
    if name in todo then Todo else if name in retry then Retry else Answered
  }

  predicate AllRetryable(probes: seq<Probe>) {
    forall j :: 0 <= j < |probes| ==> Retryable(probes[j])
  }

  /** A name's probes after `rounds` whole rounds, given where it stands in the next; `most` bounds answered ones. */
  predicate ProbesFit(probes: seq<Probe>, rounds: nat, most: nat, standing: Standing) {
    match standing
    case Todo => |probes| == rounds && AllRetryable(probes)
    case Retry => |probes| == rounds + 1 && AllRetryable(probes)
    case Answered => 1 <= |probes| <= most && !Unsettled(probes) && RetriedOnly(probes)
  }

  function LastResult(name: string, probes: seq<Probe>): ProbeResult
    requires probes != []
  {
    ProbeResult(name, probes[|probes| - 1], |probes|)
  }

  /** The dictionaries agree with the probes made so far, and those with the standings. */
  ghost predicate Books(paths: seq<AuthPath>, todo: set<string>, retry: set<string>, rounds: nat, most: nat,
                        history: History, attempts: map<string, nat>, finalResults: map<string, ProbeResult>) {
    && history.Keys == attempts.Keys == Names(paths)
    && forall name :: name in history ==>
         && attempts[name] == |history[name]|
         && ProbesFit(history[name], rounds, most, StandingOf(name, todo, retry))
         && (history[name] != [] ==> name in finalResults && finalResults[name] == LastResult(name, history[name]))
  }

  /** Every probe recorded is the one the file answered at that attempt. */
  predicate Recorded(w: World, history: History) {
    forall name, j :: name in history && 0 <= j < |history[name]| ==> history[name][j] == w.answer(name, j)
  }

  lemma OneMoreAnswer(w: World, history: History, name: string)
    requires Recorded(w, history) && name in history
    ensures Recorded(w, history[name := history[name] + [w.answer(name, |history[name]|)]])
  {
  }

  lemma NamesSplit(paths: seq<AuthPath>, i: nat)
    requires DistinctNames(paths) && i < |paths|
    ensures Names(paths[i..]) == {paths[i].name} + Names(paths[i + 1..])
    ensures paths[i].name !in Names(paths[i + 1..])
  {
    assert paths[i..] == [paths[i]] + paths[i + 1..];
  }

  lemma RetryAppended(retry: seq<AuthPath>, path: AuthPath)
    requires DistinctNames(retry) && path.name !in Names(retry)
    ensures DistinctNames(retry + [path]) && Names(retry + [path]) == Names(retry) + {path.name}
  {
    forall k | 0 <= k < |retry| ensures retry[k].name != path.name {
      assert retry[k] in retry;
    }
  }

  lemma ProbeBooked(
    paths: seq<AuthPath>, todo: set<string>, retry: set<string>, rounds: nat,
    history: History, attempts: map<string, nat>, finalResults: map<string, ProbeResult>, name: string, probe: Probe)
    requires Books(paths, todo, retry, rounds, rounds + 1, history, attempts, finalResults)
    requires name in todo && todo <= Names(paths) && todo !! retry
    ensures name in history
    ensures var n := attempts[name] + 1;
            Books(paths, todo - {name}, if Retryable(probe) then retry + {name} else retry, rounds, rounds + 1,
                  history[name := history[name] + [probe]], attempts[name := n],
                  finalResults[name := ProbeResult(name, probe, n)])
  {
    assert StandingOf(name, todo, retry) == Todo;
    var probes := history[name];
    assert AllRetryable(probes) && RetriedOnly(probes + [probe]);
    forall other | other in history && other != name
      ensures var retry' := if Retryable(probe) then retry + {name} else retry;
              StandingOf(other, todo - {name}, retry') == StandingOf(other, todo, retry)
    {
    }
  }

  lemma RoundOpens(paths: seq<AuthPath>, todo: set<string>, rounds: nat,
                   history: History, attempts: map<string, nat>, finalResults: map<string, ProbeResult>)
    requires Books(paths, todo, {}, rounds, rounds, history, attempts, finalResults)
    ensures Books(paths, todo, {}, rounds, rounds + 1, history, attempts, finalResults)
  {
    forall name | name in history
      ensures ProbesFit(history[name], rounds, rounds + 1, StandingOf(name, todo, {}))
    {
      assert ProbesFit(history[name], rounds, rounds, StandingOf(name, todo, {}));
    }
  }

  lemma RoundCloses(paths: seq<AuthPath>, retry: set<string>, rounds: nat,
                    history: History, attempts: map<string, nat>, finalResults: map<string, ProbeResult>)
    requires Books(paths, {}, retry, rounds, rounds + 1, history, attempts, finalResults)
    ensures Books(paths, retry, {}, rounds + 1, rounds + 1, history, attempts, finalResults)
  {
    forall name | name in history
      ensures ProbesFit(history[name], rounds + 1, rounds + 1, StandingOf(name, retry, {}))
    {
      assert ProbesFit(history[name], rounds, rounds + 1, StandingOf(name, {}, retry));
    }
  }

  /** One pass over the pending paths. */
  method ProbeRound(
    w: World, paths: seq<AuthPath>, pending: seq<AuthPath>, ghost rounds: nat, ghost history: History,
    attempts: map<string, nat>, finalResults: map<string, ProbeResult>)
    returns (retry: seq<AuthPath>, ghost history': History, attempts': map<string, nat>,
             finalResults': map<string, ProbeResult>)
    requires DistinctNames(pending) && Names(pending) <= Names(paths)
    requires Books(paths, Names(pending), {}, rounds, rounds, history, attempts, finalResults)
    requires Recorded(w, history)
    ensures Recorded(w, history')
    ensures DistinctNames(retry) && Names(retry) <= Names(pending)
    ensures Books(paths, Names(retry), {}, rounds + 1, rounds + 1, history', attempts', finalResults')
  {
    retry, history', attempts', finalResults' := [], history, attempts, finalResults;
    assert pending[0..] == pending && Names(retry) == {};
    RoundOpens(paths, Names(pending), rounds, history, attempts, finalResults);
    for i := 0 to |pending|
      invariant Names(pending[i..]) <= Names(pending)
      invariant DistinctNames(retry) && Names(retry) <= Names(pending) && Names(retry) !! Names(pending[i..])
      invariant Books(paths, Names(pending[i..]), Names(retry), rounds, rounds + 1, history', attempts', finalResults')
      invariant Recorded(w, history')
    {
      NamesSplit(pending, i);
      var name := pending[i].name;
      assert name in Names(pending[i..]);
      var probe := w.answer(name, attempts'[name]);
      OneMoreAnswer(w, history', name);
      ProbeBooked(paths, Names(pending[i..]), Names(retry), rounds, history', attempts', finalResults', name, probe);
      assert Names(pending[i + 1..]) == Names(pending[i..]) - {name};
      attempts' := attempts'[name := attempts'[name] + 1];
      finalResults' := finalResults'[name := ProbeResult(name, probe, attempts'[name])];
      history' := history'[name := history'[name] + [probe]];
      if Retryable(probe) {
        RetryAppended(retry, pending[i]);
        retry := retry + [pending[i]];
      }
    }
    assert Names(pending[|pending|..]) == {};
    RoundCloses(paths, Names(retry), rounds, history', attempts', finalResults');
  }

  function AtLeastZero(x: real): real {
    if x >= 0.0 then x else 0.0
  }

  function Least(a: real, b: real): real {
    if a <= b then a else b
  }

  /** The clock when round r starts, if it does: after the probes of the round before and a whole sleep. */
  function RoundStart(w: World, maxWait: real, interval: real, r: nat): real
    decreases r, 0
  {
    if r == 0 then 0.0
    else
      var ended := RoundEnd(w, maxWait, interval, r - 1);
      ended + Least(interval, maxWait - ended) + AtLeastZero(w.overshoot(r - 1))
  }

  function RoundEnd(w: World, maxWait: real, interval: real, r: nat): real
    decreases r, 1
  {
    RoundStart(w, maxWait, interval, r) + AtLeastZero(w.probing(r))
  }

  /** Round r + 2 takes place only if r whole intervals fit strictly below the maximum wait. */
  predicate RoundsFit(rounds: nat, maxWait: real, interval: real) {
    rounds >= 2 ==> interval > 0.0 && (rounds - 2) as real * interval < maxWait
  }

  lemma SleepReaches(rounds: nat, maxWait: real, interval: real, before: real, after: real)
    requires rounds >= 1 && interval > 0.0 && 0.0 <= before < maxWait
    requires before >= Least((rounds - 1) as real * interval, maxWait)
    requires after >= before + Least(interval, maxWait - before)
    ensures after >= Least(rounds as real * interval, maxWait)
    ensures (rounds - 1) as real * interval < maxWait
  {
    assert rounds as real * interval == (rounds - 1) as real * interval + interval;
  }

  lemma ProductLess(a: real, b: real, c: real)
    requires c > 0.0 && a * c < b * c
    ensures a < b
  {
    assert (b - a) * c > 0.0;
  }

  lemma RoundsBounded(rounds: nat, elapsed: real, maxWait: real, interval: real)
    requires rounds >= 1 && Due(rounds, elapsed, maxWait, interval)
    ensures rounds <= (maxWait / interval).Floor + 1
  {
    assert maxWait / interval * interval == maxWait;
    ProductLess((rounds - 1) as real, maxWait / interval, interval);
  }

  /** What holds when a further round starts after `rounds` rounds. */
  predicate Due(rounds: nat, elapsed: real, maxWait: real, interval: real) {
    && elapsed >= 0.0
    && (rounds >= 1 ==>
          && interval > 0.0
          && (rounds - 1) as real * interval < maxWait
          && elapsed >= Least(rounds as real * interval, maxWait))
  }

  /** A number of rounds after which none is due. */
  function RoundLimit(maxWait: real, interval: real): int {
    if interval > 0.0 then (maxWait / interval).Floor + 1 else 0
  }

  lemma DueWithinLimit(rounds: nat, elapsed: real, maxWait: real, interval: real)
    requires Due(rounds, elapsed, maxWait, interval)
    ensures rounds == 0 || rounds <= RoundLimit(maxWait, interval)
  {
    if rounds >= 1 {
      RoundsBounded(rounds, elapsed, maxWait, interval);
    }
  }

  /** The end of a round with something left to retry: sleep and go on, or give up. */
  method WaitForRetry(
    rounds: nat, elapsed: real, overshoot: real, maxWait: real, interval: real, ghost started: real)
    returns (more: bool, later: real)
    requires rounds >= 1 && Due(rounds - 1, started, maxWait, interval) && elapsed >= started
    ensures more ==> Due(rounds, later, maxWait, interval)
    ensures more <==> elapsed < maxWait && interval > 0.0
    ensures later == if more then elapsed + Least(interval, maxWait - elapsed) + AtLeastZero(overshoot) else elapsed
  {
    var remaining := maxWait - elapsed;
    if remaining <= 0.0 {
      return false, elapsed;
    }
    var delay := Least(interval, remaining);
    if delay <= 0.0 {
      return false, elapsed;
    }
    later := elapsed + delay + AtLeastZero(overshoot);
    SleepReaches(rounds, maxWait, interval, elapsed, later);
    more := true;
  }

  lemma EveryNameProbed(
    paths: seq<AuthPath>, waiting: set<string>, rounds: nat, history: History, attempts: map<string, nat>,
    finalResults: map<string, ProbeResult>)
    requires Books(paths, waiting, {}, rounds, rounds, history, attempts, finalResults) &&
               (waiting != {} ==> rounds >= 1)
    requires rounds == 0 ==> paths == []
    ensures forall name :: name in history ==> 1 <= |history[name]| <= rounds && RetriedOnly(history[name])
    ensures forall name :: name in history ==>
              name in finalResults && finalResults[name] == LastResult(name, history[name])
    ensures forall name :: name in history && Unsettled(history[name]) ==> name in waiting && |history[name]| == rounds
  {
    forall name | name in history
      ensures 1 <= |history[name]| <= rounds && RetriedOnly(history[name])
      ensures Unsettled(history[name]) ==> name in waiting && |history[name]| == rounds
    {
      assert ProbesFit(history[name], rounds, rounds, StandingOf(name, waiting, {}));
    }
  }

  /** `[final_results[path.name] for path in auth_paths]` and the number that passed. */
  method Collect(paths: seq<AuthPath>, finalResults: map<string, ProbeResult>)
    returns (results: seq<ProbeResult>, passed: nat)
    requires Names(paths) <= finalResults.Keys
    ensures |results| == |paths|
    ensures forall k :: 0 <= k < |paths| ==>
              paths[k].name in finalResults && results[k] == finalResults[paths[k].name]
    ensures passed == CountPassed(results)
  {
    results, passed := [], 0;
    for k := 0 to |paths|
      invariant |results| == k && passed == CountPassed(results)
      invariant forall i :: 0 <= i < k ==> paths[i].name in finalResults && results[i] == finalResults[paths[i].name]
    {
      assert paths[k] in paths;
      var item := finalResults[paths[k].name];
      assert (results + [item])[..|results|] == results;
      results := results + [item];
      if Passed(item) {
        passed := passed + 1;
      }
    }
  }

  /** The clock before a round, and a reason to stop when there is none. */
  predicate OnTime(
    w: World, waiting: bool, rounds: nat, elapsed: real, more: bool, maxWait: real, interval: real)
  {
    && RoundsFit(rounds, maxWait, interval)
    && if more then
         waiting && Due(rounds, elapsed, maxWait, interval) && elapsed == RoundStart(w, maxWait, interval, rounds)
       else
         && (waiting ==> rounds >= 1 && (elapsed >= maxWait || interval <= 0.0))
         && (rounds >= 1 ==> elapsed == RoundEnd(w, maxWait, interval, rounds - 1))
  }

  lemma DueFits(rounds: nat, elapsed: real, maxWait: real, interval: real)
    requires Due(rounds, elapsed, maxWait, interval)
    ensures RoundsFit(rounds + 1, maxWait, interval)
  {
    assert (rounds + 1 - 2) as real == (rounds - 1) as real;
  }

  lemma ClockTicks(w: World, maxWait: real, interval: real, r: nat)
    ensures var started, ended := RoundStart(w, maxWait, interval, r), RoundEnd(w, maxWait, interval, r);
            && ended == started + AtLeastZero(w.probing(r))
            && RoundStart(w, maxWait, interval, r + 1) ==
                 ended + Least(interval, maxWait - ended) + AtLeastZero(w.overshoot(r))
  {
  }

  /** The clock after the probes of a round, and after the sleep when something is left to retry. */
  method EndRound(w: World, rounds: nat, started: real, waiting: bool, maxWait: real, interval: real)
    returns (more: bool, later: real)
    requires Due(rounds, started, maxWait, interval) && started == RoundStart(w, maxWait, interval, rounds)
    ensures OnTime(w, waiting, rounds + 1, later, more, maxWait, interval)
  {
    DueFits(rounds, started, maxWait, interval);
    ClockTicks(w, maxWait, interval, rounds);
    more, later := false, started + AtLeastZero(w.probing(rounds));
    if waiting {
      more, later := WaitForRetry(rounds + 1, later, w.overshoot(rounds), maxWait, interval, started);
    }
  }

  /** One round, however long it takes, and the wait after it. */
  method RoundThenWait(
    w: World, paths: seq<AuthPath>, pending: seq<AuthPath>, rounds: nat, elapsed: real, maxWait: real, interval: real,
    ghost history: History, attempts: map<string, nat>, finalResults: map<string, ProbeResult>)
    returns (retry: seq<AuthPath>, ghost history': History, attempts': map<string, nat>,
             finalResults': map<string, ProbeResult>, more: bool, later: real)
    requires DistinctNames(pending) && Names(pending) <= Names(paths) && |pending| > 0
    requires Books(paths, Names(pending), {}, rounds, rounds, history, attempts, finalResults)
    requires OnTime(w, true, rounds, elapsed, true, maxWait, interval) && Recorded(w, history)
    ensures DistinctNames(retry) && Names(retry) <= Names(paths)
    ensures OnTime(w, |retry| > 0, rounds + 1, later, more, maxWait, interval) && Recorded(w, history')
    ensures Books(paths, Names(retry), {}, rounds + 1, rounds + 1, history', attempts', finalResults')
  {
    more, later := false, elapsed;
    retry, history', attempts', finalResults' := ProbeRound(w, paths, pending, rounds, history, attempts, finalResults);
    more, later := EndRound(w, rounds, elapsed, |retry| > 0, maxWait, interval);
  }

  lemma NothingProbed(paths: seq<AuthPath>)
    ensures var history, attempts := map p | p in paths :: p.name := [], map p | p in paths :: p.name := 0;
            Books(paths, Names(paths), {}, 0, 0, history, attempts, map[])
  {
  }

  lemma StartsOnTime(w: World, waiting: bool, maxWait: real, interval: real)
    ensures OnTime(w, waiting, 0, 0.0, waiting, maxWait, interval)
  {
  }

  /** The round loop. */
  method ProbeUntilSettled(w: World, paths: seq<AuthPath>, maxWait: real, interval: real)
    returns (finalResults: map<string, ProbeResult>, attempts: map<string, nat>, pending: seq<AuthPath>, elapsed: real,
             rounds: nat, ghost history: History)
    requires DistinctNames(paths)
    ensures OnTime(w, |pending| > 0, rounds, elapsed, false, maxWait, interval) && (rounds == 0 ==> paths == [])
    ensures Books(paths, Names(pending), {}, rounds, rounds, history, attempts, finalResults) && Recorded(w, history)
  {
    attempts := map p | p in paths :: p.name := 0;
    finalResults := map[];
    var more := |paths| > 0;
    pending, elapsed := paths, 0.0;
    rounds, history := 0, map p | p in paths :: p.name := [];
    NothingProbed(paths);
    StartsOnTime(w, more, maxWait, interval);
    while more
      invariant DistinctNames(pending) && Names(pending) <= Names(paths) && (rounds == 0 ==> more || paths == [])
      invariant OnTime(w, |pending| > 0, rounds, elapsed, more, maxWait, interval) && Recorded(w, history)
      invariant Books(paths, Names(pending), {}, rounds, rounds, history, attempts, finalResults)
      decreases more, rounds == 0, RoundLimit(maxWait, interval) - rounds
    {
      DueWithinLimit(rounds, elapsed, maxWait, interval);
      pending, history, attempts, finalResults, more, elapsed :=
        RoundThenWait(w, paths, pending, rounds, elapsed, maxWait, interval, history, attempts, finalResults);
      rounds := rounds + 1;
    }
  }

  lemma {:induction false} AllPassed(results: seq<ProbeResult>)
    ensures CountPassed(results) <= |results|
    ensures CountPassed(results) == |results| <==> forall k :: 0 <= k < |results| ==>
              results[k].probe.status == 200 && !results[k].probe.error
    decreases |results|
  {
    if results != [] {
      var before := results[..|results| - 1];
      AllPassed(before);
      assert forall k :: 0 <= k < |before| ==> before[k] == results[k];
      if forall k :: 0 <= k < |before| ==> before[k].probe.status == 200 && !before[k].probe.error {
        assert forall k :: 0 <= k < |before| ==> results[k].probe.status == 200 && !results[k].probe.error;
      }
    }
  }

  function Ceiling(x: real): int {
    -((-x).Floor)
  }

  lemma CeilingBound(rounds: nat, maxWait: real, interval: real)
    requires RoundsFit(rounds, maxWait, interval) && interval > 0.0 && maxWait >= 0.0
    ensures rounds <= Ceiling(maxWait / interval) + 1
  {
    assert maxWait / interval * interval == maxWait;
    if rounds >= 2 {
      ProductLess((rounds - 2) as real, maxWait / interval, interval);
    } else {
      NonNegativeQuotient(maxWait, interval);
    }
  }

  lemma NonNegativeQuotient(a: real, b: real)
    requires a >= 0.0 && b > 0.0
    ensures a / b >= 0.0
  {
  }

  lemma NobodyWaits(pending: seq<AuthPath>)
    ensures Names(pending) == {} <==> pending == []
  {
    if pending != [] {
      assert pending[0].name in Names(pending);
    }
  }

  /** Errors, refusals and server failures are what is retried. */
  lemma RetriedAsAsked(history: History)
    ensures forall name, j :: name in history && RetriedOnly(history[name]) && 0 <= j < |history[name]| - 1 ==>
              var p := history[name][j]; p.error || p.status == 403 || p.status >= 500
    ensures forall name :: name in history && history[name] != [] ==>
              var p := history[name][|history[name]| - 1];
              p.error || p.status == 403 || p.status >= 500 ==> Unsettled(history[name])
  {
  }

  /** What the loop has done to the files: each was answered at least once and at most once a round,
      again only after an answer to retry, and is left with such an answer only when the wait is used up. */
  ghost predicate ProbedByRule(
    w: World, history: History, rounds: nat, waited: real, maxWait: real, interval: real)
  {
    && (forall name, j :: name in history && 0 <= j < |history[name]| ==> history[name][j] == w.answer(name, j))
    && (forall name :: name in history ==> 1 <= |history[name]| <= rounds)
    && (forall name, j :: name in history && 0 <= j < |history[name]| - 1 ==>
          var p := history[name][j]; p.error || p.status == 403 || p.status >= 500)
    && (forall name :: name in history && history[name] != [] ==>
          var p := history[name][|history[name]| - 1];
          p.error || p.status == 403 || p.status >= 500 ==>
            |history[name]| == rounds && (waited >= maxWait || interval <= 0.0))
  }

  /** All probes, and the last result of each file. */
  method ProbeAll(w: World, paths: seq<AuthPath>, maxWait: real, interval: real)
    returns (finalResults: map<string, ProbeResult>, rounds: nat, waited: real, ghost history: History)
    requires DistinctNames(paths)
    ensures ProbedByRule(w, history, rounds, waited, maxWait, interval) && RoundsFit(rounds, maxWait, interval)
    ensures rounds >= 1 ==> waited == RoundEnd(w, maxWait, interval, rounds - 1)
    ensures history.Keys == Names(paths)
    ensures forall name :: name in history ==>
              && name in finalResults && history[name] != []
              && finalResults[name] == LastResult(name, history[name])
  {
    var attempts, pending;
    finalResults, attempts, pending, waited, rounds, history := ProbeUntilSettled(w, paths, maxWait, interval);
    EveryNameProbed(paths, Names(pending), rounds, history, attempts, finalResults);
    RetriedAsAsked(history);
    NobodyWaits(pending);
  }

  /** `run_preimport_auth_probes`; `history` lists the probes of each file name. */
  method RunPreimportAuthProbes(w: World, paths: seq<AuthPath>, maxWait: real, interval: real)
    returns (results: seq<ProbeResult>, passed: nat, ghost rounds: nat, ghost history: History, ghost waited: real)
    requires DistinctNames(paths)
    ensures ProbedByRule(w, history, rounds, waited, maxWait, interval) && history.Keys == Names(paths)
    ensures rounds >= 1 ==> waited == RoundEnd(w, maxWait, interval, rounds - 1)
    ensures RoundsFit(rounds, maxWait, interval)
    ensures maxWait >= 0.0 && interval > 0.0 ==> rounds <= Ceiling(maxWait / interval) + 1
    ensures |results| == |paths|
    ensures forall k :: 0 <= k < |paths| ==>
              && paths[k].name in history && history[paths[k].name] != []
              && results[k] == LastResult(paths[k].name, history[paths[k].name])
    ensures passed <= |results|
    ensures passed == |results| <==> forall k :: 0 <= k < |results| ==>
              results[k].probe.status == 200 && !results[k].probe.error
    ensures passed == CountPassed(results)
  {
    var finalResults, took, ended;
    finalResults, took, ended, history := ProbeAll(w, paths, maxWait, interval);
    rounds, waited := took, ended;
    if maxWait >= 0.0 && interval > 0.0 {
      CeilingBound(rounds, maxWait, interval);
    }
    results, passed := Collect(paths, finalResults);
    AllPassed(results);
  }
}
