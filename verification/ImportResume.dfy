/**
  The resumable import of scripts/register_and_import.py: only tokens without an account are
  handed to the import helper, which may stop after creating any of them.
*/
module ImportResume {
  import opened Common

  type Digest = string

  /** A Grok OAuth row, with the hash of its access token ("" when it has none). */
  datatype Account = Account(id: int, token: Digest)

  datatype Auth = Auth(email: string, token: Digest)

  datatype ImportError = BadSources | DuplicateAccounts | HelperFailed | OutputRejected | NotEveryTokenResolved

  /** How the helper's subprocess ended: a clean exit whose output is verified or not, or another exit code. */
  datatype Exit = Verified | Unverified | NonZero

  /** What the helper will do once it is run: the accounts it creates, should their tokens be in its
      bundle, before it stops, and how it ends. */
  datatype Helper = Helper(creates: map<Digest, int>, exit: Exit)

  function Count(accounts: seq<Account>, token: Digest): nat
    decreases |accounts|
  {
    if accounts == [] then 0
    else Count(accounts[..|accounts| - 1], token) + (if accounts[|accounts| - 1].token == token then 1 else 0)
  }

  function Tokens(auths: seq<Auth>): set<Digest> {
    set a | a in auths :: a.token
  }

  predicate DistinctSources(auths: seq<Auth>) {
    forall a, b :: 0 <= a < b < |auths| ==> auths[a].email != auths[b].email && auths[a].token != auths[b].token
  }

  /** What `build_bundle` accepts: every file has a token, no email or token twice. */
  predicate Bundleable(auths: seq<Auth>) {
    DistinctSources(auths) && forall k :: 0 <= k < |auths| ==> auths[k].token != ""
  }

  predicate DistinctAccountIds(accounts: seq<Account>) {
    forall a, b :: 0 <= a < b < |accounts| ==> accounts[a].id != accounts[b].id
  }

  // ---------------------------------------------------------------- resolving tokens

  predicate NoDuplicates(accounts: seq<Account>, wanted: set<Digest>) {
    forall t :: t in wanted && t != "" ==> Count(accounts, t) <= 1
  }

  /** The wanted tokens that have an account, each with that account's ID. */
  ghost predicate Resolves(accounts: seq<Account>, wanted: set<Digest>, found: map<Digest, int>) {
    && (forall t :: t in found <==> t in wanted && t != "" && Count(accounts, t) >= 1)
    && (forall t :: t in found ==> Account(found[t], t) in accounts)
  }

  lemma CountPositive(accounts: seq<Account>, token: Digest)
    ensures Count(accounts, token) >= 1 <==> exists k :: 0 <= k < |accounts| && accounts[k].token == token
  {
    if accounts != [] {
      var before := accounts[..|accounts| - 1];
      CountPositive(before, token);
      if Count(before, token) >= 1 {
        var k :| 0 <= k < |before| && before[k].token == token;
        assert accounts[k].token == token;
      }
      if exists k :: 0 <= k < |accounts| && accounts[k].token == token {
        var k :| 0 <= k < |accounts| && accounts[k].token == token;
        if k < |before| {
          assert before[k].token == token;
        }
      }
    }
  }

  lemma {:induction false} CountPrefix(accounts: seq<Account>, k: nat, token: Digest)
    requires k <= |accounts|
    ensures Count(accounts[..k], token) <= Count(accounts, token)
    decreases |accounts|
  {
    if k < |accounts| {
      var before := accounts[..|accounts| - 1];
      assert before[..k] == accounts[..k];
      CountPrefix(before, k, token);
    } else {
      assert accounts[..k] == accounts;
    }
  }

  /** `resolve_existing_account_ids` on the rows the query returned. */
  method ResolveExisting(accounts: seq<Account>, wanted: set<Digest>) returns (r: Result<map<Digest, int>, ImportError>)
    ensures if NoDuplicates(accounts, wanted) then r.Ok? else r == Err(DuplicateAccounts)
    ensures r.Ok? ==> Resolves(accounts, wanted, r.value)
  {
    var found: map<Digest, int> := map[];
    for k := 0 to |accounts|
      invariant NoDuplicates(accounts[..k], wanted) && Resolves(accounts[..k], wanted, found)
    {
      var row := accounts[k];
      assert accounts[..k + 1][..k] == accounts[..k];
      assert forall t :: Count(accounts[..k + 1], t) == Count(accounts[..k], t) + (if row.token == t then 1 else 0);
      if row.token != "" && row.token in wanted {
        if row.token in found {
          CountPrefix(accounts, k + 1, row.token);
          return Err(DuplicateAccounts);
        }
        found := found[row.token := row.id];
      }
      assert row in accounts[..k + 1];
    }
    assert accounts[..|accounts|] == accounts;
    r := Ok(found);
  }

  // ---------------------------------------------------------------- one run

  /** The helper appended new accounts: distinct tokens, all of them from its bundle. */
  ghost predicate HelperCreated(accounts: seq<Account>, bundle: set<Digest>, after: seq<Account>) {
    && |accounts| <= |after| && after[..|accounts|] == accounts
    && (forall k :: |accounts| <= k < |after| ==> after[k].token in bundle)
    && (forall a, b :: |accounts| <= a < b < |after| ==> after[a].token != after[b].token)
  }

  function Missing(accounts: seq<Account>, auths: seq<Auth>): set<Digest> {
    set t | t in Tokens(auths) && Count(accounts, t) == 0
  }

  /** Some token of the batch has no account. */
  ghost predicate Incomplete(auths: seq<Auth>, accounts: seq<Account>) {
    exists t :: t in Tokens(auths) && Count(accounts, t) == 0
  }

  /** The helper did not run, or ended well. */
  predicate Clean(exit: Option<Exit>) {
    exit.None? || exit.value.Verified?
  }

  /** What one run does to the accounts, how it ends, and how the helper ended, if it ran: it runs
      exactly when the sources are sound and some token is missing. */
  ghost predicate ImportRun(
      auths: seq<Auth>, accounts: seq<Account>, exit: Option<Exit>, after: seq<Account>,
      end: Result<map<Digest, int>, ImportError>)
  {
    if !Bundleable(auths) then after == accounts && exit == None && end == Err(BadSources)
    else if !NoDuplicates(accounts, Tokens(auths)) then
      after == accounts && exit == None && end == Err(DuplicateAccounts)
    else
      && (exit.Some? <==> Incomplete(auths, accounts)) && (exit.None? ==> after == accounts)
      && HelperCreated(accounts, Missing(accounts, auths), after)
      && (exit == Some(NonZero) <==> end == Err(HelperFailed))
      && (exit == Some(Unverified) <==> end == Err(OutputRejected))
      && (Clean(exit) ==> if Incomplete(auths, after) then end == Err(NotEveryTokenResolved) else end.Ok?)
      && (end.Ok? ==> Resolves(after, Tokens(auths), end.value) && end.value.Keys == Tokens(auths))
  }

  lemma {:induction false} CountAfterHelper(
      accounts: seq<Account>, bundle: set<Digest>, after: seq<Account>, token: Digest)
    requires HelperCreated(accounts, bundle, after)
    ensures Count(accounts, token) <= Count(after, token) <= Count(accounts, token) + (if token in bundle then 1 else 0)
    ensures (exists k :: |accounts| <= k < |after| && after[k].token == token)
            <==> Count(after, token) > Count(accounts, token)
    decreases |after|
  {
    if |after| == |accounts| {
      assert after == accounts;
    } else {
      var before := after[..|after| - 1];
      assert before[..|accounts|] == accounts;
      CountAfterHelper(accounts, bundle, before, token);
      if after[|after| - 1].token == token {
        assert forall k :: |accounts| <= k < |before| ==> before[k].token != token;
      } else if exists k :: |accounts| <= k < |after| && after[k].token == token {
        var k :| |accounts| <= k < |after| && after[k].token == token;
        assert before[k].token == token;
      }
    }
  }

  /** The helper has created an account with this token. */
  predicate Created(accounts: seq<Account>, after: seq<Account>, t: Digest) {
    exists k :: |accounts| <= k < |after| && after[k].token == t
  }

  lemma OneMoreCreated(accounts: seq<Account>, before: seq<Account>, account: Account)
    requires |accounts| <= |before|
    ensures forall t :: Created(accounts, before + [account], t) <==> Created(accounts, before, t) || t == account.token
  {
    var after := before + [account];
    assert after[|before|] == account;
    forall t | Created(accounts, before, t) ensures Created(accounts, after, t) {
      var k :| |accounts| <= k < |before| && before[k].token == t;
      assert after[k].token == t;
    }
  }

  /** The sources are sound, no token is ambiguous, and some token has no account yet. */
  ghost predicate HelperRuns(auths: seq<Auth>, accounts: seq<Account>) {
    Bundleable(auths) && NoDuplicates(accounts, Tokens(auths)) && Incomplete(auths, accounts)
  }

  ghost function ExitOf(auths: seq<Auth>, accounts: seq<Account>, helper: Helper): Option<Exit> {
    if HelperRuns(auths, accounts) then Some(helper.exit) else None
  }

  class AccountStore {
    var accounts: seq<Account>

    /** The helper's subprocess: it creates its part of the bundle, in order, and ends as it does. */
    method RunHelper(bundle: seq<Auth>, helper: Helper) returns (exit: Exit)
      requires DistinctSources(bundle)
      modifies this
      ensures HelperCreated(old(accounts), Tokens(bundle), accounts) && exit == helper.exit
      ensures forall t :: t in Tokens(bundle) ==> (Created(old(accounts), accounts, t) <==> t in helper.creates)
    {
      for k := 0 to |bundle|
        invariant |accounts| >= |old(accounts)| && accounts[..|old(accounts)|] == old(accounts)
        invariant forall i :: |old(accounts)| <= i < |accounts| ==> accounts[i].token in Tokens(bundle[..k])
        invariant forall a, b :: |old(accounts)| <= a < b < |accounts| ==> accounts[a].token != accounts[b].token
        invariant forall t :: t in Tokens(bundle[..k]) ==>
                    (Created(old(accounts), accounts, t) <==> t in helper.creates)
      {
        var token := bundle[k].token;
        assert bundle[..k + 1] == bundle[..k] + [bundle[k]];
        assert token !in Tokens(bundle[..k]);
        assert Tokens(bundle[..k + 1]) == Tokens(bundle[..k]) + {token};
        ghost var before := accounts;
        if token in helper.creates {
          accounts := accounts + [Account(helper.creates[token], token)];
          OneMoreCreated(old(accounts), before, accounts[|before|]);
        }
      }
      assert bundle[..|bundle|] == bundle;
      exit := helper.exit;
    }

    /** The import part of `main`: resolve, import what is missing, resolve again.  The helper is given
        exactly the auth files without an account, and not run when there are none. */
    method Import(auths: seq<Auth>, helper: Helper) returns (end: Result<map<Digest, int>, ImportError>)
      modifies this
      ensures ImportRun(auths, old(accounts), ExitOf(auths, old(accounts), helper), accounts, end)
      ensures HelperRuns(auths, old(accounts)) ==>
                forall t :: t in Missing(old(accounts), auths) ==>
                  (Created(old(accounts), accounts, t) <==> t in helper.creates)
    {
      if !Bundleable(auths) {
        return Err(BadSources);
      }
      var existing := ResolveExisting(accounts, Tokens(auths));
      if existing.Err? {
        return Err(existing.error);
      }
      var missing := SelectMissing(auths, existing.value);
      MissingTokens(accounts, auths, existing.value, missing);
      MissingSources(accounts, auths, existing.value, missing);
      if |missing| > 0 {
        var exit := RunHelper(missing, helper);
        if exit.NonZero? {
          return Err(HelperFailed);
        }
        if exit.Unverified? {
          return Err(OutputRejected);
        }
      }
      ImportKeepsUnique(auths, old(accounts), accounts);
      var resolved := ResolveExisting(accounts, Tokens(auths));
      if |resolved.value| != |auths| {
        SomeTokenUnresolved(accounts, auths, resolved.value);
        return Err(NotEveryTokenResolved);
      }
      AllTokensResolved(accounts, auths, resolved.value);
      end := resolved;
    }
  }

  /** The auth files whose token hash was not resolved, in order. */
  function SelectMissing(auths: seq<Auth>, existing: map<Digest, int>): (missing: seq<Auth>)
    requires DistinctSources(auths)
    ensures forall a :: a in missing <==> a in auths && a.token !in existing
    ensures DistinctSources(missing)
  {
    if auths == [] then []
    else
      assert forall a :: a in auths <==> a == auths[0] || a in auths[1..];
      var rest := SelectMissing(auths[1..], existing);
      assert forall k :: 0 <= k < |rest| ==> rest[k] in auths[1..];
      if auths[0].token in existing then rest else [auths[0]] + rest
  }

  lemma MissingTokens(accounts: seq<Account>, auths: seq<Auth>, existing: map<Digest, int>, missing: seq<Auth>)
    requires Bundleable(auths) && Resolves(accounts, Tokens(auths), existing)
    requires forall a :: a in missing <==> a in auths && a.token !in existing
    ensures Tokens(missing) == Missing(accounts, auths)
  {
    forall t
      ensures t in Tokens(missing) <==> t in Missing(accounts, auths)
    {
      if t in Tokens(auths) {
        var a :| a in auths && a.token == t;
        assert t != "";
        assert a in missing <==> Count(accounts, t) == 0;
        assert a in missing ==> t in Tokens(missing);
      }
    }
  }

  /** The bundle is the auth files without an account; it is empty only when there are none. */
  lemma MissingSources(accounts: seq<Account>, auths: seq<Auth>, existing: map<Digest, int>, missing: seq<Auth>)
    requires Bundleable(auths) && Resolves(accounts, Tokens(auths), existing)
    requires forall a :: a in missing <==> a in auths && a.token !in existing
    ensures forall a :: a in missing <==> a in auths && Count(accounts, a.token) == 0
    ensures missing != [] <==> Incomplete(auths, accounts)
  {
    forall a | a in auths
      ensures a.token in Tokens(auths) && a.token != ""
    {
    }
    if missing != [] {
      assert missing[0] in missing && missing[0].token in Tokens(auths);
    }
    if Incomplete(auths, accounts) {
      var t :| t in Tokens(auths) && Count(accounts, t) == 0;
      var a :| a in auths && a.token == t;
      assert a in missing;
    }
  }

  lemma ImportKeepsUnique(auths: seq<Auth>, accounts: seq<Account>, after: seq<Account>)
    requires NoDuplicates(accounts, Tokens(auths)) && HelperCreated(accounts, Missing(accounts, auths), after)
    ensures NoDuplicates(after, Tokens(auths))
  {
    forall t | t in Tokens(auths) && t != ""
      ensures Count(after, t) <= 1
    {
      CountAfterHelper(accounts, Missing(accounts, auths), after, t);
    }
  }

  lemma {:induction false} TokenCount(auths: seq<Auth>)
    requires DistinctSources(auths)
    ensures |Tokens(auths)| == |auths|
    decreases |auths|
  {
    if auths == [] {
      assert Tokens(auths) == {};
    } else {
      TokenCount(auths[1..]);
      assert auths == [auths[0]] + auths[1..];
      assert auths[0].token !in Tokens(auths[1..]);
      assert Tokens(auths) == {auths[0].token} + Tokens(auths[1..]);
    }
  }

  lemma SubsetOfSameSize(a: set<Digest>, b: set<Digest>)
    requires a <= b && |a| >= |b|
    ensures a == b
  {
    assert b == a + (b - a);
    assert |b| == |a| + |b - a|;
  }

  lemma AllTokensResolved(accounts: seq<Account>, auths: seq<Auth>, found: map<Digest, int>)
    requires Bundleable(auths) && Resolves(accounts, Tokens(auths), found) && |found| == |auths|
    ensures found.Keys == Tokens(auths) && !Incomplete(auths, accounts)
  {
    TokenCount(auths);
    SubsetOfSameSize(found.Keys, Tokens(auths));
  }

  lemma SomeTokenUnresolved(accounts: seq<Account>, auths: seq<Auth>, found: map<Digest, int>)
    requires Bundleable(auths) && Resolves(accounts, Tokens(auths), found) && |found| != |auths|
    ensures Incomplete(auths, accounts)
  {
    TokenCount(auths);
    assert found.Keys <= Tokens(auths);
    assert found.Keys != Tokens(auths);
    var t :| t in Tokens(auths) && t !in found;
    var a :| a in auths && a.token == t;
  }

  // ---------------------------------------------------------------- any number of runs

  /** Between runs others may add or remove accounts, but not of the batch: its tokens are not rotated. */
  predicate Undisturbed(auths: seq<Auth>, before: seq<Account>, after: seq<Account>) {
    forall t :: t in Tokens(auths) ==> Count(after, t) == Count(before, t)
  }

  /** Run r takes `befores[r]` to `afters[r]`; `befores[r + 1]` is what the next run finds. */
  ghost predicate Resumed(
      auths: seq<Auth>, befores: seq<seq<Account>>, exits: seq<Option<Exit>>, afters: seq<seq<Account>>,
      ends: seq<Result<map<Digest, int>, ImportError>>)
  {
    && |befores| == |exits| == |afters| == |ends|
    && (forall r :: 0 <= r < |ends| ==> ImportRun(auths, befores[r], exits[r], afters[r], ends[r]))
    && (forall r :: 0 <= r < |ends| - 1 ==> Undisturbed(auths, afters[r], befores[r + 1]))
  }

  function AtLeastOne(n: nat): nat {
    if n > 1 then n else 1
  }

  lemma RunAddsAtMostOne(
      auths: seq<Auth>, accounts: seq<Account>, exit: Option<Exit>, after: seq<Account>,
      end: Result<map<Digest, int>, ImportError>, t: Digest)
    requires ImportRun(auths, accounts, exit, after, end) && t in Tokens(auths)
    ensures Count(accounts, t) <= Count(after, t) <= AtLeastOne(Count(accounts, t))
  {
    if Bundleable(auths) && NoDuplicates(accounts, Tokens(auths)) {
      CountAfterHelper(accounts, Missing(accounts, auths), after, t);
    }
  }

  lemma RunInSeries(
    auths: seq<Auth>, befores: seq<seq<Account>>, exits: seq<Option<Exit>>, afters: seq<seq<Account>>,
    ends: seq<Result<map<Digest, int>, ImportError>>, r: nat, t: Digest)
    requires Resumed(auths, befores, exits, afters, ends) && r < |ends| && t in Tokens(auths)
    ensures Count(befores[r], t) <= Count(afters[r], t) <= AtLeastOne(Count(befores[r], t))
    ensures r > 0 ==> Count(befores[r], t) == Count(afters[r - 1], t)
  {
    assert ImportRun(auths, befores[r], exits[r], afters[r], ends[r]);
    RunAddsAtMostOne(auths, befores[r], exits[r], afters[r], ends[r], t);
    if r > 0 {
      assert Undisturbed(auths, afters[r - 1], befores[r - 1 + 1]);
    }
  }

  /** No run gives the token a second account or takes its account away, and nothing happens in between. */
  predicate CountsGrow(befores: seq<seq<Account>>, afters: seq<seq<Account>>, t: Digest) {
    && |befores| == |afters|
    && forall r :: 0 <= r < |befores| ==>
         && Count(befores[r], t) <= Count(afters[r], t) <= AtLeastOne(Count(befores[r], t))
         && (r > 0 ==> Count(befores[r], t) == Count(afters[r - 1], t))
  }

  lemma {:induction false} GrowthBounded(befores: seq<seq<Account>>, afters: seq<seq<Account>>, r: nat, t: Digest)
    requires CountsGrow(befores, afters, t) && r < |befores|
    ensures Count(befores[0], t) <= Count(afters[r], t) <= AtLeastOne(Count(befores[0], t))
    decreases r
  {
    if r > 0 {
      GrowthBounded(befores, afters, r - 1, t);
    }
  }

  /** No run ever gives a batch token a second account, wherever the helper stops. */
  lemma NeverImportedTwice(
    auths: seq<Auth>, befores: seq<seq<Account>>, exits: seq<Option<Exit>>, afters: seq<seq<Account>>,
    ends: seq<Result<map<Digest, int>, ImportError>>, r: nat, t: Digest)
    requires Resumed(auths, befores, exits, afters, ends) && r < |ends| && t in Tokens(auths)
    ensures Count(befores[0], t) <= Count(afters[r], t)
    ensures Count(befores[0], t) <= 1 ==> Count(afters[r], t) <= 1
    ensures Count(befores[0], t) > 1 ==> Count(afters[r], t) == Count(befores[0], t)
  {
    forall k | 0 <= k < |ends|
      ensures Count(befores[k], t) <= Count(afters[k], t) <= AtLeastOne(Count(befores[k], t))
      ensures k > 0 ==> Count(befores[k], t) == Count(afters[k - 1], t)
    {
      RunInSeries(auths, befores, exits, afters, ends, k, t);
    }
    GrowthBounded(befores, afters, r, t);
  }

  /**
    A run that passes the final check puts the batch and its accounts in bijection: every token
    has exactly one account, its ID is the one returned, and no two tokens share an ID.
  */
  lemma CompletedImportIsBijection(
      auths: seq<Auth>, accounts: seq<Account>, exit: Option<Exit>, after: seq<Account>, found: map<Digest, int>)
    requires ImportRun(auths, accounts, exit, after, Ok(found)) && DistinctAccountIds(after)
    ensures found.Keys == Tokens(auths) && |found| == |auths|
    ensures forall t :: t in found ==> Count(after, t) == 1 && Account(found[t], t) in after
    ensures forall t, u :: t in found && u in found && found[t] == found[u] ==> t == u
  {
    TokenCount(auths);
    ImportKeepsUnique(auths, accounts, after);
    forall t, u | t in found && u in found && found[t] == found[u]
      ensures t == u
    {
      var a :| 0 <= a < |after| && after[a] == Account(found[t], t);
      var b :| 0 <= b < |after| && after[b] == Account(found[u], u);
      assert !(a < b) && !(b < a);
    }
  }

  lemma SoundSources(auths: seq<Auth>, accounts: seq<Account>)
    requires forall a, b :: 0 <= a < b < |auths| ==>
               auths[a].email != auths[b].email && auths[a].token != auths[b].token
    requires forall k :: 0 <= k < |auths| ==> auths[k].token != "" && Count(accounts, auths[k].token) <= 1
    ensures Bundleable(auths) && NoDuplicates(accounts, Tokens(auths))
  {
    forall t | t in Tokens(auths) ensures Count(accounts, t) <= 1 {
      var k :| 0 <= k < |auths| && auths[k].token == t;
    }
  }

  lemma HelperFillsIn(auths: seq<Auth>, accounts: seq<Account>, after: seq<Account>)
    requires HelperCreated(accounts, Missing(accounts, auths), after)
    requires forall t :: t in Missing(accounts, auths) ==> Created(accounts, after, t)
    ensures !Incomplete(auths, after)
  {
    forall t | t in Tokens(auths)
      ensures Count(after, t) >= 1
    {
      CountAfterHelper(accounts, Missing(accounts, auths), after, t);
      assert Count(accounts, t) == 0 ==> t in Missing(accounts, auths);
    }
  }

  /** A helper that creates its whole bundle and exits cleanly completes the run, from any resumable start. */
  lemma FullHelperCompletes(
      auths: seq<Auth>, accounts: seq<Account>, exit: Option<Exit>, after: seq<Account>,
      end: Result<map<Digest, int>, ImportError>)
    requires forall a, b :: 0 <= a < b < |auths| ==>
               auths[a].email != auths[b].email && auths[a].token != auths[b].token
    requires forall k :: 0 <= k < |auths| ==> auths[k].token != "" && Count(accounts, auths[k].token) <= 1
    requires ImportRun(auths, accounts, exit, after, end) && exit != Some(NonZero) && exit != Some(Unverified)
    requires exit.Some? ==> forall t :: t in Missing(accounts, auths) ==> Created(accounts, after, t)
    ensures end.Ok?
  {
    SoundSources(auths, accounts);
    if exit.Some? {
      HelperFillsIn(auths, accounts, after);
    }
  }
}
