/**
  `map_sources_to_accounts` of scripts/finalize_grok_batch.py: pairing local auth sources with
  production account rows, by access-token hash first and by identity otherwise.
*/
module AccountMatching {
  import opened Common

  type Digest = string
  type IdentityKey = (Digest, Digest)

  const CLI_BASE_URL := "https://cli-chat-proxy.grok.com/v1"

  datatype LocalSource = LocalSource(token: Digest, refresh: Digest, identity: Digest, subject: Digest)

  datatype Row = Row(
    id: int, platform: string, kind: string, status: string, schedulable: bool, baseUrl: string,
    token: Digest, refresh: Digest, identity: Digest, subject: Digest,
    proxyId: int, groupCount: int, boundGrok: bool, globalIdentityCount: int)

  datatype Mapping = Mapping(source: LocalSource, accountId: int, tokenMatch: bool, refreshMatch: bool)

  datatype MatchError =
    | DuplicateTokens | NoRefreshToken(id: int) | NoStableIdentity | IdentitiesDiffer
    | AccountReused | StaticStateFailed(id: int) | AccountsUnmatched

  function SourceKey(s: LocalSource): IdentityKey { (s.identity, s.subject) }
  function RowKey(r: Row): IdentityKey { (r.identity, r.subject) }

  predicate StaticStateOk(r: Row) {
    && r.platform == "grok" && r.kind == "oauth"
    && r.status == "active" && r.schedulable
    && r.baseUrl == CLI_BASE_URL
    && r.proxyId == 0 && r.groupCount == 1 && r.boundGrok
    && r.globalIdentityCount == 1
  }

  /** The rows come from a dictionary keyed by account ID. */
  predicate DistinctIds(rows: seq<Row>) {
    forall a, b :: 0 <= a < b < |rows| ==> rows[a].id != rows[b].id
  }

  predicate DistinctTokens(rows: seq<Row>) {
    forall a, b :: 0 <= a < b < |rows| && rows[a].token != "" ==> rows[a].token != rows[b].token
  }

  // ---------------------------------------------------------------- what a source resolves to

  predicate ByToken(rows: seq<Row>, s: LocalSource, k: nat) {
    k < |rows| && rows[k].token != "" && rows[k].token == s.token
  }

  predicate ByIdentity(rows: seq<Row>, s: LocalSource, k: nat) {
    k < |rows| && RowKey(rows[k]) == SourceKey(s)
  }

  /** Row `k` is the one the lookup picks for `s`; its identity still has to agree. */
  predicate Picks(rows: seq<Row>, s: LocalSource, k: nat) {
    || ByToken(rows, s, k)
    || (&& (forall j :: 0 <= j < |rows| ==> !ByToken(rows, s, j))
        && ByIdentity(rows, s, k)
        && forall j :: 0 <= j < |rows| && ByIdentity(rows, s, j) ==> j == k)
  }

  predicate Accepts(rows: seq<Row>, s: LocalSource, k: nat) {
    k < |rows| && Picks(rows, s, k) && RowKey(rows[k]) == SourceKey(s) && StaticStateOk(rows[k])
  }

  function MakeMapping(s: LocalSource, r: Row): Mapping {
    Mapping(s, r.id, r.token == s.token, r.refresh == s.refresh)
  }

  predicate RowsUsable(rows: seq<Row>) {
    DistinctTokens(rows) && forall k :: 0 <= k < |rows| ==> rows[k].refresh != ""
  }

  /** `to` pairs the sources with the rows, one to one and onto. */
  ghost predicate Pairing(sources: seq<LocalSource>, rows: seq<Row>, to: seq<nat>) {
    && |to| == |sources|
    && (forall i :: 0 <= i < |to| ==> Accepts(rows, sources[i], to[i]))
    && (forall i, j :: 0 <= i < j < |to| ==> to[i] != to[j])
    && (forall k :: 0 <= k < |rows| ==> k in to)
  }

  ghost predicate Matchable(sources: seq<LocalSource>, rows: seq<Row>) {
    RowsUsable(rows) && exists to: seq<nat> :: Pairing(sources, rows, to)
  }

  lemma PickUnique(rows: seq<Row>, s: LocalSource, a: nat, b: nat)
    requires DistinctTokens(rows) && a < |rows| && b < |rows|
    requires Picks(rows, s, a) && Picks(rows, s, b)
    ensures a == b
  {
    if ByToken(rows, s, a) && ByToken(rows, s, b) {
      assert rows[a].token == rows[b].token != "";
    }
  }

  // ---------------------------------------------------------------- the sorted result

  predicate Sorted(ms: seq<Mapping>) {
    forall i, j :: 0 <= i < j < |ms| ==> ms[i].accountId < ms[j].accountId
  }

  predicate DistinctAccounts(ms: seq<Mapping>) {
    forall i, j :: 0 <= i < j < |ms| ==> ms[i].accountId != ms[j].accountId
  }

  function InsertById(m: Mapping, ms: seq<Mapping>): (r: seq<Mapping>)
    requires Sorted(ms) && forall k :: 0 <= k < |ms| ==> ms[k].accountId != m.accountId
    ensures Sorted(r) && |r| == |ms| + 1
    ensures forall x :: x in r <==> x == m || x in ms
  {
    if ms == [] || m.accountId < ms[0].accountId then [m] + ms
    else
      var rest := InsertById(m, ms[1..]);
      assert forall k :: 0 <= k < |rest| ==> rest[k] in rest;
      [ms[0]] + rest
  }

  function SortById(ms: seq<Mapping>): (r: seq<Mapping>)
    requires DistinctAccounts(ms)
    ensures Sorted(r) && |r| == |ms|
    ensures forall x :: x in r <==> x in ms
  {
    if ms == [] then []
    else
      var rest := SortById(ms[1..]);
      assert forall k :: 0 <= k < |rest| ==> rest[k] in ms[1..];
      InsertById(ms[0], rest)
  }

  lemma SomeElement(ms: seq<Mapping>)
    requires ms != []
    ensures exists m :: m in ms
  {
    assert ms[0] in ms;
  }

  /** A strictly sorted list is determined by its elements. */
  lemma {:induction false} SortedListUnique(a: seq<Mapping>, b: seq<Mapping>)
    requires Sorted(a) && Sorted(b)
    requires forall m :: m in a <==> m in b
    ensures a == b
    decreases |a|
  {
    if a == [] {
      if b != [] { SomeElement(b); }
    } else if b == [] {
      SomeElement(a);
    } else {
      assert a[0] in b && b[0] in a;
      assert a[0] == b[0];
      forall m
        ensures m in a[1..] <==> m in b[1..]
      {
        assert a == [a[0]] + a[1..] && b == [b[0]] + b[1..];
        if m in a[1..] { assert m in a; assert m.accountId != a[0].accountId; }
        if m in b[1..] { assert m in b; assert m.accountId != b[0].accountId; }
      }
      SortedListUnique(a[1..], b[1..]);
      assert a == [a[0]] + a[1..] && b == [b[0]] + b[1..];
    }
  }

  ghost predicate MappingOf(rows: seq<Row>, m: Mapping) {
    exists k :: 0 <= k < |rows| && Accepts(rows, m.source, k) && m == MakeMapping(m.source, rows[k])
  }

  /** The result, without reference to how it is found. */
  ghost predicate IsMatching(sources: seq<LocalSource>, rows: seq<Row>, out: seq<Mapping>) {
    && Sorted(out)
    && forall m :: m in out <==> m.source in sources && MappingOf(rows, m)
  }

  function Mappings(sources: seq<LocalSource>, rows: seq<Row>, to: seq<nat>): (ms: seq<Mapping>)
    requires |to| <= |sources| && forall i :: 0 <= i < |to| ==> to[i] < |rows|
    ensures |ms| == |to| && forall i :: 0 <= i < |to| ==> ms[i] == MakeMapping(sources[i], rows[to[i]])
  {
    seq(|to|, i requires 0 <= i < |to| => MakeMapping(sources[i], rows[to[i]]))
  }

  lemma PairingGivesMatching(sources: seq<LocalSource>, rows: seq<Row>, to: seq<nat>)
    requires DistinctIds(rows) && DistinctTokens(rows) && Pairing(sources, rows, to)
    ensures DistinctAccounts(Mappings(sources, rows, to))
    ensures IsMatching(sources, rows, SortById(Mappings(sources, rows, to)))
  {
    var ms := Mappings(sources, rows, to);
    assert DistinctAccounts(ms);
    forall m
      ensures m in ms <==> m.source in sources && MappingOf(rows, m)
    {
      if m in ms {
        var i :| 0 <= i < |ms| && ms[i] == m;
        assert Accepts(rows, m.source, to[i]);
      }
      if m.source in sources && MappingOf(rows, m) {
        var i :| 0 <= i < |sources| && sources[i] == m.source;
        var k :| 0 <= k < |rows| && Accepts(rows, m.source, k) && m == MakeMapping(m.source, rows[k]);
        PickUnique(rows, m.source, k, to[i]);
        assert ms[i] == m;
      }
    }
  }

  predicate DistinctSources(sources: seq<LocalSource>) {
    forall i, j :: 0 <= i < j < |sources| ==> sources[i] != sources[j]
  }

  lemma {:induction false} DistinctMeansOnce(sources: seq<LocalSource>, s: LocalSource)
    requires DistinctSources(sources)
    ensures multiset(sources)[s] <= 1
    decreases |sources|
  {
    if sources != [] {
      var before, last := sources[..|sources| - 1], sources[|sources| - 1];
      assert sources == before + [last];
      DistinctMeansOnce(before, s);
      assert s == last ==> s !in before;
    }
  }

  lemma TwiceCountsTwo(sources: seq<LocalSource>, i: nat, j: nat)
    requires i < j < |sources| && sources[i] == sources[j]
    ensures multiset(sources)[sources[i]] >= 2
  {
    assert sources == sources[..j] + sources[j..];
    assert sources[i] in sources[..j] && sources[j] in sources[j..];
  }

  /** A pairing pairs no source twice: equal sources would pick the same row. */
  lemma PairedSourcesDistinct(sources: seq<LocalSource>, rows: seq<Row>, to: seq<nat>)
    requires DistinctTokens(rows) && Pairing(sources, rows, to)
    ensures DistinctSources(sources)
  {
    forall i, j | 0 <= i < j < |sources|
      ensures sources[i] != sources[j]
    {
      if sources[i] == sources[j] {
        assert Accepts(rows, sources[i], to[i]) && Accepts(rows, sources[j], to[j]);
        PickUnique(rows, sources[i], to[i], to[j]);
      }
    }
  }

  lemma PermutedDistinct(a: seq<LocalSource>, b: seq<LocalSource>)
    requires multiset(a) == multiset(b) && DistinctSources(a)
    ensures DistinctSources(b)
  {
    forall i, j | 0 <= i < j < |b|
      ensures b[i] != b[j]
    {
      DistinctMeansOnce(a, b[i]);
      if b[i] == b[j] { TwiceCountsTwo(b, i, j); }
    }
  }

  lemma SameElements(a: seq<LocalSource>, b: seq<LocalSource>, s: LocalSource)
    requires multiset(a) == multiset(b)
    ensures s in a <==> s in b
  {
    assert s in a <==> s in multiset(a);
    assert s in b <==> s in multiset(b);
  }

  /** The rows the permuted sources are accepted by. */
  lemma PermutedRows(a: seq<LocalSource>, b: seq<LocalSource>, rows: seq<Row>, to: seq<nat>) returns (to': seq<nat>)
    requires multiset(a) == multiset(b) && Pairing(a, rows, to)
    ensures |to'| == |b| && forall j :: 0 <= j < |b| ==> Accepts(rows, b[j], to'[j])
  {
    to' := [];
    for j := 0 to |b|
      invariant |to'| == j && forall k :: 0 <= k < j ==> Accepts(rows, b[k], to'[k])
    {
      SameElements(a, b, b[j]);
      var i :| 0 <= i < |a| && a[i] == b[j];
      assert Accepts(rows, a[i], to[i]);
      to' := to' + [to[i]];
    }
  }

  /** Two sources that one row accepts are the same source of the pairing. */
  lemma OneSourcePerRow(sources: seq<LocalSource>, rows: seq<Row>, to: seq<nat>, s: LocalSource, u: LocalSource, k: nat)
    requires DistinctTokens(rows) && Pairing(sources, rows, to) && s in sources && u in sources
    requires Accepts(rows, s, k) && Accepts(rows, u, k)
    ensures s == u
  {
    var i :| 0 <= i < |sources| && sources[i] == s;
    var j :| 0 <= j < |sources| && sources[j] == u;
    assert Accepts(rows, sources[i], to[i]) && Accepts(rows, sources[j], to[j]);
    PickUnique(rows, s, to[i], k);
    PickUnique(rows, u, to[j], k);
  }

  /** A permutation of matchable sources is matchable. */
  lemma PermutedMatchable(a: seq<LocalSource>, b: seq<LocalSource>, rows: seq<Row>)
    requires multiset(a) == multiset(b) && Matchable(a, rows)
    ensures Matchable(b, rows)
  {
    var to: seq<nat> :| Pairing(a, rows, to);
    var to' := PermutedRows(a, b, rows, to);
    PairedSourcesDistinct(a, rows, to);
    PermutedDistinct(a, b);
    forall i, j | 0 <= i < j < |to'|
      ensures to'[i] != to'[j]
    {
      SameElements(a, b, b[i]);
      SameElements(a, b, b[j]);
      if to'[i] == to'[j] { OneSourcePerRow(a, rows, to, b[i], b[j], to'[i]); }
    }
    forall k | 0 <= k < |rows|
      ensures k in to'
    {
      assert k in to;
      var i :| 0 <= i < |to| && to[i] == k;
      SameElements(a, b, a[i]);
      var j :| 0 <= j < |b| && b[j] == a[i];
      assert Accepts(rows, a[i], to[i]) && Accepts(rows, b[j], to'[j]);
      PickUnique(rows, a[i], k, to'[j]);
    }
    assert Pairing(b, rows, to');
  }

  /** Every permutation of the sources succeeds or fails alike, and gives the same list. */
  lemma OrderOfSourcesIrrelevant(a: seq<LocalSource>, b: seq<LocalSource>, rows: seq<Row>)
    requires multiset(a) == multiset(b)
    ensures Matchable(a, rows) <==> Matchable(b, rows)
    ensures forall x, y :: IsMatching(a, rows, x) && IsMatching(b, rows, y) ==> x == y
  {
    if Matchable(a, rows) { PermutedMatchable(a, b, rows); }
    if Matchable(b, rows) { PermutedMatchable(b, a, rows); }
    forall x, y | IsMatching(a, rows, x) && IsMatching(b, rows, y)
      ensures x == y
    {
      forall m: Mapping ensures m in x <==> m in y {
        SameElements(a, b, m.source);
      }
      SortedListUnique(x, y);
    }
  }

  function UpTo(n: nat): (s: set<nat>)
    ensures |s| == n
    ensures forall k: nat :: k in s <==> k < n
  {
    if n == 0 then {} else UpTo(n - 1) + {n - 1}
  }

  function Elements(to: seq<nat>): set<nat> {
    set k | k in to
  }

  lemma InjectiveOntoSameLength(to: seq<nat>, n: nat)
    requires forall i :: 0 <= i < |to| ==> to[i] < n
    requires forall i, j :: 0 <= i < j < |to| ==> to[i] != to[j]
    requires forall k :: 0 <= k < n ==> k in to
    ensures |to| == n
  {
    ElementsCount(to);
    assert Elements(to) == UpTo(n);
  }

  lemma {:induction false} ElementsCount(to: seq<nat>)
    requires forall i, j :: 0 <= i < j < |to| ==> to[i] != to[j]
    ensures |Elements(to)| == |to|
    decreases |to|
  {
    if to == [] {
      assert Elements(to) == {};
    } else {
      ElementsCount(to[1..]);
      assert to[0] !in to[1..];
      assert to == [to[0]] + to[1..];
      assert Elements(to) == Elements(to[1..]) + {to[0]};
    }
  }

  lemma MatchingIsPairing(sources: seq<LocalSource>, rows: seq<Row>, out: seq<Mapping>) returns (to: seq<nat>)
    requires DistinctIds(rows) && Matchable(sources, rows) && IsMatching(sources, rows, out)
    ensures Pairing(sources, rows, to) && DistinctAccounts(Mappings(sources, rows, to))
    ensures out == SortById(Mappings(sources, rows, to))
  {
    to :| Pairing(sources, rows, to);
    PairingGivesMatching(sources, rows, to);
    SortedListUnique(out, SortById(Mappings(sources, rows, to)));
  }

  lemma EveryRowMapped(sources: seq<LocalSource>, rows: seq<Row>, to: seq<nat>, k: nat) returns (m: Mapping)
    requires Pairing(sources, rows, to) && k < |rows|
    ensures m in Mappings(sources, rows, to) && m.accountId == rows[k].id && SourceKey(m.source) == RowKey(rows[k])
  {
    assert k in to;
    var i :| 0 <= i < |to| && to[i] == k;
    m := Mappings(sources, rows, to)[i];
    assert Accepts(rows, sources[i], to[i]);
  }

  lemma EverySourceMapped(sources: seq<LocalSource>, rows: seq<Row>, to: seq<nat>, s: LocalSource) returns (m: Mapping)
    requires Pairing(sources, rows, to) && s in sources
    ensures m in Mappings(sources, rows, to) && m.source == s
  {
    var i :| 0 <= i < |sources| && sources[i] == s;
    m := Mappings(sources, rows, to)[i];
  }

  /** A successful match leaves no source and no row over, and no account twice. */
  lemma MatchingCounts(sources: seq<LocalSource>, rows: seq<Row>, out: seq<Mapping>)
    requires DistinctIds(rows) && Matchable(sources, rows) && IsMatching(sources, rows, out)
    ensures |out| == |sources| == |rows| && DistinctAccounts(out)
  {
    var to := MatchingIsPairing(sources, rows, out);
    InjectiveOntoSameLength(to, |rows|);
  }

  /** Every row is the account of a mapping whose source has the row's email and subject identities. */
  lemma MatchingIsOnto(sources: seq<LocalSource>, rows: seq<Row>, out: seq<Mapping>, k: nat) returns (m: Mapping)
    requires DistinctIds(rows) && Matchable(sources, rows) && IsMatching(sources, rows, out) && k < |rows|
    ensures m in out && m.source in sources && m.accountId == rows[k].id && SourceKey(m.source) == RowKey(rows[k])
  {
    var to := MatchingIsPairing(sources, rows, out);
    m := EveryRowMapped(sources, rows, to, k);
  }

  /** Every source gets a mapping, to a row with its own email and subject identities. */
  lemma MatchingIsTotal(sources: seq<LocalSource>, rows: seq<Row>, out: seq<Mapping>, s: LocalSource)
    returns (m: Mapping, k: nat)
    requires DistinctIds(rows) && Matchable(sources, rows) && IsMatching(sources, rows, out) && s in sources
    ensures m in out && m.source == s && k < |rows| && m.accountId == rows[k].id
    ensures rows[k].identity == s.identity && rows[k].subject == s.subject
    ensures m.tokenMatch == (rows[k].token == s.token) && m.refreshMatch == (rows[k].refresh == s.refresh)
    ensures forall j :: 0 <= j < |rows| && rows[j].token != "" && rows[j].token == s.token ==> j == k
    ensures rows[k].token == "" || rows[k].token != s.token ==>
              forall j :: 0 <= j < |rows| && rows[j].identity == s.identity && rows[j].subject == s.subject ==> j == k
    ensures Live(rows[k])
  {
    var to := MatchingIsPairing(sources, rows, out);
    m := EverySourceMapped(sources, rows, to, s);
    assert MappingOf(rows, m);
    k :| 0 <= k < |rows| && Accepts(rows, m.source, k) && m == MakeMapping(m.source, rows[k]);
    forall j | 0 <= j < |rows| && rows[j].token != "" && rows[j].token == s.token ensures j == k {
      assert ByToken(rows, s, j);
      PickUnique(rows, s, j, k);
    }
    forall j | 0 <= j < |rows| && rows[j].identity == s.identity && rows[j].subject == s.subject
      ensures ByIdentity(rows, s, j)
    {
    }
  }

  /** The row serves Grok traffic, and no other account has its email or subject. */
  predicate Live(r: Row) {
    && r.platform == "grok" && r.kind == "oauth" && r.baseUrl == "https://cli-chat-proxy.grok.com/v1"
    && r.status == "active" && r.schedulable && r.proxyId == 0
    && r.groupCount == 1 && r.boundGrok && r.globalIdentityCount == 1
  }

  /**
    The plain case succeeds: as many sources as rows, each with the identity of its own live row and
    either the row's token or, after a rotation, a token no row has and an identity no other row has.
  */
  lemma RowForRowMatches(sources: seq<LocalSource>, rows: seq<Row>)
    requires |sources| == |rows|
    requires forall a, b :: 0 <= a < b < |rows| && rows[a].token != "" ==> rows[a].token != rows[b].token
    requires forall k :: 0 <= k < |rows| ==>
               && rows[k].refresh != "" && Live(rows[k])
               && rows[k].identity == sources[k].identity && rows[k].subject == sources[k].subject
    requires forall k :: 0 <= k < |rows| ==>
               || rows[k].token == sources[k].token != ""
               || forall j :: 0 <= j < |rows| ==>
                    && (rows[j].token == "" || rows[j].token != sources[k].token)
                    && (j != k ==> (rows[j].identity, rows[j].subject) != (rows[k].identity, rows[k].subject))
    ensures Matchable(sources, rows)
  {
    var to := seq(|rows|, (k: nat) => k);
    forall k | 0 <= k < |rows| ensures Accepts(rows, sources[k], to[k]) && k in to {
      assert to[k] == k;
      if rows[k].token == sources[k].token != "" {
        assert ByToken(rows, sources[k], k);
      } else {
        assert forall j :: 0 <= j < |rows| ==> !ByToken(rows, sources[k], j);
        assert ByIdentity(rows, sources[k], k);
      }
    }
    assert Pairing(sources, rows, to);
  }

  // ---------------------------------------------------------------- the program itself

  ghost predicate TokenIndex(rows: seq<Row>, n: nat, byHash: map<Digest, nat>)
    requires n <= |rows|
  {
    && (forall t :: t in byHash ==> byHash[t] < n && t != "" && rows[byHash[t]].token == t)
    && (forall k :: 0 <= k < n && rows[k].token != "" ==> rows[k].token in byHash && byHash[rows[k].token] == k)
  }

  /** Rows with this identity among the first n, in order. */
  predicate Candidates(rows: seq<Row>, n: nat, key: IdentityKey, ks: seq<nat>)
    requires n <= |rows|
  {
    && (forall c :: 0 <= c < |ks| ==> ks[c] < n && RowKey(rows[ks[c]]) == key)
    && (forall c, d :: 0 <= c < d < |ks| ==> ks[c] < ks[d])
  }

  predicate Indexed(byIdentity: map<IdentityKey, seq<nat>>, key: IdentityKey, k: nat) {
    key in byIdentity && k in byIdentity[key]
  }

  ghost predicate IdentityIndex(rows: seq<Row>, n: nat, byIdentity: map<IdentityKey, seq<nat>>)
    requires n <= |rows|
  {
    && (forall key :: key in byIdentity ==> Candidates(rows, n, key, byIdentity[key]))
    && (forall k :: 0 <= k < n ==> Indexed(byIdentity, RowKey(rows[k]), k))
  }

  function AddCandidate(byIdentity: map<IdentityKey, seq<nat>>, key: IdentityKey, k: nat): map<IdentityKey, seq<nat>> {
    byIdentity[key := (if key in byIdentity then byIdentity[key] else []) + [k]]
  }

  lemma CandidatesExtend(rows: seq<Row>, k: nat, key: IdentityKey, ks: seq<nat>)
    requires k < |rows| && Candidates(rows, k, key, ks)
    ensures Candidates(rows, k + 1, key, ks)
    ensures RowKey(rows[k]) == key ==> Candidates(rows, k + 1, key, ks + [k])
  {
  }

  lemma AddedCandidate(byIdentity: map<IdentityKey, seq<nat>>, key: IdentityKey, k: nat, other: IdentityKey, i: nat)
    requires Indexed(byIdentity, other, i) || (other == key && i == k)
    ensures Indexed(AddCandidate(byIdentity, key, k), other, i)
  {
    var before := if key in byIdentity then byIdentity[key] else [];
    assert AddCandidate(byIdentity, key, k)[key] == before + [k];
  }

  lemma IdentityIndexExtends(rows: seq<Row>, k: nat, byIdentity: map<IdentityKey, seq<nat>>)
    requires k < |rows| && IdentityIndex(rows, k, byIdentity)
    ensures IdentityIndex(rows, k + 1, AddCandidate(byIdentity, RowKey(rows[k]), k))
  {
    var next := AddCandidate(byIdentity, RowKey(rows[k]), k);
    forall key | key in next
      ensures Candidates(rows, k + 1, key, next[key])
    {
      CandidatesExtend(rows, k, key, if key in byIdentity then byIdentity[key] else []);
    }
    forall i | 0 <= i < k + 1
      ensures Indexed(next, RowKey(rows[i]), i)
    {
      AddedCandidate(byIdentity, RowKey(rows[k]), k, RowKey(rows[i]), i);
    }
  }

  function AddToken(byHash: map<Digest, nat>, token: Digest, k: nat): map<Digest, nat> {
    if token == "" then byHash else byHash[token := k]
  }

  lemma TokenIndexExtends(rows: seq<Row>, k: nat, byHash: map<Digest, nat>)
    requires k < |rows| && TokenIndex(rows, k, byHash) && rows[k].token !in byHash
    ensures TokenIndex(rows, k + 1, AddToken(byHash, rows[k].token, k))
  {
  }

  lemma RepeatedToken(rows: seq<Row>, k: nat, byHash: map<Digest, nat>)
    requires k < |rows| && TokenIndex(rows, k, byHash) && rows[k].token in byHash
    ensures !DistinctTokens(rows)
  {
    assert rows[byHash[rows[k].token]].token == rows[k].token != "";
  }

  method IndexRows(rows: seq<Row>)
    returns (r: Result<(map<Digest, nat>, map<IdentityKey, seq<nat>>), MatchError>)
    ensures r.Ok? <==> RowsUsable(rows)
    ensures r.Ok? ==> TokenIndex(rows, |rows|, r.value.0) && IdentityIndex(rows, |rows|, r.value.1)
  {
    var byHash: map<Digest, nat>, byIdentity: map<IdentityKey, seq<nat>> := map[], map[];
    for k: nat := 0 to |rows|
      invariant TokenIndex(rows, k, byHash)
      invariant IdentityIndex(rows, k, byIdentity)
      invariant forall i :: 0 <= i < k ==> rows[i].refresh != ""
    {
      var row := rows[k];
      if row.token in byHash {
        RepeatedToken(rows, k, byHash);
        return Err(DuplicateTokens);
      }
      TokenIndexExtends(rows, k, byHash);
      byHash := AddToken(byHash, row.token, k);
      IdentityIndexExtends(rows, k, byIdentity);
      byIdentity := AddCandidate(byIdentity, RowKey(row), k);
      if row.refresh == "" {
        return Err(NoRefreshToken(row.id));
      }
    }
    assert DistinctTokens(rows) by { TokenIndexMeansDistinct(rows, byHash); }
    r := Ok((byHash, byIdentity));
  }

  lemma TokenIndexMeansDistinct(rows: seq<Row>, byHash: map<Digest, nat>)
    requires TokenIndex(rows, |rows|, byHash)
    ensures DistinctTokens(rows)
  {
    forall a, b | 0 <= a < b < |rows| && rows[a].token != ""
      ensures rows[a].token != rows[b].token
    {
      assert byHash[rows[a].token] == a;
    }
  }

  /** The row a source resolves to, before its identity and state are checked. */
  method Resolve(rows: seq<Row>, s: LocalSource, byHash: map<Digest, nat>, byIdentity: map<IdentityKey, seq<nat>>)
    returns (r: Option<nat>)
    requires TokenIndex(rows, |rows|, byHash) && IdentityIndex(rows, |rows|, byIdentity)
    ensures r.Some? ==> r.value < |rows| && Picks(rows, s, r.value)
    ensures r.None? ==> forall k :: 0 <= k < |rows| ==> !Picks(rows, s, k)
  {
    if s.token in byHash {
      assert ByToken(rows, s, byHash[s.token]);
      return Some(byHash[s.token]);
    }
    assert forall k :: 0 <= k < |rows| ==> !ByToken(rows, s, k);
    var candidates := if SourceKey(s) in byIdentity then byIdentity[SourceKey(s)] else [];
    assert forall k :: 0 <= k < |rows| && ByIdentity(rows, s, k) ==>
        Indexed(byIdentity, RowKey(rows[k]), k) && k in candidates;
    assert forall c :: 0 <= c < |candidates| ==> ByIdentity(rows, s, candidates[c]);
    if |candidates| == 1 {
      return Some(candidates[0]);
    }
    if |candidates| >= 2 {
      assert ByIdentity(rows, s, candidates[0]) && ByIdentity(rows, s, candidates[1]);
      assert candidates[0] < candidates[1];
    }
    r := None;
  }

  lemma NotMatchable(sources: seq<LocalSource>, rows: seq<Row>, to: seq<nat>, i: nat)
    requires RowsUsable(rows) && i < |sources| && i <= |to|
    requires forall a :: 0 <= a < i ==> Accepts(rows, sources[a], to[a])
    requires forall k :: 0 <= k < |rows| && Accepts(rows, sources[i], k) ==> k in to[..i]
    ensures !Matchable(sources, rows)
  {
    if pairing: seq<nat> :| Pairing(sources, rows, pairing) {
      assert Accepts(rows, sources[i], pairing[i]);
      var a :| 0 <= a < i && to[a] == pairing[i];
      assert Accepts(rows, sources[a], pairing[a]);
      PickUnique(rows, sources[a], to[a], pairing[a]);
    }
  }

  lemma NotOnto(sources: seq<LocalSource>, rows: seq<Row>, to: seq<nat>, k: nat)
    requires RowsUsable(rows) && |to| == |sources| && k < |rows| && k !in to
    requires forall a :: 0 <= a < |to| ==> Accepts(rows, sources[a], to[a])
    ensures !Matchable(sources, rows)
  {
    if pairing: seq<nat> :| Pairing(sources, rows, pairing) {
      assert k in pairing;
      var a :| 0 <= a < |pairing| && pairing[a] == k;
      assert Accepts(rows, sources[a], pairing[a]);
      PickUnique(rows, sources[a], to[a], pairing[a]);
    }
  }

  /** One round of the matching loop. */
  method AcceptSource(
    rows: seq<Row>, s: LocalSource, byHash: map<Digest, nat>, byIdentity: map<IdentityKey, seq<nat>>, usedIds: set<int>)
    returns (r: Result<nat, MatchError>)
    requires DistinctTokens(rows) && TokenIndex(rows, |rows|, byHash) && IdentityIndex(rows, |rows|, byIdentity)
    ensures r.Ok? ==> r.value < |rows| && Accepts(rows, s, r.value) && rows[r.value].id !in usedIds
    ensures r.Err? ==> forall k :: 0 <= k < |rows| && Accepts(rows, s, k) ==> rows[k].id in usedIds
  {
    var found := Resolve(rows, s, byHash, byIdentity);
    if found.None? {
      return Err(NoStableIdentity);
    }
    var row := rows[found.value];
    forall j | 0 <= j < |rows| && Accepts(rows, s, j) ensures j == found.value {
      PickUnique(rows, s, j, found.value);
    }
    if RowKey(row) != SourceKey(s) {
      return Err(IdentitiesDiffer);
    }
    if row.id in usedIds {
      return Err(AccountReused);
    }
    if !StaticStateOk(row) {
      return Err(StaticStateFailed(row.id));
    }
    r := Ok(found.value);
  }

  ghost predicate IdsOf(rows: seq<Row>, to: seq<nat>, ids: set<int>) {
    && (forall a :: 0 <= a < |to| ==> to[a] < |rows| && rows[to[a]].id in ids)
    && (forall id :: id in ids ==> exists a :: 0 <= a < |to| && to[a] < |rows| && rows[to[a]].id == id)
  }

  lemma IdsOfExtends(rows: seq<Row>, to: seq<nat>, ids: set<int>, k: nat)
    requires IdsOf(rows, to, ids) && k < |rows|
    ensures IdsOf(rows, to + [k], ids + {rows[k].id})
  {
    var to' := to + [k];
    forall id | id in ids + {rows[k].id}
      ensures exists a :: 0 <= a < |to'| && to'[a] < |rows| && rows[to'[a]].id == id
    {
      if id == rows[k].id {
        assert to'[|to|] == k;
      } else {
        var a :| 0 <= a < |to| && to[a] < |rows| && rows[to[a]].id == id;
        assert to'[a] == to[a];
      }
    }
  }

  lemma KnownIdMeansUsed(rows: seq<Row>, to: seq<nat>, ids: set<int>, k: nat)
    requires DistinctIds(rows) && IdsOf(rows, to, ids) && k < |rows| && rows[k].id in ids
    ensures k in to
  {
    var a :| 0 <= a < |to| && to[a] < |rows| && rows[to[a]].id == rows[k].id;
    assert to[a] == k;
  }

  method FindUnmatched(rows: seq<Row>, usedIds: set<int>) returns (r: Option<nat>)
    ensures r.Some? ==> r.value < |rows| && rows[r.value].id !in usedIds
    ensures r.None? ==> forall k :: 0 <= k < |rows| ==> rows[k].id in usedIds
  {
    for k: nat := 0 to |rows|
      invariant forall i :: 0 <= i < k ==> rows[i].id in usedIds
    {
      if rows[k].id !in usedIds {
        return Some(k);
      }
    }
    r := None;
  }

  lemma MappingsExtend(sources: seq<LocalSource>, rows: seq<Row>, to: seq<nat>, k: nat)
    requires |to| < |sources| && k < |rows| && forall i :: 0 <= i < |to| ==> to[i] < |rows|
    ensures Mappings(sources, rows, to + [k]) == Mappings(sources, rows, to) + [MakeMapping(sources[|to|], rows[k])]
  {
  }

  /** The first |to| sources are paired with distinct rows, recorded in `ids` and `mappings`. */
  ghost predicate PairedSoFar(
      sources: seq<LocalSource>, rows: seq<Row>, to: seq<nat>, ids: set<int>, mappings: seq<Mapping>)
  {
    && |to| <= |sources| && IdsOf(rows, to, ids)
    && mappings == Mappings(sources, rows, to)
    && (forall a :: 0 <= a < |to| ==> Accepts(rows, sources[a], to[a]))
    && (forall a, b :: 0 <= a < b < |to| ==> to[a] != to[b])
  }

  lemma PairingExtends(
      sources: seq<LocalSource>, rows: seq<Row>, to: seq<nat>, ids: set<int>, mappings: seq<Mapping>, k: nat)
    requires PairedSoFar(sources, rows, to, ids, mappings) && |to| < |sources| && k < |rows|
    requires Accepts(rows, sources[|to|], k) && rows[k].id !in ids
    ensures PairedSoFar(sources, rows, to + [k], ids + {rows[k].id}, mappings + [MakeMapping(sources[|to|], rows[k])])
  {
    IdsOfExtends(rows, to, ids, k);
    MappingsExtend(sources, rows, to, k);
  }

  lemma NothingAccepted(sources: seq<LocalSource>, rows: seq<Row>, to: seq<nat>, ids: set<int>, mappings: seq<Mapping>)
    requires DistinctIds(rows) && RowsUsable(rows)
    requires PairedSoFar(sources, rows, to, ids, mappings) && |to| < |sources|
    requires forall k :: 0 <= k < |rows| && Accepts(rows, sources[|to|], k) ==> rows[k].id in ids
    ensures !Matchable(sources, rows)
  {
    forall k | 0 <= k < |rows| && Accepts(rows, sources[|to|], k)
      ensures k in to[..|to|]
    {
      KnownIdMeansUsed(rows, to, ids, k);
    }
    NotMatchable(sources, rows, to, |to|);
  }

  /** The matching loop over all sources; `to` records the rows it has paired. */
  method PairSources(
    sources: seq<LocalSource>, rows: seq<Row>, byHash: map<Digest, nat>, byIdentity: map<IdentityKey, seq<nat>>)
    returns (r: Result<(seq<Mapping>, set<int>), MatchError>, ghost to: seq<nat>)
    requires DistinctIds(rows) && RowsUsable(rows)
    requires TokenIndex(rows, |rows|, byHash) && IdentityIndex(rows, |rows|, byIdentity)
    ensures r.Err? ==> !Matchable(sources, rows)
    ensures r.Ok? ==> |to| == |sources| && PairedSoFar(sources, rows, to, r.value.1, r.value.0)
  {
    var mappings: seq<Mapping>, usedIds: set<int> := [], {};
    to := [];
    for i := 0 to |sources|
      invariant |to| == i && PairedSoFar(sources, rows, to, usedIds, mappings)
    {
      var found := AcceptSource(rows, sources[i], byHash, byIdentity, usedIds);
      if found.Err? {
        NothingAccepted(sources, rows, to, usedIds, mappings);
        return Err(found.error), to;
      }
      PairingExtends(sources, rows, to, usedIds, mappings, found.value);
      usedIds := usedIds + {rows[found.value].id};
      mappings := mappings + [MakeMapping(sources[i], rows[found.value])];
      to := to + [found.value];
    }
    r := Ok((mappings, usedIds));
  }

  /** `map_sources_to_accounts`: succeeds exactly when a one-to-one onto pairing exists, and returns it. */
  method MapSourcesToAccounts(sources: seq<LocalSource>, rows: seq<Row>)
    returns (r: Result<seq<Mapping>, MatchError>)
    requires DistinctIds(rows)
    ensures r.Ok? <==> Matchable(sources, rows)
    ensures r.Ok? ==> IsMatching(sources, rows, r.value)
  {
    var index := IndexRows(rows);
    if index.Err? {
      return Err(index.error);
    }
    var paired;
    ghost var to;
    paired, to := PairSources(sources, rows, index.value.0, index.value.1);
    if paired.Err? {
      return Err(paired.error);
    }
    var missing := FindUnmatched(rows, paired.value.1);
    if missing.Some? {
      NotOnto(sources, rows, to, missing.value);
      return Err(AccountsUnmatched);
    }
    forall k | 0 <= k < |rows| ensures k in to {
      KnownIdMeansUsed(rows, to, paired.value.1, k);
    }
    assert Pairing(sources, rows, to);
    PairingGivesMatching(sources, rows, to);
    r := Ok(SortById(paired.value.0));
  }
}
