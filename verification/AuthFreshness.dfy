/**
  The credential comparisons of bridge/bridge.py, the per-identity lock around each push, and
  what both guarantee for the credentials that pushes promote one after the other.
*/
module AuthFreshness {
  import opened Common

  /**
    An access token as far as it decodes: a JWT with its issue time (0 when absent or unreadable),
    its principal and the rest of its text, or a text that is no JWT.  Equal texts are equal tokens.
  */
  datatype AccessToken = Jwt(iat: int, principal: string, rest: string) | Opaque(text: string)

  /** Stored credentials; `version` is `_token_version`, "" when absent. */
  datatype Credentials = Credentials(
    email: string, sub: string, access: AccessToken, refresh: string, version: string)
  {
    /** The issue time of `token_times`. */
    function IssuedAt(): int {
      if access.Jwt? then access.iat else 0
    }

    /** `auth_subject` */
    function Subject(): string {
      if access.Jwt? then access.principal else sub
    }
  }

  predicate SubjectMismatch(current: Option<Credentials>, candidate: Credentials) {
    && current.Some? && current.value.Subject() != "" && candidate.Subject() != ""
    && current.value.Subject() != candidate.Subject()
  }

  predicate IsStale(current: Option<Credentials>, candidate: Credentials) {
    match current
    case None => false
    case Some(c) =>
      if c.refresh == "" || candidate.refresh == "" || c.refresh == candidate.refresh then false
      else if c.access != Opaque("") && c.access == candidate.access then true
      else c.IssuedAt() != 0 && candidate.IssuedAt() != 0 && candidate.IssuedAt() <= c.IssuedAt()
  }

  predicate AdvancedAfter(current: Option<Credentials>, candidate: Credentials) {
    match current
    case None => false
    case Some(c) =>
      if c.refresh == candidate.refresh then false
      else if c.IssuedAt() != 0 && candidate.IssuedAt() != 0 then c.IssuedAt() > candidate.IssuedAt()
      else c.version != ""
  }

  /** Another refresh token, issued later; where an issue time is unreadable, a versioned one. */
  predicate NewerThan(c: Credentials, candidate: Credentials) {
    && c.refresh != candidate.refresh
    && (c.IssuedAt() != 0 && candidate.IssuedAt() != 0 ==> c.IssuedAt() > candidate.IssuedAt())
    && (c.IssuedAt() == 0 || candidate.IssuedAt() == 0 ==> c.version != "")
  }

  /** Another refresh token, readably issued later. */
  predicate Later(c: Credentials, candidate: Credentials) {
    c.refresh != candidate.refresh && c.IssuedAt() > candidate.IssuedAt() > 0
  }

  /** What the test of `credentials_advanced_after_candidate` decides. */
  lemma AdvancedExactly(c: Credentials, candidate: Credentials)
    ensures AdvancedAfter(Some(c), candidate) <==> NewerThan(c, candidate)
    ensures Later(c, candidate) ==> NewerThan(c, candidate)
  {
  }

  /** The push goes on to write its candidate over what the snapshot shows. */
  predicate Accepted(current: Option<Credentials>, candidate: Credentials) {
    !SubjectMismatch(current, candidate) && !IsStale(current, candidate)
  }

  /** A refresh-capable credential with a readable issue time. */
  predicate Dated(c: Credentials) {
    c.refresh != "" && c.IssuedAt() > 0
  }

  /** The later credential keeps the refresh token or was issued strictly later. */
  predicate KeepsOrRaises(earlier: Credentials, later: Credentials) {
    later.refresh == earlier.refresh || later.IssuedAt() > earlier.IssuedAt()
  }

  /** The staleness test accepts exactly the candidates that keep or raise, for dated credentials. */
  lemma StaleExactly(current: Credentials, candidate: Credentials)
    requires Dated(current) && Dated(candidate)
    ensures IsStale(Some(current), candidate) <==> !KeepsOrRaises(current, candidate)
  {
  }

  /** Without two refresh tokens to tell apart nothing is stale; with them the same access token is,
      and an unreadable issue time is not. */
  lemma StaleUndated(current: Credentials, candidate: Credentials)
    ensures candidate.refresh in {"", current.refresh} || current.refresh == "" ==> !IsStale(Some(current), candidate)
    ensures candidate.refresh !in {"", current.refresh} && current.refresh != "" ==>
              && (candidate.access == current.access != Opaque("") ==> IsStale(Some(current), candidate))
              && (candidate.access != current.access && 0 in {current.IssuedAt(), candidate.IssuedAt()} ==>
                    !IsStale(Some(current), candidate))
  {
  }

  // ---------------------------------------------------------------- the last promotion and the stored row

  /**
    What a caller can check before pushing a credential with this refresh token: it is the one last
    promoted, or it is not the stored one and the row is no older than the last promotion.
  */
  predicate Guarded(row: Credentials, last: Credentials, refresh: string) {
    refresh == last.refresh || (refresh != row.refresh && row.IssuedAt() >= last.IssuedAt())
  }

  /** Every accepted push of a credential with this refresh token keeps or raises. */
  ghost predicate NeverGoesBack(row: Credentials, last: Credentials, refresh: string) {
    forall c: Credentials :: Dated(c) && c.refresh == refresh && Accepted(Some(row), c) ==> KeepsOrRaises(last, c)
  }

  /** An accepted credential that neither keeps nor raises: the stored refresh token with the oldest
      access token, or the first access token issued after an outdated row. */
  function GoingBack(row: Credentials, refresh: string): Credentials {
    var iat := if refresh == row.refresh then 1 else row.IssuedAt() + 1;
    Credentials(row.email, row.sub, Jwt(iat, row.Subject(), ""), refresh, "")
  }

  lemma UnguardedGoesBack(row: Credentials, last: Credentials, refresh: string)
    requires Dated(row) && Dated(last) && refresh != "" && !Guarded(row, last, refresh)
    ensures var c := GoingBack(row, refresh);
            Dated(c) && c.refresh == refresh && Accepted(Some(row), c) && !KeepsOrRaises(last, c)
  {
  }

  /** Exactly when no accepted push of a refresh token can go back behind the last promotion. */
  lemma NeverGoesBackExactly(row: Credentials, last: Credentials, refresh: string)
    requires Dated(row) && Dated(last) && refresh != ""
    ensures NeverGoesBack(row, last, refresh) <==> Guarded(row, last, refresh)
  {
    if !Guarded(row, last, refresh) {
      UnguardedGoesBack(row, last, refresh);
      assert Accepted(Some(row), GoingBack(row, refresh));
    }
  }

  // ---------------------------------------------------------------- the per-identity lock

  /** `auth_push_lock`: the table of locks, which only grows. */
  class LockTable {
    var locks: map<string, nat>
    var next: nat

    predicate Valid()
      reads this
    {
      && (forall key :: key in locks ==> locks[key] < next)
      && (forall a, b :: a in locks && b in locks && locks[a] == locks[b] ==> a == b)
    }

    constructor ()
      ensures Valid() && locks == map[]
    {
      locks, next := map[], 0;
    }

    /** The lock of an identity: always the same one, and no other identity's. */
    method AuthPushLock(identity: string) returns (lock: nat)
      requires Valid()
      modifies this
      ensures Valid()
      ensures identity in locks && locks[identity] == lock
      ensures forall key :: key in old(locks) ==> key in locks && locks[key] == old(locks)[key]
      ensures identity in old(locks) ==> locks == old(locks)
      ensures forall key :: key in locks && locks[key] == lock ==> key == identity
    {
      if identity !in locks {
        locks, next := locks[identity := next], next + 1;
      }
      lock := locks[identity];
    }
  }

  // ---------------------------------------------------------------- pushes of many threads

  /** Where a request thread is; `seen` is what its snapshot showed. */
  datatype Phase =
    | Outside | Waiting | Locked
    | Checked(seen: Option<Credentials>)
    | Written(seen: Option<Credentials>)                   // the candidate write was answered
    | Failed(seen: Option<Credentials>, preserve: bool)    // a rollback is due
    | Undoing(seen: Option<Credentials>, target: Option<Credentials>)   // about to write `target`, or delete
    | Done

  datatype Thread = Thread(key: string, candidate: Credentials, phase: Phase)

  /** The threads, the locks they hold, each identity's stored credentials, and its last promotion. */
  datatype Server = Server(
    threads: map<nat, Thread>, holder: map<string, nat>,
    accounts: map<string, Credentials>, promoted: map<string, Credentials>)

  datatype Event =
    | Arrive(thread: nat, key: string, candidate: Credentials)
    | Enter(thread: nat)
    | TakeSnapshot(thread: nat)
    | WriteCandidate(thread: nat, landed: bool, answered: bool)
    | Fail(thread: nat, preserve: bool)   // isolation, test or promotion
    | Prepare(thread: nat)                // a rollback reads the current credentials
    | Undo(thread: nat)                   // and writes
    | Promote(thread: nat)
    | Leave(thread: nat)                  // at any time: rejected, finished, or by an exception
    | Rotate(key: string, renewed: Credentials)

  function Held(s: Server, key: string): Option<Credentials> {
    if key in s.accounts then Some(s.accounts[key]) else None
  }

  predicate HoldsLock(t: Thread) {
    !t.phase.Outside? && !t.phase.Waiting?
  }

  /** Between its snapshot and the end of its writes. */
  predicate InWindow(s: Server, t: nat, key: string) {
    t in s.threads && s.threads[t].key == key && HoldsLock(s.threads[t]) &&
    !s.threads[t].phase.Locked? && !s.threads[t].phase.Done?
  }

  function MoveTo(s: Server, t: nat, phase: Phase): Server
    requires t in s.threads
  {
    s.(threads := s.threads[t := s.threads[t].(phase := phase)])
  }

  function Store(s: Server, key: string, row: Option<Credentials>): Server {
    s.(accounts := if row.Some? then s.accounts[key := row.value] else s.accounts - {key})
  }

  /** The rotated credentials a rollback is to keep. */
  predicate Keeps(s: Server, t: Thread) {
    t.phase.Failed? && t.phase.preserve && AdvancedAfter(Held(s, t.key), t.candidate)
  }

  /** What an event of a thread needs of that thread. */
  predicate Ready(s: Server, e: Event, t: Thread) {
    match e
    case Enter(_) => t.phase.Waiting? && t.key !in s.holder
    case TakeSnapshot(_) => t.phase.Locked?
    case WriteCandidate(_, landed, answered) =>
      t.phase.Checked? && Accepted(t.phase.seen, t.candidate) && (answered ==> landed)
    case Fail(_, _) => t.phase.Written?
    case Prepare(_) => t.phase.Failed?
    case Undo(_) => t.phase.Undoing?
    case Promote(_) => t.phase.Written?
    case Leave(_) => HoldsLock(t)
    case _ => false
  }

  predicate Enabled(s: Server, e: Event) {
    match e
    case Arrive(t, _, _) => t !in s.threads
    case Rotate(key, renewed) =>
      // Rotations stay out of the time between a snapshot and the write of its push.
      && key in s.accounts && renewed.refresh !in {"", s.accounts[key].refresh}
      && renewed.IssuedAt() > s.accounts[key].IssuedAt()
      && forall t :: t in s.threads && s.threads[t].key == key ==> !s.threads[t].phase.Checked?
    case _ => e.thread in s.threads && Ready(s, e, s.threads[e.thread])
  }

  function Do(s: Server, e: Event): Server
    requires Enabled(s, e)
  {
    match e
    case Arrive(t, key, candidate) => s.(threads := s.threads[t := Thread(key, candidate, Waiting)])
    case Enter(t) => MoveTo(s, t, Locked).(holder := s.holder[s.threads[t].key := t])
    case TakeSnapshot(t) => MoveTo(s, t, Checked(Held(s, s.threads[t].key)))
    case WriteCandidate(t, landed, answered) =>
      var seen := s.threads[t].phase.seen;
      var moved := MoveTo(s, t, if answered then Written(seen) else Failed(seen, false));
      if landed then Store(moved, s.threads[t].key, Some(s.threads[t].candidate)) else moved
    case Fail(t, preserve) => MoveTo(s, t, Failed(s.threads[t].phase.seen, preserve))
    case Prepare(t) =>
      var seen, keeps := s.threads[t].phase.seen, Keeps(s, s.threads[t]);
      // A created account whose credentials have rotated is quarantined, not deleted.
      if keeps && seen.None? then MoveTo(s, t, Done)
      else MoveTo(s, t, Undoing(seen, if keeps then Held(s, s.threads[t].key) else seen))
    case Undo(t) => Store(MoveTo(s, t, Done), s.threads[t].key, s.threads[t].phase.target)
    case Promote(t) => MoveTo(s, t, Done).(promoted := s.promoted[s.threads[t].key := s.threads[t].candidate])
    case Leave(t) => MoveTo(s, t, Outside).(holder := s.holder - {s.threads[t].key})
    case Rotate(key, renewed) => Store(s, key, Some(renewed))
  }

  predicate StepAt(states: seq<Server>, events: seq<Event>, k: nat)
    requires |states| == |events| + 1 && k < |events|
  {
    Enabled(states[k], events[k]) && states[k + 1] == Do(states[k], events[k])
  }

  predicate IsServerTrace(states: seq<Server>, events: seq<Event>) {
    && |states| == |events| + 1
    && forall k :: 0 <= k < |events| ==> StepAt(states, events, k)
  }

  /** Nobody is pushing and nothing has been promoted; the store may hold anything. */
  predicate Idle(s: Server) {
    s.threads == map[] && s.holder == map[] && s.promoted == map[]
  }

  // ---------------------------------------------------------------- serialization

  /** Since its write the account holds the thread's candidate or what it has been rotated to. */
  predicate HoldsSince(s: Server, thread: Thread) {
    thread.key in s.accounts && s.accounts[thread.key].IssuedAt() >= thread.candidate.IssuedAt()
  }

  /** A thread holds its identity's lock, and what it remembers of the account. */
  predicate ThreadInv(s: Server, t: nat, thread: Thread) {
    && (HoldsLock(thread) ==> thread.key in s.holder && s.holder[thread.key] == t)
    && match thread.phase
       case Checked(seen) => seen == Held(s, thread.key)
       case Written(seen) =>
         && Accepted(seen, thread.candidate) && HoldsSince(s, thread) && (thread.key in s.promoted ==> seen.Some?)
       case Failed(seen, preserve) =>
         (preserve ==> HoldsSince(s, thread)) && (thread.key in s.promoted ==> seen.Some?)
       case Undoing(seen, target) =>
         (target == seen || AdvancedAfter(target, thread.candidate)) && (thread.key in s.promoted ==> target.Some?)
       case _ => true
  }

  ghost predicate ServerInv(s: Server) {
    && (forall t :: t in s.threads ==> ThreadInv(s, t, s.threads[t]))
    && (forall key :: key in s.holder ==> s.holder[key] in s.threads)
    && (forall key :: key in s.promoted ==> key in s.accounts)
  }

  /** The identity an event is about. */
  function KeyOf(s: Server, e: Event): string
    requires Enabled(s, e)
  {
    match e
    case Arrive(_, key, _) => key
    case Rotate(key, _) => key
    case _ => s.threads[e.thread].key
  }

  /** An event leaves every other identity alone. */
  lemma OtherIdentities(s: Server, e: Event, key: string)
    requires Enabled(s, e) && (key != KeyOf(s, e) || e.Arrive?)
    ensures Held(Do(s, e), key) == Held(s, key)
    ensures key in Do(s, e).holder <==> key in s.holder
    ensures key in s.holder ==> Do(s, e).holder[key] == s.holder[key]
    ensures key in Do(s, e).promoted <==> key in s.promoted
    ensures key in s.promoted ==> Do(s, e).promoted[key] == s.promoted[key]
  {
  }

  lemma OtherThreads(s: Server, e: Event, t: nat)
    requires ServerInv(s) && Enabled(s, e) && t in s.threads && (e.Rotate? || t != e.thread)
    ensures t in Do(s, e).threads && Do(s, e).threads[t] == s.threads[t]
    ensures ThreadInv(Do(s, e), t, s.threads[t])
  {
    assert ThreadInv(s, t, s.threads[t]);
    if s.threads[t].key != KeyOf(s, e) {
      OtherIdentities(s, e, s.threads[t].key);
    } else if !e.Rotate? && !e.Arrive? {
      assert ThreadInv(s, e.thread, s.threads[e.thread]);
    }
  }

  lemma OwnThread(s: Server, e: Event)
    requires ServerInv(s) && Enabled(s, e) && !e.Rotate?
    ensures ThreadInv(Do(s, e), e.thread, Do(s, e).threads[e.thread])
  {
    if !e.Arrive? {
      assert ThreadInv(s, e.thread, s.threads[e.thread]);
    }
  }

  /** A promoted account is never deleted: only a push that found none deletes. */
  lemma PromotedStay(s: Server, e: Event, key: string)
    requires ServerInv(s) && Enabled(s, e) && key in Do(s, e).promoted
    ensures key in Do(s, e).accounts
  {
    if key == KeyOf(s, e) && !e.Rotate? && !e.Arrive? {
      assert ThreadInv(s, e.thread, s.threads[e.thread]);
    }
  }

  lemma StepKeeps(s: Server, e: Event)
    requires ServerInv(s) && Enabled(s, e)
    ensures ServerInv(Do(s, e))
  {
    forall t | t in Do(s, e).threads
      ensures ThreadInv(Do(s, e), t, Do(s, e).threads[t])
    {
      if e.Rotate? || t != e.thread {
        OtherThreads(s, e, t);
      } else {
        OwnThread(s, e);
      }
    }
    forall key | key in Do(s, e).promoted ensures key in Do(s, e).accounts {
      PromotedStay(s, e, key);
    }
  }

  lemma {:induction false} TraceKeeps(states: seq<Server>, events: seq<Event>, k: nat)
    requires IsServerTrace(states, events) && k < |states| && Idle(states[0])
    ensures ServerInv(states[k])
    decreases k
  {
    if k > 0 {
      TraceKeeps(states, events, k - 1);
      assert StepAt(states, events, k - 1);
      StepKeeps(states[k - 1], events[k - 1]);
    }
  }

  /** In every interleaving at most one push per identity is between its snapshot and its end. */
  lemma OnePushPerIdentity(states: seq<Server>, events: seq<Event>, k: nat, key: string, t: nat, u: nat)
    requires IsServerTrace(states, events) && k < |states| && Idle(states[0])
    requires InWindow(states[k], t, key) && InWindow(states[k], u, key)
    ensures t == u
  {
    TraceKeeps(states, events, k);
    assert ThreadInv(states[k], t, states[k].threads[t]) && ThreadInv(states[k], u, states[k].threads[u]);
  }

  // ---------------------------------------------------------------- freshness in every interleaving

  /** How stored credentials may change: by an accepted candidate, a rollback, or a rotation. */
  predicate FreshChange(s: Server, e: Event, before: Option<Credentials>, after: Option<Credentials>)
    requires Enabled(s, e)
  {
    match e
    case WriteCandidate(t, _, _) => after == Some(s.threads[t].candidate) && Accepted(before, s.threads[t].candidate)
    case Undo(t) =>
      && after == s.threads[t].phase.target
      && (after == s.threads[t].phase.seen || AdvancedAfter(after, s.threads[t].candidate))
    case Rotate(_, renewed) =>
      && after == Some(renewed) && before.Some? && renewed.refresh != before.value.refresh
      && renewed.IssuedAt() > before.value.IssuedAt()
    case _ => false
  }

  /**
    Serialized freshness of the writes: in every interleaving of pushes, failures and rotations,
    whatever changes an identity's credentials was decided about the very credentials it replaces.
    So a dated candidate written over dated credentials keeps the refresh token or is newer.
  */
  lemma SerializedFreshness(states: seq<Server>, events: seq<Event>, k: nat, key: string)
    requires IsServerTrace(states, events) && k < |events| && Idle(states[0])
    ensures var before, after := Held(states[k], key), Held(states[k + 1], key);
            && StepAt(states, events, k)
            && (after != before ==>
                  key == KeyOf(states[k], events[k]) && FreshChange(states[k], events[k], before, after))
            && (events[k].WriteCandidate? && after != before && before.Some? && Dated(before.value) ==>
                  Dated(after.value) ==> KeepsOrRaises(before.value, after.value))
  {
    TraceKeeps(states, events, k);
    assert StepAt(states, events, k);
    if key != KeyOf(states[k], events[k]) {
      OtherIdentities(states[k], events[k], key);
    } else if !events[k].Rotate? && !events[k].Arrive? {
      assert ThreadInv(states[k], events[k].thread, states[k].threads[events[k].thread]);
    }
  }

  predicate Promotes(states: seq<Server>, events: seq<Event>, k: nat, key: string) {
    && k < |events| && k < |states| && events[k].Promote?
    && Enabled(states[k], events[k]) && KeyOf(states[k], events[k]) == key
  }

  /** The thread whose push event k promotes. */
  function Promoter(states: seq<Server>, events: seq<Event>, k: nat, key: string): Thread
    requires Promotes(states, events, k, key)
  {
    states[k].threads[events[k].thread]
  }

  /** The history variable is the candidate of the last promotion. */
  lemma {:induction false} LastPromoted(states: seq<Server>, events: seq<Event>, a: nat, b: nat, key: string)
    requires IsServerTrace(states, events) && Promotes(states, events, a, key) && a < b <= |events|
    requires forall k :: a < k < b ==> !Promotes(states, events, k, key)
    ensures key in states[b].promoted && states[b].promoted[key] == Promoter(states, events, a, key).candidate
    decreases b
  {
    assert StepAt(states, events, b - 1);
    if a + 1 < b {
      LastPromoted(states, events, a, b - 1, key);
      assert !Promotes(states, events, b - 1, key);
      if key != KeyOf(states[b - 1], events[b - 1]) {
        OtherIdentities(states[b - 1], events[b - 1], key);
      }
    }
  }

  predicate PastSnapshot(s: Server, t: nat, key: string, seen: Option<Credentials>) {
    && t in s.threads && s.threads[t].key == key
    && (s.threads[t].phase == Checked(seen) || s.threads[t].phase == Written(seen))
  }

  lemma SnapshotStep(s: Server, e: Event, t: nat, key: string, seen: Option<Credentials>)
    requires Enabled(s, e) && PastSnapshot(Do(s, e), t, key, seen)
    ensures if e == TakeSnapshot(t) then Held(s, key) == seen else PastSnapshot(s, t, key, seen)
  {
  }

  lemma SnapshotAt(
    states: seq<Server>, events: seq<Event>, k: nat, t: nat, key: string, seen: Option<Credentials>)
    requires IsServerTrace(states, events) && k < |events| && PastSnapshot(states[k + 1], t, key, seen)
    ensures if events[k] == TakeSnapshot(t) then Held(states[k], key) == seen else PastSnapshot(states[k], t, key, seen)
  {
    assert StepAt(states, events, k);
    SnapshotStep(states[k], events[k], t, key, seen);
  }

  /** What a push saw is what the account held when it took its snapshot, inside its own window. */
  lemma {:induction false} SnapshotTaken(
    states: seq<Server>, events: seq<Event>, k: nat, t: nat, key: string, seen: Option<Credentials>) returns (q: nat)
    requires IsServerTrace(states, events) && k < |states| && Idle(states[0]) && PastSnapshot(states[k], t, key, seen)
    ensures q < k && events[q] == TakeSnapshot(t) && Held(states[q], key) == seen
    ensures forall j :: q < j <= k ==> PastSnapshot(states[j], t, key, seen)
    decreases k
  {
    assert k > 0;
    SnapshotAt(states, events, k - 1, t, key, seen);
    if events[k - 1] == TakeSnapshot(t) {
      q := k - 1;
    } else {
      q := SnapshotTaken(states, events, k - 1, t, key, seen);
    }
  }

  /** Nothing of this identity is promoted strictly between the two events. */
  predicate Successive(states: seq<Server>, events: seq<Event>, a: nat, b: nat, key: string) {
    && a < b && Promotes(states, events, a, key) && Promotes(states, events, b, key)
    && forall k :: a < k < b ==> !Promotes(states, events, k, key)
  }

  /**
    Successive promotions of one identity, in every interleaving: the second push read the account
    after the first was promoted and was accepted against what it read; it keeps the refresh token
    last promoted or raises the issue time whenever its refresh token was guarded.
  */
  lemma SuccessivePromotions(states: seq<Server>, events: seq<Event>, a: nat, b: nat, key: string)
    returns (q: nat, row: Credentials)
    requires IsServerTrace(states, events) && Idle(states[0]) && Successive(states, events, a, b, key)
    ensures a < q < b && events[q] == TakeSnapshot(events[b].thread) && Held(states[q], key) == Some(row)
    ensures var last, next := Promoter(states, events, a, key).candidate, Promoter(states, events, b, key).candidate;
            && Accepted(Some(row), next)
            && (Dated(row) && Dated(last) && Dated(next) && Guarded(row, last, next.refresh) ==>
                  KeepsOrRaises(last, next))
  {
    var t, push := events[b].thread, Promoter(states, events, b, key);
    TraceKeeps(states, events, b);
    assert ThreadInv(states[b], t, push);
    LastPromoted(states, events, a, b, key);
    row := push.phase.seen.value;
    q := SnapshotTaken(states, events, b, t, key, Some(row));
    if q < a {
      assert StepAt(states, events, a);
      assert PastSnapshot(states[a], t, key, Some(row)) && PastSnapshot(states[a + 1], t, key, Some(row));
      OnePushPerIdentity(states, events, a, key, t, events[a].thread);
    }
  }

  // ---------------------------------------------------------------- runs without disturbance

  /** A rotation of the identity, or a push that leaves its candidate without a completed rollback. */
  predicate Disturbs(s: Server, e: Event, key: string)
    requires Enabled(s, e)
  {
    && KeyOf(s, e) == key
    && (e.Rotate? || (e.Leave? && var p := s.threads[e.thread].phase; p.Written? || p.Failed? || p.Undoing?))
  }

  /** The phase of the thread that holds the identity's lock. */
  function PusherPhase(s: Server, key: string): Phase {
    if key in s.holder && s.holder[key] in s.threads && s.threads[s.holder[key]].key == key
    then s.threads[s.holder[key]].phase else Outside
  }

  /** The account holds the last promotion, or the push under way will put it back. */
  predicate Settled(s: Server, key: string) {
    var last := if key in s.promoted then Some(s.promoted[key]) else None;
    match PusherPhase(s, key)
    case Written(seen) => Held(s, key) == Some(s.threads[s.holder[key]].candidate) && (last.Some? ==> seen == last)
    case Failed(seen, preserve) =>
      && (preserve ==> Held(s, key) == Some(s.threads[s.holder[key]].candidate)) && (last.Some? ==> seen == last)
    case Undoing(_, target) => last.Some? ==> target == last
    case _ => last.Some? ==> Held(s, key) == last
  }

  lemma UndisturbedStep(s: Server, e: Event, key: string)
    requires ServerInv(s) && Enabled(s, e) && !Disturbs(s, e, key) && Settled(s, key)
    ensures Settled(Do(s, e), key)
  {
    if key != KeyOf(s, e) || e.Arrive? {
      OtherIdentities(s, e, key);
      SamePusher(s, e, key);
    } else {
      UndisturbedPush(s, e);
    }
  }

  lemma UndisturbedPush(s: Server, e: Event)
    requires ServerInv(s) && Enabled(s, e) && !e.Arrive? && !e.Rotate?
    requires !Disturbs(s, e, KeyOf(s, e)) && Settled(s, KeyOf(s, e))
    ensures Settled(Do(s, e), KeyOf(s, e))
  {
    assert ThreadInv(s, e.thread, s.threads[e.thread]);
  }

  lemma SamePusher(s: Server, e: Event, key: string)
    requires ServerInv(s) && Enabled(s, e) && (key != KeyOf(s, e) || e.Arrive?)
    ensures PusherPhase(Do(s, e), key) == PusherPhase(s, key)
  {
  }

  lemma {:induction false} UndisturbedTrace(states: seq<Server>, events: seq<Event>, k: nat, key: string)
    requires IsServerTrace(states, events) && k < |states| && Idle(states[0])
    requires forall j :: 0 <= j < k ==> StepAt(states, events, j) && !Disturbs(states[j], events[j], key)
    ensures Settled(states[k], key)
    decreases k
  {
    if k > 0 {
      UndisturbedTrace(states, events, k - 1, key);
      TraceKeeps(states, events, k - 1);
      assert StepAt(states, events, k - 1);
      UndisturbedStep(states[k - 1], events[k - 1], key);
    }
  }

  /**
    Where no rotation happens and every failed push completes its rollback, successive promotions
    of dated credentials keep the refresh token or raise the issue time, with no guard at all.
  */
  lemma UndisturbedPromotions(states: seq<Server>, events: seq<Event>, a: nat, b: nat, key: string)
    requires IsServerTrace(states, events) && Idle(states[0]) && Successive(states, events, a, b, key)
    requires forall j :: 0 <= j < b ==> StepAt(states, events, j) && !Disturbs(states[j], events[j], key)
    ensures var last, next := Promoter(states, events, a, key).candidate, Promoter(states, events, b, key).candidate;
            Dated(last) && Dated(next) ==> KeepsOrRaises(last, next)
  {
    UndisturbedTrace(states, events, b, key);
    TraceKeeps(states, events, b);
    assert ThreadInv(states[b], events[b].thread, Promoter(states, events, b, key));
    LastPromoted(states, events, a, b, key);
  }

  // ---------------------------------------------------------------- rotations under a push

  /** The push has written its candidate and neither promoted it nor begun its preserving rollback. */
  predicate Holding(s: Server, t: nat, key: string, candidate: Credentials) {
    && t in s.threads && s.threads[t].key == key && s.threads[t].candidate == candidate
    && (s.threads[t].phase.Written? || (s.threads[t].phase.Failed? && s.threads[t].phase.preserve))
  }

  lemma HeldGrows(s: Server, e: Event, t: nat, key: string, candidate: Credentials)
    requires ServerInv(s) && Enabled(s, e) && key in s.accounts
    requires Holding(s, t, key, candidate) && Holding(Do(s, e), t, key, candidate)
    ensures key in Do(s, e).accounts && Do(s, e).accounts[key].IssuedAt() >= s.accounts[key].IssuedAt()
  {
    assert ThreadInv(s, t, s.threads[t]);
    if key != KeyOf(s, e) {
      OtherIdentities(s, e, key);
    } else if !e.Rotate? && !e.Arrive? && e.thread != t {
      assert ThreadInv(s, e.thread, s.threads[e.thread]);
    }
  }

  lemma HeldGrowsAt(
    states: seq<Server>, events: seq<Event>, k: nat, t: nat, key: string, candidate: Credentials)
    requires IsServerTrace(states, events) && Idle(states[0]) && k < |events| && key in states[k].accounts
    requires Holding(states[k], t, key, candidate) && Holding(states[k + 1], t, key, candidate)
    ensures key in states[k + 1].accounts
    ensures states[k + 1].accounts[key].IssuedAt() >= states[k].accounts[key].IssuedAt()
  {
    TraceKeeps(states, events, k);
    assert StepAt(states, events, k);
    HeldGrows(states[k], events[k], t, key, candidate);
  }

  lemma {:induction false} HeldGrowsTo(
    states: seq<Server>, events: seq<Event>, a: nat, b: nat, t: nat, key: string, candidate: Credentials)
    requires IsServerTrace(states, events) && Idle(states[0]) && a <= b < |states| && key in states[a].accounts
    requires forall j :: a <= j <= b ==> Holding(states[j], t, key, candidate)
    ensures key in states[b].accounts && states[b].accounts[key].IssuedAt() >= states[a].accounts[key].IssuedAt()
    decreases b
  {
    if a < b {
      HeldGrowsTo(states, events, a, b - 1, t, key, candidate);
      HeldGrowsAt(states, events, b - 1, t, key, candidate);
    }
  }

  /** Only the thread's own events change it. */
  lemma ThreadStays(s: Server, e: Event, t: nat)
    requires Enabled(s, e) && t in s.threads && (e.Rotate? || e.thread != t)
    ensures t in Do(s, e).threads && Do(s, e).threads[t] == s.threads[t]
  {
  }

  /** A thread about to write its rollback, or done, moves on only by that write or by leaving. */
  lemma RestsUntil(s: Server, e: Event, t: nat)
    requires Enabled(s, e) && t in s.threads && (s.threads[t].phase.Undoing? || s.threads[t].phase.Done?)
    requires e != Leave(t) && e != Undo(t)
    ensures t in Do(s, e).threads && Do(s, e).threads[t] == s.threads[t]
  {
    if e.Rotate? || e.thread != t {
      ThreadStays(s, e, t);
    }
  }

  predicate AtRest(s: Server, t: nat, thread: Thread) {
    t in s.threads && s.threads[t] == thread && (thread.phase.Undoing? || thread.phase.Done?)
  }

  lemma RestsAt(states: seq<Server>, events: seq<Event>, k: nat, t: nat, thread: Thread)
    requires IsServerTrace(states, events) && k < |events| && AtRest(states[k], t, thread)
    requires events[k] != Leave(t) && events[k] != Undo(t)
    ensures AtRest(states[k + 1], t, thread)
  {
    assert StepAt(states, events, k);
    RestsUntil(states[k], events[k], t);
  }

  lemma {:induction false} ThreadRests(states: seq<Server>, events: seq<Event>, a: nat, b: nat, t: nat, thread: Thread)
    requires IsServerTrace(states, events) && a <= b < |states| && AtRest(states[a], t, thread)
    requires forall j :: a <= j < b ==> events[j] != Leave(t) && events[j] != Undo(t)
    ensures AtRest(states[b], t, thread)
    decreases b
  {
    if a < b {
      ThreadRests(states, events, a, b - 1, t, thread);
      RestsAt(states, events, b - 1, t, thread);
    }
  }

  /** At a preserving rollback, credentials with another refresh token issued later than a dated candidate
      become its target; a created account that holds such credentials is left alone. */
  lemma PreparesToKeep(s: Server, t: nat)
    requires Enabled(s, Prepare(t)) && s.threads[t].phase.preserve && s.threads[t].key in s.accounts
    requires Later(s.accounts[s.threads[t].key], s.threads[t].candidate)
    ensures Do(s, Prepare(t)).accounts == s.accounts
    ensures var thread := s.threads[t];
            Do(s, Prepare(t)).threads[t].phase ==
            if thread.phase.seen.None? then Done else Undoing(thread.phase.seen, Some(s.accounts[thread.key]))
  {
  }

  /** Until its rollback the account holds what the rotation stored, or something issued later. */
  lemma RotationHeld(
    states: seq<Server>, events: seq<Event>, r: nat, p: nat, t: nat, key: string, candidate: Credentials)
    requires IsServerTrace(states, events) && Idle(states[0]) && r < p < |states|
    requires r < |events| && events[r].Rotate? && events[r].key == key
    requires forall j :: r <= j <= p ==> Holding(states[j], t, key, candidate)
    ensures key in states[p].accounts
    ensures states[p].accounts[key].IssuedAt() >= events[r].renewed.IssuedAt() > candidate.IssuedAt()
  {
    assert StepAt(states, events, r);
    TraceKeeps(states, events, r);
    assert ThreadInv(states[r], t, states[r].threads[t]);
    HeldGrowsTo(states, events, r + 1, p, t, key, candidate);
  }

  /**
    A rotation that follows a push's candidate write is not undone by that push's preserving rollback:
    what the rollback writes back was issued no earlier than what the rotation stored.
  */
  lemma RotationSurvivesRollback(
    states: seq<Server>, events: seq<Event>, r: nat, p: nat, u: nat, t: nat, key: string, candidate: Credentials)
    requires IsServerTrace(states, events) && Idle(states[0]) && r < p < u < |events|
    requires events[r].Rotate? && events[r].key == key && events[p] == Prepare(t) && events[u] == Undo(t)
    requires forall j :: r <= j <= p ==> Holding(states[j], t, key, candidate)
    requires forall j :: p < j < u ==> events[j] != Leave(t) && events[j] != Undo(t)
    requires Dated(candidate) && Held(states[p], key).Some? && states[p].accounts[key].refresh != candidate.refresh
    ensures key in states[u + 1].accounts && states[u + 1].accounts[key].IssuedAt() >= events[r].renewed.IssuedAt()
  {
    RotationHeld(states, events, r, p, t, key, candidate);
    assert StepAt(states, events, p) && StepAt(states, events, u);
    PreparesToKeep(states[p], t);
    ThreadRests(states, events, p + 1, u, t, states[p + 1].threads[t]);
  }

  // ---------------------------------------------------------------- the guard is needed

  function PushEvents(t: nat, key: string, candidate: Credentials): seq<Event> {
    [Arrive(t, key, candidate), Enter(t), TakeSnapshot(t), WriteCandidate(t, true, true), Promote(t), Leave(t)]
  }

  /** A push whose candidate passes the isolation and the test but not the promotion, and whose
      rollback raises. */
  function LostEvents(t: nat, key: string, candidate: Credentials): seq<Event> {
    [Arrive(t, key, candidate), Enter(t), TakeSnapshot(t), WriteCandidate(t, true, true), Fail(t, true), Leave(t)]
  }

  /** The server while a thread that found the lock free is in a phase of its push. */
  function At(s: Server, t: nat, key: string, c: Credentials, phase: Phase): Server {
    s.(threads := s.threads[t := Thread(key, c, phase)], holder := s.holder[key := t])
  }

  lemma PhaseMoves(s: Server, t: nat, key: string, c: Credentials, from: Phase, to: Phase)
    ensures MoveTo(At(s, t, key, c, from), t, to) == At(s, t, key, c, to)
  {
    assert s.threads[t := Thread(key, c, from)][t := Thread(key, c, to)] == s.threads[t := Thread(key, c, to)];
  }

  /** The server after the push: its candidate is stored, and promoted or not. */
  function Pushed(s: Server, t: nat, key: string, c: Credentials, promote: bool): Server {
    Server(s.threads[t := Thread(key, c, Outside)], s.holder, s.accounts[key := c],
           if promote then s.promoted[key := c] else s.promoted)
  }

  function Stored(s: Server, key: string, c: Credentials): Server {
    Store(s, key, Some(c))
  }

  lemma PushEnters(s: Server, t: nat, key: string, c: Credentials)
    requires key !in s.holder && t !in s.threads
    ensures var waiting := s.(threads := s.threads[t := Thread(key, c, Waiting)]);
            && Enabled(s, Arrive(t, key, c)) && Do(s, Arrive(t, key, c)) == waiting
            && Enabled(waiting, Enter(t)) && Do(waiting, Enter(t)) == At(s, t, key, c, Locked)
  {
    var waiting := s.threads[t := Thread(key, c, Waiting)];
    assert waiting[t := Thread(key, c, Locked)] == s.threads[t := Thread(key, c, Locked)];
  }

  lemma PushWrites(s: Server, t: nat, key: string, c: Credentials)
    requires Accepted(Held(s, key), c)
    ensures var seen := Held(s, key);
            var locked, checked := At(s, t, key, c, Locked), At(s, t, key, c, Checked(seen));
            && Enabled(locked, TakeSnapshot(t)) && Do(locked, TakeSnapshot(t)) == checked
            && Enabled(checked, WriteCandidate(t, true, true))
            && Do(checked, WriteCandidate(t, true, true)) == At(Stored(s, key, c), t, key, c, Written(seen))
  {
    PhaseMoves(s, t, key, c, Locked, Checked(Held(s, key)));
    PhaseMoves(s, t, key, c, Checked(Held(s, key)), Written(Held(s, key)));
  }

  lemma PushEnds(s: Server, t: nat, key: string, c: Credentials, seen: Option<Credentials>, promote: bool)
    requires key !in s.holder
    ensures var end := if promote then Promote(t) else Fail(t, true);
            var written := At(Stored(s, key, c), t, key, c, Written(seen));
            && Enabled(written, end) && Enabled(Do(written, end), Leave(t))
            && Do(Do(written, end), Leave(t)) == Pushed(s, t, key, c, promote)
  {
    var stored, phase := Stored(s, key, c), if promote then Done else Failed(seen, true);
    PhaseMoves(stored, t, key, c, Written(seen), phase);
    PhaseMoves(stored, t, key, c, phase, Outside);
    assert s.holder[key := t] - {key} == s.holder;
  }

  function EventsOf(t: nat, key: string, c: Credentials, promote: bool): seq<Event> {
    if promote then PushEvents(t, key, c) else LostEvents(t, key, c)
  }

  lemma JoinTraces(first: seq<Server>, events: seq<Event>, second: seq<Server>, more: seq<Event>)
    requires IsServerTrace(first, events) && IsServerTrace(second, more) && first[|events|] == second[0]
    ensures IsServerTrace(first + second[1..], events + more)
    ensures forall k :: 0 <= k < |second| ==> (first + second[1..])[|events| + k] == second[k]
  {
    var states, all := first + second[1..], events + more;
    forall k | 0 <= k < |all|
      ensures StepAt(states, all, k)
    {
      if k < |events| {
        assert StepAt(first, events, k);
      } else {
        assert StepAt(second, more, k - |events|);
        assert states[k] == second[k - |events|] && states[k + 1] == second[k + 1 - |events|];
      }
    }
  }

  lemma TwoSteps(s0: Server, e: Event, s1: Server, f: Event, s2: Server)
    requires Enabled(s0, e) && Do(s0, e) == s1 && Enabled(s1, f) && Do(s1, f) == s2
    ensures IsServerTrace([s0, s1, s2], [e, f])
  {
  }

  lemma PushStarts(s: Server, t: nat, key: string, c: Credentials) returns (states: seq<Server>)
    requires key !in s.holder && t !in s.threads && Accepted(Held(s, key), c)
    ensures IsServerTrace(states, PushEvents(t, key, c)[..4]) && |states| == 5 && states[0] == s
    ensures states[4] == At(Stored(s, key, c), t, key, c, Written(Held(s, key)))
  {
    var waiting := s.(threads := s.threads[t := Thread(key, c, Waiting)]);
    var locked, checked := At(s, t, key, c, Locked), At(s, t, key, c, Checked(Held(s, key)));
    var written := At(Stored(s, key, c), t, key, c, Written(Held(s, key)));
    PushEnters(s, t, key, c);
    PushWrites(s, t, key, c);
    var enters, writes := [Arrive(t, key, c), Enter(t)], [TakeSnapshot(t), WriteCandidate(t, true, true)];
    TwoSteps(s, enters[0], waiting, enters[1], locked);
    TwoSteps(locked, writes[0], checked, writes[1], written);
    JoinTraces([s, waiting, locked], enters, [locked, checked, written], writes);
    states := [s, waiting, locked] + [locked, checked, written][1..];
    assert enters + writes == PushEvents(t, key, c)[..4];
  }

  /** Any accepted push of a new thread can be carried to its promotion, or lost, when the lock is free. */
  lemma PushRuns(s: Server, t: nat, key: string, c: Credentials, promote: bool) returns (states: seq<Server>)
    requires key !in s.holder && t !in s.threads && Accepted(Held(s, key), c)
    ensures IsServerTrace(states, EventsOf(t, key, c, promote)) && |states| == 7 && states[0] == s
    ensures states[4] == At(Stored(s, key, c), t, key, c, Written(Held(s, key)))
    ensures states[6] == Pushed(s, t, key, c, promote)
  {
    var first := PushStarts(s, t, key, c);
    var end := if promote then Promote(t) else Fail(t, true);
    PushEnds(s, t, key, c, Held(s, key), promote);
    var last := [first[4], Do(first[4], end), Pushed(s, t, key, c, promote)];
    TwoSteps(last[0], end, last[1], Leave(t), last[2]);
    JoinTraces(first, PushEvents(t, key, c)[..4], last, [end, Leave(t)]);
    states := first + last[1..];
    assert PushEvents(t, key, c)[..4] + [end, Leave(t)] == EventsOf(t, key, c, promote);
  }

  /** Nobody holds a lock. */
  predicate Quiet(s: Server) {
    s.holder == map[] && forall t :: t in s.threads ==> s.threads[t].phase == Outside
  }

  /** One more push at the end of a trace. */
  lemma ThenPush(states: seq<Server>, events: seq<Event>, t: nat, key: string, c: Credentials, promote: bool)
    returns (states': seq<Server>, events': seq<Event>)
    requires IsServerTrace(states, events) && Quiet(states[|events|])
    requires t !in states[|events|].threads && Accepted(Held(states[|events|], key), c)
    ensures events' == events + EventsOf(t, key, c, promote) && IsServerTrace(states', events') && states <= states'
    ensures var end := states'[|events| + 6];
            && Quiet(end) && end.threads.Keys == states[|events|].threads.Keys + {t} && Held(end, key) == Some(c)
    ensures promote ==> PromotesAt(states', events', |events| + 4, key, c)
  {
    var more := PushRuns(states[|events|], t, key, c, promote);
    JoinTraces(states, events, more, EventsOf(t, key, c, promote));
    states', events' := states + more[1..], events + EventsOf(t, key, c, promote);
    assert states'[|events| + 4] == more[4] && states'[|events| + 6] == more[6];
  }

  lemma ThenRotate(states: seq<Server>, events: seq<Event>, key: string, c: Credentials)
    returns (states': seq<Server>, events': seq<Event>)
    requires IsServerTrace(states, events) && Enabled(states[|events|], Rotate(key, c))
    ensures events' == events + [Rotate(key, c)] && states' == states + [Stored(states[|events|], key, c)]
    ensures IsServerTrace(states', events') && Held(states'[|events| + 1], key) == Some(c)
  {
    var rotated := [states[|events|], Stored(states[|events|], key, c)];
    JoinTraces(states, events, rotated, [Rotate(key, c)]);
    states', events' := states + rotated[1..], events + [Rotate(key, c)];
  }

  predicate PromotesAt(states: seq<Server>, events: seq<Event>, k: nat, key: string, c: Credentials) {
    Promotes(states, events, k, key) && Promoter(states, events, k, key).candidate == c
  }

  lemma LongerTrace(
    states: seq<Server>, events: seq<Event>, states': seq<Server>, events': seq<Event>,
    k: nat, key: string, c: Credentials)
    requires states <= states' && events <= events' && PromotesAt(states, events, k, key, c)
    ensures PromotesAt(states', events', k, key, c)
  {
  }

  /** Wherever the guard fails, the next push can promote a credential that goes back. */
  lemma UnguardedPushRuns(s: Server, t: nat, key: string, refresh: string) returns (states: seq<Server>, c: Credentials)
    requires key !in s.holder && t !in s.threads && key in s.promoted && key in s.accounts
    requires Dated(s.accounts[key]) && Dated(s.promoted[key]) && refresh != ""
    requires !Guarded(s.accounts[key], s.promoted[key], refresh)
    ensures c.refresh == refresh && Dated(c) && !KeepsOrRaises(s.promoted[key], c)
    ensures IsServerTrace(states, PushEvents(t, key, c)) && states[0] == s
    ensures PromotesAt(states, PushEvents(t, key, c), 4, key, c)
  {
    c := GoingBack(s.accounts[key], refresh);
    UnguardedGoesBack(s.accounts[key], s.promoted[key], refresh);
    states := PushRuns(s, t, key, c, true);
    assert PushEvents(t, key, c)[4] == Promote(t);
  }

  function Example(refresh: string, iat: int): Credentials {
    Credentials("a@example.com", "", Jwt(iat, "user", refresh), refresh, "")
  }

  const EMPTY := Server(map[], map[], map[], map[])

  /** A trace in which R1, issued at 10, is promoted and then R2, issued at 5. */
  ghost predicate GoesBack(states: seq<Server>, events: seq<Event>, b: nat, key: string) {
    && IsServerTrace(states, events) && Idle(states[0]) && 4 < b
    && PromotesAt(states, events, 4, key, Example("R1", 10)) && PromotesAt(states, events, b, key, Example("R2", 5))
    && forall k :: 4 < k < b && k < |events| ==> !events[k].Promote?
  }

  lemma FirstPush(key: string) returns (states: seq<Server>, events: seq<Event>)
    ensures IsServerTrace(states, events) && Idle(states[0]) && events == PushEvents(0, key, Example("R1", 10))
    ensures Quiet(states[6]) && states[6].threads.Keys == {0} && Held(states[6], key) == Some(Example("R1", 10))
    ensures PromotesAt(states, events, 4, key, Example("R1", 10))
  {
    states, events := ThenPush([EMPTY], [], 0, key, Example("R1", 10), true);
    assert [] + PushEvents(0, key, Example("R1", 10)) == PushEvents(0, key, Example("R1", 10));
  }

  /** A rotation to R2, then R2 pushed with an older access token. */
  lemma RotationThenOldToken(key: string) returns (states: seq<Server>, events: seq<Event>)
    ensures GoesBack(states, events, 11, key) && !KeepsOrRaises(Example("R1", 10), Example("R2", 5))
  {
    var first, pushed := FirstPush(key);
    var rotated, rotation := ThenRotate(first, pushed, key, Example("R2", 11));
    states, events := ThenPush(rotated, rotation, 1, key, Example("R2", 5), true);
    LongerTrace(first, pushed, states, events, 4, key, Example("R1", 10));
  }

  lemma LostPush(key: string) returns (states: seq<Server>, events: seq<Event>)
    ensures IsServerTrace(states, events) && Idle(states[0]) && |events| == 12
    ensures Quiet(states[12]) && states[12].threads.Keys == {0, 1} && Held(states[12], key) == Some(Example("R2", 20))
    ensures PromotesAt(states, events, 4, key, Example("R1", 10))
    ensures forall k :: 0 <= k < 12 ==> !events[k].Rotate? && (k > 4 ==> !events[k].Promote?)
  {
    var first, pushed := FirstPush(key);
    states, events := ThenPush(first, pushed, 1, key, Example("R2", 20), false);
    LongerTrace(first, pushed, states, events, 4, key, Example("R1", 10));
  }

  /** No rotation: a failed push of R2 leaves it stored, then R2 is pushed with an older access token. */
  lemma LostRollbackThenOldToken(key: string) returns (states: seq<Server>, events: seq<Event>)
    ensures GoesBack(states, events, 16, key) && !KeepsOrRaises(Example("R1", 10), Example("R2", 5))
    ensures forall k :: 0 <= k < |events| ==> !events[k].Rotate?
  {
    var failed, lost := LostPush(key);
    states, events := ThenPush(failed, lost, 2, key, Example("R2", 5), true);
    LongerTrace(failed, lost, states, events, 4, key, Example("R1", 10));
  }
}
