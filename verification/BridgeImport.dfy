/**
  The auth-push transaction of bridge/bridge.py against a remote account store.

  Every call to the store may succeed, fail without effect, or fail after taking effect, and
  before every call background rotations may replace credentials.  The session records every
  state the rows pass through until the post-import test has passed.
*/
module BridgeImport {
  import opened Common
  import opened AuthFreshness

  datatype Row = Row(name: string, credentials: Credentials, groups: seq<int>, schedulable: bool)

  type Rows = map<int, Row>

  /** An account as it was when it was looked up. */
  datatype Found = Found(id: int, row: Row)

  datatype Response =
    | ProbeRejected | PrincipalMismatch(id: int) | StaleAuth(id: int)
    | CandidateWriteFailed(rolledBack: bool) | IsolationFailed(rolledBack: bool)
    | PostimportProbeFailed(rolledBack: bool) | PromotionFailed(rolledBack: bool)
    | Imported(id: int)
    | ImportFailed   // any exception no handler caught

  predicate SameTokens(a: Credentials, b: Credentials) {
    a.access == b.access && a.refresh == b.refresh
  }

  /** The candidate's own refresh token in a row that traffic can reach. */
  predicate Exposed(candidate: Credentials, row: Row) {
    row.credentials.refresh == candidate.refresh && row.groups != []
  }

  /** No row exposes the candidate unless the snapshot's row of that account already did. */
  predicate Isolated(candidate: Credentials, atSnapshot: Rows, rows: Rows) {
    forall id :: id in rows && Exposed(candidate, rows[id]) ==> id in atSnapshot && Exposed(candidate, atSnapshot[id])
  }

  /** Unchanged, or rotated: issued later, and never back to the candidate's refresh token. */
  predicate Rotated(candidate: Credentials, before: Credentials, after: Credentials) {
    after == before || (after.IssuedAt() > before.IssuedAt() && after.refresh != candidate.refresh)
  }

  predicate RowRotated(candidate: Credentials, before: Row, after: Row) {
    after == before.(credentials := after.credentials) && Rotated(candidate, before.credentials, after.credentials)
  }

  /** What rotations alone may do to one account. */
  predicate RotatedAt(candidate: Credentials, before: Rows, after: Rows, id: int) {
    (id in before <==> id in after) && (id in before ==> RowRotated(candidate, before[id], after[id]))
  }

  predicate OnlyRotated(candidate: Credentials, before: Rows, after: Rows) {
    before.Keys == after.Keys && forall id :: id in before ==> RowRotated(candidate, before[id], after[id])
  }

  /** The row stays and its credentials at most rotate. */
  predicate EvolvedAt(candidate: Credentials, before: Rows, after: Rows, id: int) {
    id in before ==> id in after && Rotated(candidate, before[id].credentials, after[id].credentials)
  }

  /** The push may write this account: it is the snapshot's, or it did not exist at the snapshot. */
  predicate Own(atSnapshot: Rows, mine: Option<int>, id: int) {
    id !in atSnapshot || mine == Some(id)
  }

  /** Every account of the snapshot is still there, and all but the push's own have at most rotated. */
  predicate OthersKept(candidate: Credentials, atSnapshot: Rows, mine: Option<int>, rows: Rows) {
    forall id :: id in atSnapshot ==>
      id in rows && (Own(atSnapshot, mine, id) || RowRotated(candidate, atSnapshot[id], rows[id]))
  }

  predicate Matches(row: Row, name: string, email: string, subject: string) {
    || row.name == name
    || (email != "" && row.credentials.email == email)
    || (subject != "" && row.credentials.sub == subject)
  }

  function MatchingIds(rows: Rows, name: string, email: string, subject: string): (ids: set<int>)
    ensures forall id :: id in ids <==> id in rows && Matches(rows[id], name, email, subject)
  {
    set id | id in rows && Matches(rows[id], name, email, subject)
  }

  /** More than one account matches. */
  ghost predicate Ambiguous(rows: Rows, name: string, email: string, subject: string) {
    exists a, b :: a in rows && b in rows && a != b &&
      Matches(rows[a], name, email, subject) && Matches(rows[b], name, email, subject)
  }

  /** The row is gone, or out of every group and unschedulable. */
  predicate GoneOrQuarantined(rows: Rows, id: int) {
    id in rows ==> rows[id].groups == [] && !rows[id].schedulable
  }

  /** The row is the snapshot's again, or (if kept) the snapshot's with credentials newer than the candidate. */
  predicate Restored(candidate: Credentials, f: Found, preserve: bool, rows: Rows) {
    && f.id in rows
    && rows[f.id] == f.row.(credentials := rows[f.id].credentials)
    && (|| rows[f.id].credentials == f.row.credentials
        || (preserve && NewerThan(rows[f.id].credentials, candidate)))
  }

  /** What the store shows when `rollback_import_candidate` has reported success. */
  predicate RolledBack(candidate: Credentials, snapshot: Option<Found>, id: int, preserve: bool, rows: Rows) {
    match snapshot
    case None => GoneOrQuarantined(rows, id)
    case Some(f) => Restored(candidate, f, preserve, rows)
  }

  /** Reading back the tokens that were written means nothing has rotated in between. */
  lemma SameTokensNeverRotated(candidate: Credentials, written: Credentials, between: Credentials, read: Credentials)
    requires Rotated(candidate, written, between) && Rotated(candidate, between, read) && SameTokens(read, written)
    ensures read == written
  {
  }

  /** How a remote call ends. */
  datatype Call = Done | FailedUntouched | FailedAfterEffect

  /** One push, from its probe to its response. */
  class ImportSession {
    const candidate: Credentials
    const name: string
    const group: int
    var rows: Rows
    ghost var atSnapshot: Rows       // the rows when the snapshot was taken
    ghost var mine: Option<int>      // the account the snapshot found
    ghost var seen: set<Rows>        // every state of the rows from the snapshot until the test passes
    ghost var testPassed: bool
    ghost var wrote: bool
    ghost var troubles: nat          // the calls that have failed and the rotations there have been

    ghost predicate Valid()
      reads this
    {
      && (forall state :: state in seen ==> Isolated(candidate, atSnapshot, state))
      && (!testPassed ==> rows in seen)
      && OthersKept(candidate, atSnapshot, mine, rows)
    }

    /** The record only grows, and the push's own bookkeeping changes only where said. */
    twostate predicate Continues()
      reads this
    {
      && old(seen) <= seen && testPassed == old(testPassed) && atSnapshot == old(atSnapshot) && mine == old(mine)
      && troubles >= old(troubles)
    }

    /** Every call so far has succeeded and nothing has rotated. */
    twostate predicate Untroubled()
      reads this
    {
      troubles == old(troubles)
    }

    constructor (candidate: Credentials, name: string, group: int, rows: Rows)
      ensures Valid() && this.rows == atSnapshot == rows && seen == {rows}
      ensures this.candidate == candidate && this.name == name && this.group == group
      ensures !testPassed && !wrote && mine == None && troubles == 0
    {
      this.candidate, this.name, this.group, this.rows := candidate, name, group, rows;
      atSnapshot, mine, seen, testPassed, wrote, troubles := rows, None, {rows}, false, false, 0;
    }

    /** Every change of the rows goes through here. */
    method Become(next: Rows)
      requires Valid()
      requires !testPassed ==> Isolated(candidate, atSnapshot, next)
      requires OthersKept(candidate, atSnapshot, mine, next)
      modifies this`rows, this`seen
      ensures Valid() && Continues() && rows == next
    {
      rows := next;
      if !testPassed {
        seen := seen + {next};
      }
    }

    /** Every write of one account: only the push's own, and never exposing the candidate before the test. */
    method BecomeAt(id: int, row: Row)
      requires Valid() && Own(atSnapshot, mine, id)
      requires !testPassed && Exposed(candidate, row) ==> id in atSnapshot && Exposed(candidate, atSnapshot[id])
      modifies this`rows, this`seen
      ensures Valid() && Continues() && rows == old(rows)[id := row]
    {
      Become(rows[id := row]);
    }

    /** Background rotations before a call: any number, of any accounts. */
    method Background()
      requires Valid()
      modifies this`rows, this`seen, this`troubles
      ensures Valid() && Continues() && OnlyRotated(candidate, old(rows), rows)
      ensures Untroubled() ==> rows == old(rows)
    {
      var count: int := *;
      for i := 0 to if count < 0 then 0 else count
        invariant Valid() && Continues() && OnlyRotated(candidate, old(rows), rows)
        invariant Untroubled() ==> rows == old(rows)
      {
        var id: int := *;
        var renewed: Credentials := *;
        if id in rows && renewed.IssuedAt() > rows[id].credentials.IssuedAt() && renewed.refresh != candidate.refresh {
          Become(rows[id := rows[id].(credentials := renewed)]);
          troubles := troubles + 1;
        }
      }
    }

    // -------------------------------------------------------------- reads

    /** `find_account_snapshot`: the only account that matches, none, or an error (the outer None)
        when the query fails or more than one matches. */
    method FindSnapshot(email: string, subject: string) returns (r: Option<Option<Found>>)
      requires Valid()
      modifies this`rows, this`seen, this`troubles
      ensures Valid() && Continues() && OnlyRotated(candidate, old(rows), rows)
      ensures r.Some? && r.value.None? ==> forall id :: id in rows ==> !Matches(rows[id], name, email, subject)
      ensures r.Some? && r.value.Some? ==>
                var f := r.value.value;
                && f.id in rows && f.row == rows[f.id]
                && forall id :: id in rows ==> (Matches(rows[id], name, email, subject) <==> id == f.id)
      ensures Untroubled() ==> rows == old(rows) && (r.None? ==> Ambiguous(rows, name, email, subject))
    {
      Background();
      var answered: bool := *;
      troubles := if answered then troubles else troubles + 1;
      var matches := MatchingIds(rows, name, email, subject);
      if !answered {
        return None;
      }
      if id: int :| id in matches {
        if other: int :| other in matches - {id} {
          return None;
        }
        assert forall x: int :: x in matches && x != id ==> x in matches - {id};
        return Some(Some(Found(id, rows[id])));
      }
      r := Some(None);
    }

    /** `find_account_snapshot_by_id` and `account_state_fingerprint`: one account as it is now. */
    method ReadState(id: int) returns (r: Option<Option<Row>>)
      requires Valid()
      modifies this`rows, this`seen, this`troubles
      ensures Valid() && Continues() && RotatedAt(candidate, old(rows), rows, id)
      ensures r.Some? ==> r.value == (if id in rows then Some(rows[id]) else None)
      ensures Untroubled() ==> r.Some? && rows == old(rows)
    {
      Background();
      var answered: bool := *;
      troubles := if answered then troubles else troubles + 1;
      if !answered {
        return None;
      }
      r := Some(if id in rows then Some(rows[id]) else None);
    }

    method FindCredentials(id: int) returns (r: Option<Option<Credentials>>)
      requires Valid()
      modifies this`rows, this`seen, this`troubles
      ensures Valid() && Continues() && RotatedAt(candidate, old(rows), rows, id)
      ensures r.Some? ==> r.value == (if id in rows then Some(rows[id].credentials) else None)
      ensures Untroubled() ==> r.Some? && rows == old(rows)
    {
      var state := ReadState(id);
      if state.None? {
        return None;
      }
      r := Some(if state.value.Some? then Some(state.value.value.credentials) else None);
    }

    // -------------------------------------------------------------- writes

    /** The new candidate row: no groups, not schedulable. */
    method CreateAccount() returns (id: Option<int>)
      requires Valid() && !testPassed
      modifies this`rows, this`seen, this`wrote, this`troubles
      ensures Valid() && Continues()
      ensures id.Some? ==>
                id.value in rows && id.value !in atSnapshot && rows[id.value] == Row(name, candidate, [], false)
      ensures Untroubled() ==> id.Some?
    {
      wrote := true;
      Background();
      var newId: int := *;
      var outcome: Call := *;
      troubles := if outcome.Done? && newId !in rows then troubles else troubles + 1;
      if outcome.FailedUntouched? || newId in rows {
        return None;
      }
      BecomeAt(newId, Row(name, candidate, [], false));
      id := if outcome.Done? then Some(newId) else None;
    }

    /** A full account update.  Whether the update applies the schedulable flag is left open. */
    method PutAccount(id: int, written: Row) returns (ok: bool)
      requires Valid() && Own(atSnapshot, mine, id)
      requires !testPassed && Exposed(candidate, written) ==> id in atSnapshot && Exposed(candidate, atSnapshot[id])
      modifies this`rows, this`seen, this`wrote, this`troubles
      ensures Valid() && Continues()
      ensures ok ==> id in rows && rows[id] == written.(schedulable := rows[id].schedulable)
      ensures Untroubled() && id in old(rows) ==> ok
    {
      wrote := true;
      Background();
      var outcome: Call := *;
      var honoured: bool := *;
      troubles := if outcome.Done? then troubles else troubles + 1;
      if outcome.FailedUntouched? || id !in rows {
        return false;
      }
      BecomeAt(id, if honoured then written else written.(schedulable := rows[id].schedulable));
      ok := outcome.Done?;
    }

    /** A partial update of the groups alone. */
    method PutGroups(id: int, groups: seq<int>) returns (ok: bool)
      requires Valid() && Own(atSnapshot, mine, id) && (!testPassed ==> groups == [])
      modifies this`rows, this`seen, this`wrote, this`troubles
      ensures Valid() && Continues() && EvolvedAt(candidate, old(rows), rows, id)
      ensures Untroubled() && id in old(rows) ==> ok && id in rows && rows[id] == old(rows)[id].(groups := groups)
    {
      wrote := true;
      Background();
      var outcome: Call := *;
      troubles := if outcome.Done? then troubles else troubles + 1;
      if outcome.FailedUntouched? || id !in rows {
        return false;
      }
      BecomeAt(id, rows[id].(groups := groups));
      ok := outcome.Done?;
    }

    method SetSchedulable(id: int, flag: bool) returns (ok: bool)
      requires Valid() && Own(atSnapshot, mine, id)
      modifies this`rows, this`seen, this`wrote, this`troubles
      ensures Valid() && Continues()
      ensures id in old(rows) ==>
                id in rows && RowRotated(candidate, old(rows)[id].(schedulable := rows[id].schedulable), rows[id])
      ensures ok ==> id in rows && rows[id].schedulable == flag
      ensures Untroubled() && id in old(rows) ==> ok && rows[id] == old(rows)[id].(schedulable := flag)
    {
      wrote := true;
      Background();
      var outcome: Call := *;
      troubles := if outcome.Done? then troubles else troubles + 1;
      if outcome.FailedUntouched? || id !in rows {
        return false;
      }
      BecomeAt(id, rows[id].(schedulable := flag));
      ok := outcome.Done?;
    }

    /** The DELETE call: None when it raises, else whether its status is one of the three good ones. */
    method SendDelete(id: int) returns (accepted: Option<bool>)
      requires Valid() && id !in atSnapshot
      modifies this`rows, this`seen, this`wrote, this`troubles
      ensures Valid() && Continues()
      ensures Untroubled() ==> accepted == Some(true) && id !in rows
    {
      wrote := true;
      Background();
      var status: int := *;
      var answered: bool, effective: bool := *, *;
      var fine := answered && status in {200, 204, 404} && (id in rows ==> effective);
      troubles := if fine then troubles else troubles + 1;
      if effective {
        Become(rows - {id});
      }
      accepted := if answered then Some(status in {200, 204, 404}) else None;
    }

    /** `delete_sub2api_account`: None when a call raises; success means a later GET found nothing. */
    method DeleteAccount(id: int) returns (r: Option<bool>)
      requires Valid() && id !in atSnapshot
      modifies this`rows, this`seen, this`wrote, this`troubles
      ensures Valid() && Continues()
      ensures r == Some(true) ==> id !in rows
      ensures Untroubled() ==> r == Some(true)
    {
      var accepted := SendDelete(id);
      if accepted != Some(true) {
        return accepted;
      }
      var state := ReadState(id);
      if state.None? {
        return None;
      }
      r := Some(state.value.None?);
    }

    // -------------------------------------------------------------- the steps of a push

    /** `quarantine_sub2api_account` */
    method Quarantine(id: int) returns (ok: bool)
      requires Valid() && Own(atSnapshot, mine, id)
      modifies this`rows, this`seen, this`wrote, this`troubles
      ensures Valid() && Continues()
      ensures ok ==> id in rows && GoneOrQuarantined(rows, id)
      ensures Untroubled() && id in old(rows) ==> ok
    {
      ok := PutGroups(id, []);
      if !ok {
        return;
      }
      ok := SetSchedulable(id, false);
      if !ok {
        return;
      }
      var state := ReadState(id);
      ok := state.Some? && state.value.Some? && !state.value.value.schedulable && state.value.value.groups == [];
    }

    /** The writes of `restore_sub2api_account` and the read that confirms them. */
    method WriteBack(id: int, row: Row) returns (ok: bool)
      requires Valid() && Own(atSnapshot, mine, id)
      requires !testPassed && Exposed(candidate, row) ==> id in atSnapshot && Exposed(candidate, atSnapshot[id])
      modifies this`rows, this`seen, this`wrote, this`troubles
      ensures Valid() && Continues()
      ensures ok ==> id in rows && rows[id] == row
      ensures Untroubled() && id in old(rows) ==> ok
    {
      ok := PutAccount(id, row);
      if !ok {
        return;
      }
      ok := SetSchedulable(id, row.schedulable);
      if !ok {
        return;
      }
      ghost var between := rows[id].credentials;
      var state := ReadState(id);
      ok := && state.Some? && state.value.Some?
            && SameTokens(state.value.value.credentials, row.credentials)
            && state.value.value.groups == row.groups
            && state.value.value.schedulable == row.schedulable;
      if ok {
        SameTokensNeverRotated(candidate, row.credentials, between, rows[id].credentials);
      }
    }

    /** `restore_sub2api_account`; None when the lookup of the current credentials raises. */
    method Restore(f: Found, preserve: bool) returns (r: Option<bool>)
      requires Valid() && mine == Some(f.id) && f.id in atSnapshot && f.row == atSnapshot[f.id]
      modifies this`rows, this`seen, this`wrote, this`troubles
      ensures Valid() && Continues()
      ensures r == Some(true) ==> Restored(candidate, f, preserve, rows)
      ensures r == Some(true) && preserve && Later(old(rows)[f.id].credentials, candidate) ==>
                rows[f.id].credentials.IssuedAt() >= old(rows)[f.id].credentials.IssuedAt()
      ensures Untroubled() ==>
                && r == Some(true)
                && rows[f.id] == if preserve && NewerThan(old(rows)[f.id].credentials, candidate) then
                     f.row.(credentials := old(rows)[f.id].credentials) else f.row
    {
      var restored := f.row.credentials;
      if preserve {
        var current := FindCredentials(f.id);
        if current.None? {
          return None;
        }
        AdvancedExactly(current.value.value, candidate);
        if AdvancedAfter(current.value, candidate) {
          restored := current.value.value;
        }
      }
      var ok := WriteBack(f.id, f.row.(credentials := restored));
      r := Some(ok);
    }

    /** The account a push works on: the snapshot's, or one that did not exist at snapshot time. */
    ghost predicate Target(snapshot: Option<Found>, id: int)
      reads this
    {
      if snapshot.Some? then id == snapshot.value.id else id !in atSnapshot
    }

    /** What the push knows is what its snapshot showed. */
    ghost predicate Binding(snapshot: Option<Found>)
      reads this
    {
      match snapshot
      case None => mine == None && forall id :: id in atSnapshot ==> atSnapshot[id].name != name
      case Some(f) => mine == Some(f.id) && f.id in atSnapshot && f.row == atSnapshot[f.id]
    }

    /** `rollback_import_candidate`: the row was created when there was no snapshot. */
    method Rollback(id: int, snapshot: Option<Found>, preserve: bool) returns (r: Option<bool>)
      requires Valid() && Binding(snapshot) && Target(snapshot, id)
      modifies this`rows, this`seen, this`wrote, this`troubles
      ensures Valid() && Continues()
      ensures r == Some(true) ==> RolledBack(candidate, snapshot, id, preserve, rows)
      ensures r == Some(true) && preserve && id in old(rows) && Later(old(rows)[id].credentials, candidate) ==>
                id in rows
                && (snapshot.Some? ==> rows[id].credentials.IssuedAt() >= old(rows)[id].credentials.IssuedAt())
      ensures Untroubled() ==>
                && r == Some(true)
                && var keeps := preserve && id in old(rows) && NewerThan(old(rows)[id].credentials, candidate);
                   if snapshot.None? then id in rows <==> keeps
                   else rows[id] == if keeps then snapshot.value.row.(credentials := old(rows)[id].credentials)
                                    else snapshot.value.row
    {
      if snapshot.Some? {
        r := Restore(snapshot.value, preserve);
        return;
      }
      var current := FindCredentials(id);
      if current.None? {
        return None;
      }
      if current.value.Some? {
        AdvancedExactly(current.value.value, candidate);
      }
      if preserve && AdvancedAfter(current.value, candidate) {
        var ok := Quarantine(id);
        return Some(ok);
      }
      r := DeleteAccount(id);
    }

    /** `test_sub2api_account_result`, on an isolated row only; its answer is None when the request raises. */
    method TestAccount(id: int, answer: Option<bool>)
      requires Valid() && id in rows && GoneOrQuarantined(rows, id)
      modifies this`rows, this`seen, this`testPassed, this`troubles
      ensures Valid() && old(seen) <= seen && RotatedAt(candidate, old(rows), rows, id)
      ensures atSnapshot == old(atSnapshot) && mine == old(mine)
      ensures testPassed == (old(testPassed) || answer == Some(true))
      ensures troubles >= old(troubles) && (Untroubled() ==> rows == old(rows))
    {
      Background();
      if answer == Some(true) {
        testPassed := true;
      }
    }

    /** The writes of `promote_sub2api_account`. */
    method Open(id: int) returns (ok: bool)
      requires Valid() && testPassed && Own(atSnapshot, mine, id)
      modifies this`rows, this`seen, this`wrote, this`troubles
      ensures Valid() && Continues() && EvolvedAt(candidate, old(rows), rows, id)
      ensures Untroubled() && id in old(rows) ==>
                ok && id in rows && rows[id] == old(rows)[id].(groups := [group], schedulable := true)
    {
      ok := PutGroups(id, [group]);
      if ok {
        ok := SetSchedulable(id, true);
      }
    }

    /** `promote_sub2api_account`: false also when one of its calls raises. */
    method Promote(id: int) returns (ok: bool)
      requires Valid() && testPassed && Own(atSnapshot, mine, id)
      modifies this`rows, this`seen, this`wrote, this`troubles
      ensures Valid() && Continues() && EvolvedAt(candidate, old(rows), rows, id)
      ensures ok ==> id in rows && rows[id].groups == [group] && rows[id].schedulable
      ensures Untroubled() && id in old(rows) ==> ok
    {
      var verified := ReadState(id);
      if verified.None? || verified.value.None? {
        return false;
      }
      ok := Open(id);
      if !ok {
        return;
      }
      var final := ReadState(id);
      ok := && final.Some? && final.value.Some?
            && SameTokens(final.value.value.credentials, verified.value.value.credentials)
            && final.value.value.credentials.version == verified.value.value.credentials.version
            && final.value.value.groups == [group]
            && final.value.value.schedulable;
    }

    /** Creates or overwrites the account with the isolated candidate; a failure is rolled back. */
    method WriteCandidate(snapshot: Option<Found>) returns (failure: Option<Response>, id: int)
      requires Valid() && Binding(snapshot) && !testPassed
      modifies this`rows, this`seen, this`wrote, this`troubles
      ensures Valid() && Continues()
      ensures failure.None? ==> id in rows && rows[id].credentials == candidate && rows[id].groups == []
      ensures failure.None? || failure == Some(CandidateWriteFailed(true)) ==> Target(snapshot, id)
      ensures failure.Some? ==> failure.value.CandidateWriteFailed? || failure.value.ImportFailed?
      ensures failure == Some(CandidateWriteFailed(true)) ==> RolledBack(candidate, snapshot, id, false, rows)
      ensures Untroubled() ==> failure.None?
      ensures failure.Some? && failure != Some(CandidateWriteFailed(true)) ==>
                troubles >= old(troubles) + 2 || snapshot.None?
    {
      id := 0;
      if snapshot.Some? {
        var f := snapshot.value;
        id := f.id;
        var ok := PutAccount(id, Row(if f.row.name != "" then f.row.name else name, candidate, [], false));
        if ok {
          return None, id;
        }
        failure := UndoWrite(id, snapshot);
        return;
      }
      var created := CreateAccount();
      if created.Some? {
        return None, created.value;
      }
      var ambiguous := FindSnapshot("", "");
      if ambiguous.None? {
        return Some(ImportFailed), id;
      }
      if ambiguous.value.None? || SubjectMismatch(Some(ambiguous.value.value.row.credentials), candidate) {
        return Some(CandidateWriteFailed(false)), id;
      }
      id := ambiguous.value.value.id;
      assert Matches(rows[id], name, "", "");
      failure := UndoWrite(id, snapshot);
    }

    /** Rolls an unconfirmed write back, without keeping rotations. */
    method UndoWrite(id: int, snapshot: Option<Found>) returns (failure: Option<Response>)
      requires Valid() && Binding(snapshot) && Target(snapshot, id)
      modifies this`rows, this`seen, this`wrote, this`troubles
      ensures Valid() && Continues()
      ensures failure.Some? && (failure.value.CandidateWriteFailed? || failure.value.ImportFailed?)
      ensures failure == Some(CandidateWriteFailed(true)) ==> RolledBack(candidate, snapshot, id, false, rows)
      ensures failure != Some(CandidateWriteFailed(true)) ==> !Untroubled()
    {
      var undone := Rollback(id, snapshot, false);
      failure := Some(if undone.Some? then CandidateWriteFailed(undone.value) else ImportFailed);
    }

    /** Takes the candidate out of scheduling; a failure is rolled back. */
    method Isolate(id: int, snapshot: Option<Found>) returns (failure: Option<Response>)
      requires Valid() && Binding(snapshot) && Target(snapshot, id) && !testPassed
      requires id in rows && rows[id].credentials == candidate && rows[id].groups == []
      modifies this`rows, this`seen, this`wrote, this`troubles
      ensures Valid() && Continues()
      ensures failure.Some? ==> failure.value.IsolationFailed? || failure.value.ImportFailed?
      ensures failure == Some(IsolationFailed(true)) ==> RolledBack(candidate, snapshot, id, false, rows)
      ensures failure.None? ==>
                id in rows && GoneOrQuarantined(rows, id) && Rotated(candidate, candidate, rows[id].credentials)
      ensures Untroubled() ==> failure.None?
      ensures failure.Some? && failure != Some(IsolationFailed(true)) ==> troubles >= old(troubles) + 2
    {
      var isolated := SetSchedulable(id, false);
      if isolated {
        return None;
      }
      var undone := Rollback(id, snapshot, false);
      failure := Some(if undone.Some? then IsolationFailed(undone.value) else ImportFailed);
    }

    /** Tests the isolated candidate; a failure is rolled back. */
    method Verify(id: int, snapshot: Option<Found>, tested: Option<bool>) returns (failure: Option<Response>)
      requires Valid() && Binding(snapshot) && Target(snapshot, id)
      requires id in rows && GoneOrQuarantined(rows, id) && Rotated(candidate, candidate, rows[id].credentials)
      modifies this
      ensures Valid() && old(seen) <= seen && atSnapshot == old(atSnapshot) && mine == old(mine)
      ensures failure.Some? ==> failure.value.PostimportProbeFailed? || failure.value.ImportFailed?
      ensures failure == Some(PostimportProbeFailed(true)) ==> RolledBack(candidate, snapshot, id, true, rows)
      ensures failure.None? ==> testPassed && id in rows && Rotated(candidate, candidate, rows[id].credentials)
      ensures troubles >= old(troubles) && (tested == Some(true) <==> failure.None?)
      ensures failure.Some? && failure != Some(PostimportProbeFailed(true)) ==> !Untroubled()
    {
      TestAccount(id, tested);
      if tested == Some(true) {
        return None;
      }
      var undone := Rollback(id, snapshot, true);
      failure := Some(if undone.Some? then PostimportProbeFailed(undone.value) else ImportFailed);
    }

    /** Promotes the tested candidate; a failure is rolled back, or at least quarantined. */
    method PromoteOrUndo(id: int, snapshot: Option<Found>) returns (r: Response)
      requires Valid() && Binding(snapshot) && Target(snapshot, id) && testPassed
      requires id in rows && Rotated(candidate, candidate, rows[id].credentials)
      modifies this`rows, this`seen, this`wrote, this`troubles
      ensures Valid() && Continues()
      ensures r == Imported(id) || r.PromotionFailed? || r.ImportFailed?
      ensures r == PromotionFailed(true) ==> RolledBack(candidate, snapshot, id, true, rows)
      ensures r.Imported? ==> Live(id)
      ensures Untroubled() ==> r == Imported(id)
      ensures r != Imported(id) && r != PromotionFailed(true) ==> troubles >= old(troubles) + 2
    {
      var promoted := Promote(id);
      if promoted {
        return Imported(id);
      }
      var undone := Rollback(id, snapshot, true);
      if undone.None? {
        return ImportFailed;
      }
      if !undone.value {
        var _ := Quarantine(id);
      }
      r := PromotionFailed(undone.value);
    }

    /** The account serves traffic with the candidate, or with what it has been rotated to. */
    ghost predicate Live(id: int)
      reads this
    {
      && testPassed && id in rows && rows[id].groups == [group] && rows[id].schedulable
      && Rotated(candidate, candidate, rows[id].credentials)
    }

    /** Isolates, tests and promotes the candidate; every failure is rolled back. */
    method VerifyAndPromote(id: int, snapshot: Option<Found>, tested: Option<bool>) returns (r: Response)
      requires Valid() && Binding(snapshot) && Target(snapshot, id) && !testPassed
      requires id in rows && rows[id].credentials == candidate && rows[id].groups == []
      modifies this
      ensures Valid() && old(seen) <= seen && atSnapshot == old(atSnapshot) && mine == old(mine)
      ensures || r.IsolationFailed? || r.PostimportProbeFailed? || r.PromotionFailed? || r.ImportFailed?
              || r == Imported(id)
      ensures r == IsolationFailed(true) ==> RolledBack(candidate, snapshot, id, false, rows)
      ensures r == PostimportProbeFailed(true) || r == PromotionFailed(true) ==>
                RolledBack(candidate, snapshot, id, true, rows)
      ensures r.Imported? ==> Live(id)
      ensures troubles >= old(troubles)
      ensures Untroubled() ==> r == if tested == Some(true) then Imported(id) else PostimportProbeFailed(true)
    {
      var failure := Isolate(id, snapshot);
      if failure.Some? {
        return failure.value;
      }
      failure := Verify(id, snapshot, tested);
      if failure.Some? {
        return failure.value;
      }
      r := PromoteOrUndo(id, snapshot);
    }

    /** Writes, verifies and promotes an accepted candidate. */
    method Import(snapshot: Option<Found>, tested: Option<bool>) returns (r: Response, ghost target: int)
      requires Valid() && Binding(snapshot) && !testPassed
      modifies this
      ensures Valid() && old(seen) <= seen && atSnapshot == old(atSnapshot) && mine == old(mine)
      ensures !r.ProbeRejected? && !r.PrincipalMismatch? && !r.StaleAuth?
      ensures r == CandidateWriteFailed(true) || r == IsolationFailed(true) ==>
                Target(snapshot, target) && RolledBack(candidate, snapshot, target, false, rows)
      ensures r == PostimportProbeFailed(true) || r == PromotionFailed(true) ==>
                Target(snapshot, target) && RolledBack(candidate, snapshot, target, true, rows)
      ensures r.Imported? ==> r.id == target && Target(snapshot, target) && Live(target)
      ensures troubles >= old(troubles)
      ensures Untroubled() ==> r == if tested == Some(true) then Imported(target) else PostimportProbeFailed(true)
    {
      var failure, id := WriteCandidate(snapshot);
      target := id;
      if failure.Some? {
        r := failure.value;
        return;
      }
      r := VerifyAndPromote(id, snapshot, tested);
    }

    /** The answers of a push that has written nothing. */
    ghost predicate Refused(r: Response, snapshot: Option<Found>) {
      match r
      case ProbeRejected => true
      case PrincipalMismatch(id) =>
        snapshot.Some? && id == snapshot.value.id && SubjectMismatch(Some(snapshot.value.row.credentials), candidate)
      case StaleAuth(id) =>
        snapshot.Some? && id == snapshot.value.id && IsStale(Some(snapshot.value.row.credentials), candidate)
      case _ => false
    }

    ghost function SeenBy(snapshot: Option<Found>): Option<Credentials> {
      if snapshot.Some? then Some(snapshot.value.row.credentials) else None
    }

    /** The answer when no call fails and nothing rotates: it depends on the two probes and the store alone. */
    ghost function Answer(
        before: Rows, snapshot: Option<Found>, target: int, probed: bool, tested: Option<bool>): Response
    {
      if !probed then ProbeRejected
      else if Ambiguous(before, name, candidate.email, candidate.Subject()) then ImportFailed
      else if SubjectMismatch(SeenBy(snapshot), candidate) then PrincipalMismatch(snapshot.value.id)
      else if IsStale(SeenBy(snapshot), candidate) then StaleAuth(snapshot.value.id)
      else if tested == Some(true) then Imported(target)
      else PostimportProbeFailed(true)
    }

    /**
      The auth-push branch of `handle_request`, under the identity's lock.  `probed` is the answer of
      the probe before it, `tested` that of the post-import test.  Whatever the calls do:
      from the snapshot until the test passes the candidate stays isolated (`Valid`), no account of
      the snapshot is deleted and none but the push's own is touched, a reported rollback is a real
      one, and an import is fresh, grouped and schedulable.
    */
    method Push(probed: bool, tested: Option<bool>)
      returns (r: Response, ghost snapshot: Option<Found>, ghost target: int)
      requires Valid() && !testPassed && !wrote && mine == None && atSnapshot == rows
      modifies this
      ensures Valid() && atSnapshot in seen && OnlyRotated(candidate, old(rows), atSnapshot)
      ensures if snapshot.Some? then Binding(snapshot) else mine == None
      ensures forall id :: id in atSnapshot ==>
                id in rows && (mine == Some(id) || RowRotated(candidate, atSnapshot[id], rows[id]))
      ensures r.ProbeRejected? || r.PrincipalMismatch? || r.StaleAuth? ==>
                !wrote && OnlyRotated(candidate, old(rows), rows) && Refused(r, snapshot)
      ensures r == CandidateWriteFailed(true) || r == IsolationFailed(true) ==>
                Target(snapshot, target) && RolledBack(candidate, snapshot, target, false, rows)
      ensures r == PostimportProbeFailed(true) || r == PromotionFailed(true) ==>
                Target(snapshot, target) && RolledBack(candidate, snapshot, target, true, rows)
      ensures r.Imported? ==>
                && r.id == target && Target(snapshot, target) && Live(target)
                && Accepted(SeenBy(snapshot), candidate)
      ensures Untroubled() ==> r == Answer(old(rows), snapshot, target, probed, tested)
      ensures r.PrincipalMismatch? ==>
                candidate.Subject() != "" && SeenBy(snapshot).value.Subject() !in {"", candidate.Subject()}
      ensures r.Imported? && snapshot.Some? && candidate.Subject() != "" ==>
                SeenBy(snapshot).value.Subject() in {"", candidate.Subject()}
      ensures r.Imported? && snapshot.Some? && SeenBy(snapshot).value.access.Jwt? && candidate.access.Jwt? ==>
                "" in {SeenBy(snapshot).value.access.principal, candidate.access.principal} ||
                SeenBy(snapshot).value.access.principal == candidate.access.principal
      ensures var subject := candidate.Subject();
              Untroubled() && probed && snapshot.None? && !Ambiguous(old(rows), name, candidate.email, subject) ==>
                forall id :: id in old(rows) ==> !Matches(old(rows)[id], name, candidate.email, subject)
    {
      snapshot, target := None, 0;
      if !probed {
        r := ProbeRejected;
        return;
      }
      var lookup := FindSnapshot(candidate.email, candidate.Subject());
      if lookup.None? {
        r := ImportFailed;
        return;
      }
      var found := lookup.value;
      snapshot := found;
      atSnapshot, seen, mine := rows, {rows}, if found.Some? then Some(found.value.id) else None;
      var current := if found.Some? then Some(found.value.row.credentials) else None;
      if SubjectMismatch(current, candidate) {
        r := PrincipalMismatch(found.value.id);
        return;
      }
      if IsStale(current, candidate) {
        r := StaleAuth(found.value.id);
        return;
      }
      r, target := Import(found, tested);
    }
  }
}
