/**
  The crash-safe cleanup of scripts/finalize_grok_batch.py: a journalled two-phase delete.

  A file is represented by the digest of its content, so "the hash matches" is equality of
  digests.  Every disk operation is atomic, and `fuel` is the number of operations left before
  the power fails: quantifying over it quantifies over every crash point.
*/
module Closeout {
  import opened Common

  type Digest = string

  datatype Area = Auth | Logs | Bundle | Import

  /** Sources live in the batch areas, quarantine files are numbered by their journal position. */
  datatype Path = Source(area: Area, name: string) | Quarantine(index: nat, name: string)

  datatype Kind = OauthSource | SuccessfulLog | TokenBundle | ImportHelper

  /** One file to clean up; `recorded` is "" when the evidence holds no hash for it. */
  datatype Planned = Planned(kind: Kind, area: Area, name: string, recorded: Digest)

  datatype Prepared = Prepared(batch: string, accounts: seq<int>, artifact: Option<string>, plan: seq<Planned>)

  datatype EntryStatus = Pending | Quarantined | Deleted

  datatype Entry = Entry(kind: Kind, source: Path, quarantine: Path, sha256: Digest, status: EntryStatus)

  datatype JournalStatus = Quarantining | AllQuarantined | AllDeleted

  datatype Journal = Journal(
    schema: int, batch: string, accounts: seq<int>, artifact: Option<string>,
    status: JournalStatus, entries: seq<Entry>)

  /** How far the closeout has got according to manifest, handoff or checkpoint. */
  datatype Document = Runtime | CloseoutPrepared | CleanupQuarantined | CleanupCompleted

  /** `minimalResult`: import/result.json holds the closeout's own record. */
  datatype Disk = Disk(
    files: map<Path, Digest>, journal: Option<Journal>, minimalResult: bool,
    manifest: Document, handoff: Document, checkpoint: Document)

  datatype End = Running | Finished | Raised | PowerLost

  datatype Run = Run(disk: Disk, fuel: nat, end: End)

  // ---------------------------------------------------------------- the operations

  /** One atomic disk operation, unless the run has already ended. */
  function Write(r: Run, disk: Disk): Run {
    if !r.end.Running? then r
    else if r.fuel == 0 then r.(end := PowerLost)
    else Run(disk, r.fuel - 1, Running)
  }

  /** `_cleanup_entries`: None when a hash is unrecorded and its file is not there to be hashed. */
  function CleanupEntries(plan: seq<Planned>, files: map<Path, Digest>): (r: Option<seq<Entry>>)
    ensures r.Some? ==> |r.value| == |plan|
  {
    if forall k :: 0 <= k < |plan| ==> plan[k].recorded != "" || Source(plan[k].area, plan[k].name) in files then
      Some(seq(|plan|, k requires 0 <= k < |plan| => PlannedEntry(plan[k], k, files)))
    else
      None
  }

  function PlannedEntry(item: Planned, k: nat, files: map<Path, Digest>): Entry {
    var source := Source(item.area, item.name);
    var hash := if item.recorded != "" then item.recorded else if source in files then files[source] else "";
    Entry(item.kind, source, Quarantine(k, item.name), hash, Pending)
  }

  /** The entry names this file of the plan: its kind, its two paths and the hash it must have. */
  predicate Names(e: Entry, item: Planned, k: nat, files: map<Path, Digest>) {
    && e.kind == item.kind && e.source == Source(item.area, item.name) && e.quarantine == Quarantine(k, item.name)
    && if item.recorded != "" then e.sha256 == item.recorded else e.source in files && e.sha256 == files[e.source]
  }

  /** The entries are the plan's files, one for one. */
  predicate ListsPlan(plan: seq<Planned>, files: map<Path, Digest>, entries: seq<Entry>) {
    |entries| == |plan| && forall k :: 0 <= k < |plan| ==> Names(entries[k], plan[k], k, files)
  }

  predicate SamePlan(a: seq<Entry>, b: seq<Entry>) {
    |a| == |b| && forall k :: 0 <= k < |a| ==> a[k].(status := Pending) == b[k].(status := Pending)
  }

  /** The planned entries and no others list the plan's files. */
  lemma PlanListed(plan: seq<Planned>, files: map<Path, Digest>, entries: seq<Entry>)
    requires CleanupEntries(plan, files).Some?
    ensures SamePlan(entries, CleanupEntries(plan, files).value) <==> ListsPlan(plan, files, entries)
  {
    var made := CleanupEntries(plan, files).value;
    forall k | 0 <= k < |plan|
      ensures Names(made[k], plan[k], k, files)
    {
      assert made[k] == PlannedEntry(plan[k], k, files);
    }
    if SamePlan(entries, made) {
      forall k | 0 <= k < |plan| ensures Names(entries[k], plan[k], k, files) {
        assert entries[k].(status := Pending) == made[k].(status := Pending);
      }
    }
    if ListsPlan(plan, files, entries) {
      forall k | 0 <= k < |plan|
        ensures entries[k].(status := Pending) == made[k].(status := Pending)
      {
        assert Names(entries[k], plan[k], k, files);
      }
    }
  }

  predicate JournalMatches(p: Prepared, d: Disk, j: Journal) {
    && j.schema == 1 && j.batch == p.batch && j.accounts == p.accounts
    && (p.artifact.Some? ==> j.artifact == p.artifact)
    && var expected := CleanupEntries(p.plan, d.files);
       expected.Some? && SamePlan(j.entries, expected.value)
  }

  function NewJournal(p: Prepared, entries: seq<Entry>): Journal {
    Journal(1, p.batch, p.accounts, p.artifact, Quarantining, entries)
  }

  function OpenJournal(p: Prepared, r: Run): (r': Run)
    requires r.end.Running?
    ensures r'.end.Running? ==> r'.disk.journal.Some?
  {
    match r.disk.journal
    case Some(j) => if JournalMatches(p, r.disk, j) then r else r.(end := Raised)
    case None =>
      match CleanupEntries(p.plan, r.disk.files)
      case None => r.(end := Raised)
      case Some(entries) => Write(r, r.disk.(journal := Some(NewJournal(p, entries))))
  }

  function WithStatus(j: Journal, k: nat, status: EntryStatus): Journal
    requires k < |j.entries|
  {
    j.(entries := j.entries[k := j.entries[k].(status := status)])
  }

  predicate Has(files: map<Path, Digest>, path: Path, digest: Digest) {
    path in files && files[path] == digest
  }

  function QuarantineStep(r: Run, k: nat): (r': Run)
    requires r.end.Running? && r.disk.journal.Some? && k < |r.disk.journal.value.entries|
    ensures r'.disk.journal.Some? && |r'.disk.journal.value.entries| == |r.disk.journal.value.entries|
  {
    var d, j := r.disk, r.disk.journal.value;
    var e := j.entries[k];
    var marked := Some(WithStatus(j, k, Quarantined));
    if e.status != Pending then r
    else if e.source in d.files then
      if d.files[e.source] != e.sha256 then r.(end := Raised)
      else
        var moved := d.(files := d.files[e.quarantine := e.sha256] - {e.source});
        Write(Write(r, moved), moved.(journal := marked))
    else if !Has(d.files, e.quarantine, e.sha256) then r.(end := Raised)
    else Write(r, d.(journal := marked))
  }

  function QuarantineFrom(r: Run, k: nat): Run
    requires r.end.Running? ==> r.disk.journal.Some?
    decreases r.end.Running?, if r.end.Running? then |r.disk.journal.value.entries| - k else 0
  {
    if !r.end.Running? then r
    else
      var j := r.disk.journal.value;
      if k >= |j.entries| then Write(r, r.disk.(journal := Some(j.(status := AllQuarantined))))
      else QuarantineFrom(QuarantineStep(r, k), k + 1)
  }

  function PurgeStep(r: Run, k: nat): (r': Run)
    requires r.end.Running? && r.disk.journal.Some? && k < |r.disk.journal.value.entries|
    ensures r'.disk.journal.Some? && |r'.disk.journal.value.entries| == |r.disk.journal.value.entries|
  {
    var d, j := r.disk, r.disk.journal.value;
    var e := j.entries[k];
    var marked := Some(WithStatus(j, k, Deleted));
    if e.status == Deleted then r
    else if e.quarantine in d.files then
      if d.files[e.quarantine] != e.sha256 then r.(end := Raised)
      else
        var unlinked := d.(files := d.files - {e.quarantine});
        Write(Write(r, unlinked), unlinked.(journal := marked))
    else Write(r, d.(journal := marked))
  }

  function PurgeFrom(r: Run, k: nat): Run
    requires r.end.Running? ==> r.disk.journal.Some?
    decreases r.end.Running?, if r.end.Running? then |r.disk.journal.value.entries| - k else 0
  {
    if !r.end.Running? then r
    else
      var j := r.disk.journal.value;
      if k >= |j.entries| then Write(r, r.disk.(journal := Some(j.(status := AllDeleted))))
      else PurgeFrom(PurgeStep(r, k), k + 1)
  }

  function WriteManifest(r: Run, doc: Document): Run { Write(r, r.disk.(manifest := doc)) }
  function WriteHandoff(r: Run, doc: Document): Run { Write(r, r.disk.(handoff := doc)) }
  function WriteCheckpoint(r: Run, doc: Document): Run { Write(r, r.disk.(checkpoint := doc)) }
  function WriteResult(r: Run): Run { Write(r, r.disk.(minimalResult := true)) }

  function Announce(r: Run): Run {
    WriteHandoff(WriteCheckpoint(r, CloseoutPrepared), CloseoutPrepared)
  }

  function RecordQuarantine(r: Run): Run {
    var recorded := WriteManifest(WriteResult(r), CleanupQuarantined);
    WriteCheckpoint(WriteHandoff(recorded, CleanupQuarantined), CleanupQuarantined)
  }

  function RecordCompletion(r: Run): Run {
    WriteCheckpoint(WriteHandoff(WriteManifest(r, CleanupCompleted), CleanupCompleted), CleanupCompleted)
  }

  function QuarantineAll(p: Prepared, disk: Disk, fuel: nat): (r: Run)
    ensures r.end.Running? ==> r.disk.journal.Some?
  {
    var announced := Announce(OpenJournal(p, Run(disk, fuel, Running)));
    QuarantineKeepsJournal(announced, 0);
    RecordQuarantine(QuarantineFrom(announced, 0))
  }

  function DeleteAll(r: Run): Run
    requires r.end.Running? ==> r.disk.journal.Some?
  {
    var completed := RecordCompletion(PurgeFrom(r, 0));
    if completed.end.Running? then completed.(end := Finished) else completed
  }

  /** `commit_closeout` on a disk, with `fuel` operations before the power fails. */
  function Commit(p: Prepared, disk: Disk, fuel: nat): Run {
    DeleteAll(QuarantineAll(p, disk, fuel))
  }

  lemma QuarantineKeepsJournal(r: Run, k: nat)
    requires r.end.Running? ==> r.disk.journal.Some?
    ensures QuarantineFrom(r, k).end.Running? ==> QuarantineFrom(r, k).disk.journal.Some?
    decreases r.end.Running?, if r.end.Running? then |r.disk.journal.value.entries| - k else 0
  {
    if r.end.Running? && k < |r.disk.journal.value.entries| {
      QuarantineKeepsJournal(QuarantineStep(r, k), k + 1);
    }
  }

  /** The disk after a series of runs, each cut off by its own crash. */
  function Reach(p: Prepared, disk: Disk, fuels: seq<nat>): Disk
    decreases |fuels|
  {
    if fuels == [] then disk
    else Commit(p, Reach(p, disk, fuels[..|fuels| - 1]), fuels[|fuels| - 1]).disk
  }

  // ---------------------------------------------------------------- what every operation keeps

  predicate DistinctSources(plan: seq<Planned>) {
    forall a, b :: 0 <= a < b < |plan| ==> (plan[a].area, plan[a].name) != (plan[b].area, plan[b].name)
  }

  /** The shape of `_cleanup_entries`: no two entries share a path. */
  predicate DistinctPaths(entries: seq<Entry>) {
    && (forall k :: 0 <= k < |entries| ==>
          entries[k].source.Source? && entries[k].quarantine.Quarantine? && entries[k].quarantine.index == k)
    && (forall a, b :: 0 <= a < b < |entries| ==> entries[a].source != entries[b].source)
  }

  predicate SameAt(a: map<Path, Digest>, b: map<Path, Digest>, path: Path) {
    (path in a <==> path in b) && (path in a && path in b ==> a[path] == b[path])
  }

  /** The content the entry names was on disk before the first run. */
  predicate Genuine(e: Entry, base: map<Path, Digest>) {
    if e.source in base then base[e.source] == e.sha256 else Has(base, e.quarantine, e.sha256)
  }

  predicate Untouched(e: Entry, base: map<Path, Digest>, files: map<Path, Digest>) {
    SameAt(base, files, e.source) && SameAt(base, files, e.quarantine)
  }

  /** Where an entry's content is, for each status the journal may show. */
  predicate EntryInv(e: Entry, base: map<Path, Digest>, files: map<Path, Digest>) {
    match e.status
    case Pending =>
      || Untouched(e, base, files)
      || (Genuine(e, base) && e.source !in files && Has(files, e.quarantine, e.sha256))
    case Quarantined =>
      Genuine(e, base) && e.source !in files && (e.quarantine in files ==> files[e.quarantine] == e.sha256)
    case Deleted =>
      Genuine(e, base) && e.source !in files && e.quarantine !in files
  }

  predicate NonePending(entries: seq<Entry>) {
    forall k :: 0 <= k < |entries| ==> entries[k].status != Pending
  }

  predicate Destroyed(e: Entry, files: map<Path, Digest>) {
    e.status != Pending && e.quarantine !in files
  }

  /** Deleting is allowed: everything is quarantined and the lasting records are written. */
  predicate Authorised(d: Disk, entries: seq<Entry>) {
    NonePending(entries) && d.minimalResult && (d.manifest.CleanupQuarantined? || d.manifest.CleanupCompleted?)
  }

  predicate Elsewhere(path: Path, entries: seq<Entry>) {
    forall k :: 0 <= k < |entries| ==> path != entries[k].source && path != entries[k].quarantine
  }

  ghost predicate JournalInv(base: map<Path, Digest>, d: Disk, entries: seq<Entry>) {
    && DistinctPaths(entries)
    && (forall k :: 0 <= k < |entries| ==> EntryInv(entries[k], base, d.files))
    && (forall path :: Elsewhere(path, entries) ==> SameAt(base, d.files, path))
    && (forall k :: 0 <= k < |entries| && Destroyed(entries[k], d.files) ==> Authorised(d, entries))
  }

  ghost predicate DiskInv(p: Prepared, base: map<Path, Digest>, d: Disk) {
    match d.journal
    case None => d.files == base
    case Some(j) =>
      && j == NewJournal(p, j.entries).(status := j.status)
      && JournalInv(base, d, j.entries)
      && CleanupEntries(p.plan, base).Some?
      && SamePlan(j.entries, CleanupEntries(p.plan, base).value)
  }

  function Rank(s: EntryStatus): nat {
    match s case Pending => 0 case Quarantined => 1 case Deleted => 2
  }

  /** Entries keep their identity and statuses only move forward. */
  predicate Advanced(d: Disk, d': Disk) {
    d.journal.Some? ==>
      && d'.journal.Some?
      && SamePlan(d.journal.value.entries, d'.journal.value.entries)
      && forall k :: 0 <= k < |d.journal.value.entries| ==>
           Rank(d.journal.value.entries[k].status) <= Rank(d'.journal.value.entries[k].status)
  }

  lemma AdvancedTwice(a: Disk, b: Disk, c: Disk)
    requires Advanced(a, b) && Advanced(b, c)
    ensures Advanced(a, c)
  {
    if a.journal.Some? {
      var x, y, z := a.journal.value.entries, b.journal.value.entries, c.journal.value.entries;
      forall k | 0 <= k < |x|
        ensures x[k].(status := Pending) == z[k].(status := Pending) && Rank(x[k].status) <= Rank(z[k].status)
      {
        assert x[k].(status := Pending) == y[k].(status := Pending);
        assert y[k].(status := Pending) == z[k].(status := Pending);
      }
    }
  }

  /** Changing only entry `k` and its two paths keeps the invariant if it does so for entry `k`. */
  lemma OneEntryChanges(base: map<Path, Digest>, d: Disk, d': Disk, entries: seq<Entry>, k: nat, status: EntryStatus)
    requires k < |entries| && JournalInv(base, d, entries)
    requires forall path :: path != entries[k].source && path != entries[k].quarantine ==>
               SameAt(d.files, d'.files, path)
    requires d'.minimalResult == d.minimalResult && d'.manifest == d.manifest
    requires status.Pending? ==> entries[k].status.Pending?
    requires EntryInv(entries[k].(status := status), base, d'.files)
    requires Destroyed(entries[k].(status := status), d'.files) ==> Authorised(d, entries)
    ensures JournalInv(base, d', entries[k := entries[k].(status := status)])
  {
    var entries' := entries[k := entries[k].(status := status)];
    forall i | 0 <= i < |entries|
      ensures EntryInv(entries'[i], base, d'.files)
      ensures Destroyed(entries'[i], d'.files) ==> Authorised(d', entries')
    {
      if i != k {
        assert SameAt(d.files, d'.files, entries[i].source);
        assert SameAt(d.files, d'.files, entries[i].quarantine);
        assert EntryInv(entries[i], base, d.files);
      }
    }
    forall path | Elsewhere(path, entries')
      ensures SameAt(base, d'.files, path)
    {
      assert entries'[k].source == entries[k].source && entries'[k].quarantine == entries[k].quarantine;
      assert Elsewhere(path, entries) by {
        forall i | 0 <= i < |entries| ensures path != entries[i].source && path != entries[i].quarantine {
          assert path != entries'[i].source && path != entries'[i].quarantine;
        }
      }
      assert path != entries[k].source && path != entries[k].quarantine;
      assert SameAt(d.files, d'.files, path);
    }
  }

  lemma MarkedSamePlan(entries: seq<Entry>, k: nat, status: EntryStatus, planned: seq<Entry>)
    requires k < |entries| && SamePlan(entries, planned)
    ensures SamePlan(entries[k := entries[k].(status := status)], planned)
  {
    assert entries[k].(status := status).(status := Pending) == entries[k].(status := Pending);
  }

  ghost predicate MidQuarantine(r: Run, p: Prepared, base: map<Path, Digest>, k: nat) {
    && r.disk.journal.Some? && DiskInv(p, base, r.disk)
    && k <= |r.disk.journal.value.entries|
    && (r.end.Running? ==> forall i :: 0 <= i < k ==> r.disk.journal.value.entries[i].status != Pending)
  }

  /** Moving a genuine source and marking its entry, each on its own disk. */
  lemma MoveKeeps(base: map<Path, Digest>, d: Disk, entries: seq<Entry>, k: nat)
    requires JournalInv(base, d, entries) && k < |entries| && entries[k].status == Pending
    requires Has(d.files, entries[k].source, entries[k].sha256)
    ensures var moved := d.(files := d.files[entries[k].quarantine := entries[k].sha256] - {entries[k].source});
            && JournalInv(base, moved, entries)
            && JournalInv(base, moved, entries[k := entries[k].(status := Quarantined)])
  {
    var e := entries[k];
    assert EntryInv(e, base, d.files);
    var moved := d.(files := d.files[e.quarantine := e.sha256] - {e.source});
    OneEntryChanges(base, d, moved, entries, k, Pending);
    assert entries[k := e] == entries;
    OneEntryChanges(base, d, moved, entries, k, Quarantined);
  }

  lemma MarkKeeps(base: map<Path, Digest>, d: Disk, entries: seq<Entry>, k: nat)
    requires JournalInv(base, d, entries) && k < |entries| && entries[k].status == Pending
    requires entries[k].source !in d.files && Has(d.files, entries[k].quarantine, entries[k].sha256)
    ensures JournalInv(base, d, entries[k := entries[k].(status := Quarantined)])
  {
    assert EntryInv(entries[k], base, d.files);
    OneEntryChanges(base, d, d, entries, k, Quarantined);
  }

  lemma QuarantineStepKeeps(p: Prepared, base: map<Path, Digest>, r: Run, k: nat)
    requires r.end.Running? && MidQuarantine(r, p, base, k) && k < |r.disk.journal.value.entries|
    ensures MidQuarantine(QuarantineStep(r, k), p, base, k + 1)
    ensures Advanced(r.disk, QuarantineStep(r, k).disk)
  {
    var d, entries := r.disk, r.disk.journal.value.entries;
    if entries[k].status == Pending && QuarantineStep(r, k).disk != d {
      MarkedSamePlan(entries, k, Quarantined, CleanupEntries(p.plan, base).value);
      if entries[k].source in d.files {
        MoveKeeps(base, d, entries, k);
      } else {
        MarkKeeps(base, d, entries, k);
      }
    }
  }

  /** What the quarantine phase leaves, wherever it stops. */
  ghost predicate QuarantineLeaves(p: Prepared, base: map<Path, Digest>, d: Disk, r: Run) {
    && r.disk.journal.Some? && DiskInv(p, base, r.disk) && Advanced(d, r.disk)
    && (r.end.Running? ==> NonePending(r.disk.journal.value.entries))
  }

  lemma QuarantineEnds(p: Prepared, base: map<Path, Digest>, r: Run)
    requires r.end.Running? && r.disk.journal.Some? && MidQuarantine(r, p, base, |r.disk.journal.value.entries|)
    ensures QuarantineLeaves(p, base, r.disk, QuarantineFrom(r, |r.disk.journal.value.entries|))
    ensures !QuarantineFrom(r, |r.disk.journal.value.entries|).end.Finished?
  {
  }

  lemma {:induction false} QuarantineKeeps(p: Prepared, base: map<Path, Digest>, r: Run, k: nat)
    requires MidQuarantine(r, p, base, k) && !r.end.Finished?
    ensures QuarantineLeaves(p, base, r.disk, QuarantineFrom(r, k)) && !QuarantineFrom(r, k).end.Finished?
    decreases r.end.Running?, if r.end.Running? then |r.disk.journal.value.entries| - k else 0
  {
    if r.end.Running? {
      if k < |r.disk.journal.value.entries| {
        QuarantineStepKeeps(p, base, r, k);
        QuarantineKeeps(p, base, QuarantineStep(r, k), k + 1);
        AdvancedTwice(r.disk, QuarantineStep(r, k).disk, QuarantineFrom(r, k).disk);
      } else {
        QuarantineEnds(p, base, r);
      }
    }
  }

  ghost predicate MidPurge(r: Run, p: Prepared, base: map<Path, Digest>, k: nat) {
    && r.disk.journal.Some? && DiskInv(p, base, r.disk)
    && k <= |r.disk.journal.value.entries|
    && (r.end.Running? ==>
          && Authorised(r.disk, r.disk.journal.value.entries)
          && forall i :: 0 <= i < k ==> r.disk.journal.value.entries[i].status == Deleted)
  }

  /** Unlinking a quarantine file and marking its entry, each on its own disk. */
  lemma UnlinkKeeps(base: map<Path, Digest>, d: Disk, entries: seq<Entry>, k: nat)
    requires JournalInv(base, d, entries) && k < |entries| && entries[k].status == Quarantined
    requires Authorised(d, entries)
    ensures var unlinked := d.(files := d.files - {entries[k].quarantine});
            && JournalInv(base, unlinked, entries)
            && JournalInv(base, unlinked, entries[k := entries[k].(status := Deleted)])
  {
    var e := entries[k];
    assert EntryInv(e, base, d.files);
    var unlinked := d.(files := d.files - {e.quarantine});
    OneEntryChanges(base, d, unlinked, entries, k, Quarantined);
    assert entries[k := e] == entries;
    OneEntryChanges(base, d, unlinked, entries, k, Deleted);
  }

  lemma PurgeStepKeeps(p: Prepared, base: map<Path, Digest>, r: Run, k: nat)
    requires r.end.Running? && MidPurge(r, p, base, k) && k < |r.disk.journal.value.entries|
    ensures MidPurge(PurgeStep(r, k), p, base, k + 1)
    ensures Advanced(r.disk, PurgeStep(r, k).disk)
  {
    var d, entries := r.disk, r.disk.journal.value.entries;
    if entries[k].status != Deleted && PurgeStep(r, k).disk != d {
      UnlinkKeeps(base, d, entries, k);
      MarkedSamePlan(entries, k, Deleted, CleanupEntries(p.plan, base).value);
      if entries[k].quarantine !in d.files {
        assert d.files - {entries[k].quarantine} == d.files;
      }
    }
  }

  lemma {:induction false} PurgeKeeps(p: Prepared, base: map<Path, Digest>, r: Run, k: nat)
    requires MidPurge(r, p, base, k)
    ensures var r' := PurgeFrom(r, k);
            && r'.disk.journal.Some? && DiskInv(p, base, r'.disk) && Advanced(r.disk, r'.disk)
            && (r'.end.Finished? ==> r.end.Finished?)
            && (r'.end.Running? ==>
                  && r'.disk.journal.value.status == AllDeleted && r'.disk.minimalResult
                  && forall i :: 0 <= i < |r'.disk.journal.value.entries| ==>
                       r'.disk.journal.value.entries[i].status == Deleted)
    decreases r.end.Running?, if r.end.Running? then |r.disk.journal.value.entries| - k else 0
  {
    if r.end.Running? && k < |r.disk.journal.value.entries| {
      PurgeStepKeeps(p, base, r, k);
      PurgeKeeps(p, base, PurgeStep(r, k), k + 1);
      AdvancedTwice(r.disk, PurgeStep(r, k).disk, PurgeFrom(r, k).disk);
    }
  }

  lemma OpenKeeps(p: Prepared, base: map<Path, Digest>, r: Run)
    requires r.end.Running? && DistinctSources(p.plan) && DiskInv(p, base, r.disk)
    ensures var r' := OpenJournal(p, r);
            && DiskInv(p, base, r'.disk) && Advanced(r.disk, r'.disk)
            && (r.disk.journal.Some? ==> r'.disk == r.disk)
  {
    var made := CleanupEntries(p.plan, r.disk.files);
    if r.disk.journal.None? && made.Some? {
      assert forall k :: 0 <= k < |p.plan| ==> made.value[k] == PlannedEntry(p.plan[k], k, base);
      assert DistinctPaths(made.value);
      assert JournalInv(base, r.disk.(journal := Some(NewJournal(p, made.value))), made.value);
    }
  }

  lemma AnnounceKeeps(p: Prepared, base: map<Path, Digest>, r: Run)
    requires DiskInv(p, base, r.disk)
    ensures DiskInv(p, base, Announce(r).disk) && Advanced(r.disk, Announce(r).disk)
    ensures Announce(r).disk.journal == r.disk.journal
    ensures Announce(r).end.Running? ==> r.end.Running?
    ensures !r.end.Running? ==> Announce(r) == r
  {
  }

  lemma RecordQuarantineKeeps(p: Prepared, base: map<Path, Digest>, r: Run)
    requires r.disk.journal.Some? && DiskInv(p, base, r.disk)
    requires r.end.Running? ==> NonePending(r.disk.journal.value.entries)
    ensures DiskInv(p, base, RecordQuarantine(r).disk) && Advanced(r.disk, RecordQuarantine(r).disk)
    ensures RecordQuarantine(r).disk.journal == r.disk.journal
    ensures RecordQuarantine(r).end.Running? ==> Authorised(RecordQuarantine(r).disk, r.disk.journal.value.entries)
  {
  }

  lemma RecordCompletionKeeps(p: Prepared, base: map<Path, Digest>, r: Run)
    requires r.disk.journal.Some? && DiskInv(p, base, r.disk)
    ensures DiskInv(p, base, RecordCompletion(r).disk) && Advanced(r.disk, RecordCompletion(r).disk)
    ensures RecordCompletion(r).disk.journal == r.disk.journal
    ensures RecordCompletion(r).disk.minimalResult == r.disk.minimalResult
    ensures RecordCompletion(r).disk.files == r.disk.files
    ensures RecordCompletion(r).end.Finished? ==> r.end.Finished?
    ensures RecordCompletion(r).end.Running? ==>
              && r.end.Running?
              && var d := RecordCompletion(r).disk; d.manifest == d.handoff == d.checkpoint == CleanupCompleted
  {
  }

  /** The end state: every listed file gone, everything else as it was, all records final. */
  ghost predicate Closed(p: Prepared, base: map<Path, Digest>, d: Disk) {
    && d.journal.Some? && d.journal.value.status == AllDeleted && d.minimalResult
    && ListsPlan(p.plan, base, d.journal.value.entries)
    && d.manifest == d.handoff == d.checkpoint == CleanupCompleted
    && (forall k :: 0 <= k < |d.journal.value.entries| ==>
          var e := d.journal.value.entries[k];
          e.status == Deleted && e.source !in d.files && e.quarantine !in d.files)
    && (forall path :: Elsewhere(path, d.journal.value.entries) ==> SameAt(base, d.files, path))
  }

  lemma AnnouncedKeeps(p: Prepared, base: map<Path, Digest>, d: Disk, fuel: nat)
    requires DistinctSources(p.plan) && DiskInv(p, base, d)
    ensures var r := Announce(OpenJournal(p, Run(d, fuel, Running)));
            && DiskInv(p, base, r.disk) && Advanced(d, r.disk) && !r.end.Finished?
            && (r.end.Running? ==> MidQuarantine(r, p, base, 0))
  {
    var start := Run(d, fuel, Running);
    OpenKeeps(p, base, start);
    AnnounceKeeps(p, base, OpenJournal(p, start));
    AdvancedTwice(d, OpenJournal(p, start).disk, Announce(OpenJournal(p, start)).disk);
  }

  lemma RecordedKeeps(p: Prepared, base: map<Path, Digest>, r: Run)
    requires r.end.Running? && MidQuarantine(r, p, base, 0)
    ensures var r' := RecordQuarantine(QuarantineFrom(r, 0));
            && DiskInv(p, base, r'.disk) && Advanced(r.disk, r'.disk) && !r'.end.Finished?
            && (r'.end.Running? ==> MidPurge(r', p, base, 0))
  {
    QuarantineKeeps(p, base, r, 0);
    var quarantined := QuarantineFrom(r, 0);
    RecordQuarantineKeeps(p, base, quarantined);
    AdvancedTwice(r.disk, quarantined.disk, RecordQuarantine(quarantined).disk);
  }

  lemma QuarantineAllKeeps(p: Prepared, base: map<Path, Digest>, d: Disk, fuel: nat)
    requires DistinctSources(p.plan) && DiskInv(p, base, d)
    ensures var r := QuarantineAll(p, d, fuel);
            && DiskInv(p, base, r.disk) && Advanced(d, r.disk) && !r.end.Finished?
            && (r.end.Running? ==> MidPurge(r, p, base, 0))
  {
    var announced := Announce(OpenJournal(p, Run(d, fuel, Running)));
    AnnouncedKeeps(p, base, d, fuel);
    if announced.end.Running? {
      RecordedKeeps(p, base, announced);
      AdvancedTwice(d, announced.disk, QuarantineAll(p, d, fuel).disk);
    }
  }

  lemma DeleteAllKeeps(p: Prepared, base: map<Path, Digest>, r: Run)
    requires r.end.Running? && MidPurge(r, p, base, 0)
    ensures var r' := DeleteAll(r);
            && DiskInv(p, base, r'.disk) && Advanced(r.disk, r'.disk)
            && (r'.end.Finished? ==> Closed(p, base, r'.disk))
  {
    PurgeKeeps(p, base, r, 0);
    var purged := PurgeFrom(r, 0);
    RecordCompletionKeeps(p, base, purged);
    PlanListed(p.plan, base, RecordCompletion(purged).disk.journal.value.entries);
    AdvancedTwice(r.disk, purged.disk, RecordCompletion(purged).disk);
  }

  /** One run, from any reachable disk to any crash point, an exception or the end. */
  lemma CommitKeeps(p: Prepared, base: map<Path, Digest>, d: Disk, fuel: nat)
    requires DistinctSources(p.plan) && DiskInv(p, base, d)
    ensures var r := Commit(p, d, fuel);
            && DiskInv(p, base, r.disk) && Advanced(d, r.disk)
            && (r.end.Finished? ==> Closed(p, base, r.disk))
  {
    QuarantineAllKeeps(p, base, d, fuel);
    var r := QuarantineAll(p, d, fuel);
    if r.end.Running? {
      DeleteAllKeeps(p, base, r);
      AdvancedTwice(d, r.disk, DeleteAll(r).disk);
    }
  }

  lemma {:induction false} ReachKeeps(p: Prepared, d: Disk, fuels: seq<nat>)
    requires d.journal.None? && DistinctSources(p.plan)
    ensures DiskInv(p, d.files, Reach(p, d, fuels))
    decreases |fuels|
  {
    if fuels != [] {
      ReachKeeps(p, d, fuels[..|fuels| - 1]);
      CommitKeeps(p, d.files, Reach(p, d, fuels[..|fuels| - 1]), fuels[|fuels| - 1]);
    }
  }

  // ---------------------------------------------------------------- safety over all runs

  /** What an entry stands for on the first disk: its source or, when that is gone, its quarantine file. */
  function ContentOf(e: Entry, base: map<Path, Digest>): Option<Digest> {
    if e.source in base then Some(base[e.source])
    else if e.quarantine in base then Some(base[e.quarantine])
    else None
  }

  predicate SafeFor(e: Entry, base: map<Path, Digest>, files: map<Path, Digest>) {
    match ContentOf(e, base)
    case None => true
    case Some(content) => Has(files, e.source, content) || Has(files, e.quarantine, content)
  }

  lemma UnsafeMeansDestroyed(base: map<Path, Digest>, d: Disk, entries: seq<Entry>, k: nat)
    requires JournalInv(base, d, entries) && k < |entries|
    ensures SafeFor(entries[k], base, d.files) || Authorised(d, entries)
  {
    assert EntryInv(entries[k], base, d.files);
    if !SafeFor(entries[k], base, d.files) {
      assert Destroyed(entries[k], d.files);
    }
  }

  /**
    Whatever was on disk at the start and wherever the runs crash or raise: if any entry's content,
    at first in its source or only in quarantine, is at neither path, then every entry has passed
    quarantine and both the minimal result and the quarantined manifest are already on disk.  Before
    the journal exists nothing has been touched, and files outside the journal never are.
  */
  lemma NoEarlyDestruction(p: Prepared, d: Disk, fuels: seq<nat>)
    requires d.journal.None? && DistinctSources(p.plan)
    ensures var now := Reach(p, d, fuels);
            match now.journal
            case None => now.files == d.files
            case Some(j) =>
              && ListsPlan(p.plan, d.files, j.entries)
              && (forall k :: 0 <= k < |j.entries| ==>
                    SafeFor(j.entries[k], d.files, now.files) || Authorised(now, j.entries))
              && (forall path :: Elsewhere(path, j.entries) ==> SameAt(d.files, now.files, path))
  {
    ReachKeeps(p, d, fuels);
    var now := Reach(p, d, fuels);
    if now.journal.Some? {
      PlanListed(p.plan, d.files, now.journal.value.entries);
      forall k | 0 <= k < |now.journal.value.entries|
        ensures SafeFor(now.journal.value.entries[k], d.files, now.files) || Authorised(now, now.journal.value.entries)
      {
        UnsafeMeansDestroyed(d.files, now, now.journal.value.entries, k);
      }
    }
  }

  // ---------------------------------------------------------------- convergence

  predicate AllRecorded(plan: seq<Planned>) {
    forall k :: 0 <= k < |plan| ==> plan[k].recorded != ""
  }

  /** The starting point of a cleanup: no journal yet, every listed file as the evidence says. */
  predicate FreshlyPrepared(p: Prepared, d: Disk) {
    && d.journal.None? && DistinctSources(p.plan)
    && CleanupEntries(p.plan, d.files).Some?
    && forall k :: 0 <= k < |p.plan| ==> Genuine(CleanupEntries(p.plan, d.files).value[k], d.files)
  }

  predicate GenuineJournal(base: map<Path, Digest>, d: Disk) {
    d.journal.Some? ==> forall k :: 0 <= k < |d.journal.value.entries| ==> Genuine(d.journal.value.entries[k], base)
  }

  lemma {:induction false} QuarantineRunsThrough(p: Prepared, base: map<Path, Digest>, r: Run, k: nat)
    requires r.end.Running? && MidQuarantine(r, p, base, k) && GenuineJournal(base, r.disk)
    ensures var r', n := QuarantineFrom(r, k), 2 * (|r.disk.journal.value.entries| - k) + 1;
            && !r'.end.Raised?
            && (r.fuel >= n ==> r'.end.Running? && r'.fuel >= r.fuel - n)
    decreases |r.disk.journal.value.entries| - k
  {
    if k < |r.disk.journal.value.entries| {
      assert EntryInv(r.disk.journal.value.entries[k], base, r.disk.files);
      assert Genuine(r.disk.journal.value.entries[k], base);
      var r' := QuarantineStep(r, k);
      QuarantineStepKeeps(p, base, r, k);
      assert !r'.end.Raised?;
      if r'.end.Running? {
        QuarantineRunsThrough(p, base, r', k + 1);
      }
    }
  }

  lemma {:induction false} PurgeRunsThrough(p: Prepared, base: map<Path, Digest>, r: Run, k: nat)
    requires r.end.Running? && MidPurge(r, p, base, k)
    ensures var r', n := PurgeFrom(r, k), 2 * (|r.disk.journal.value.entries| - k) + 1;
            && !r'.end.Raised?
            && (r.fuel >= n ==> r'.end.Running? && r'.fuel >= r.fuel - n)
    decreases |r.disk.journal.value.entries| - k
  {
    if k < |r.disk.journal.value.entries| {
      assert EntryInv(r.disk.journal.value.entries[k], base, r.disk.files);
      var r' := PurgeStep(r, k);
      PurgeStepKeeps(p, base, r, k);
      assert !r'.end.Raised?;
      if r'.end.Running? {
        PurgeRunsThrough(p, base, r', k + 1);
      }
    }
  }

  /** Enough operations for any run: the journal, ten records, two per entry and phase. */
  function Enough(p: Prepared): nat {
    4 * |p.plan| + 12
  }

  lemma RecordedHashesDoNotDependOnFiles(plan: seq<Planned>, a: map<Path, Digest>, b: map<Path, Digest>)
    requires AllRecorded(plan)
    ensures CleanupEntries(plan, a) == CleanupEntries(plan, b) && CleanupEntries(plan, a).Some?
  {
    assert CleanupEntries(plan, a).value == CleanupEntries(plan, b).value;
  }

  lemma OpenRunsThrough(p: Prepared, base: map<Path, Digest>, r: Run)
    requires r.end.Running? && DiskInv(p, base, r.disk)
    requires AllRecorded(p.plan) || (r.disk.journal.None? && CleanupEntries(p.plan, base).Some?)
    ensures !OpenJournal(p, r).end.Raised?
    ensures r.fuel >= 1 ==> OpenJournal(p, r).end.Running? && OpenJournal(p, r).fuel >= r.fuel - 1
  {
    if AllRecorded(p.plan) {
      RecordedHashesDoNotDependOnFiles(p.plan, base, r.disk.files);
    }
  }

  /** The journal's entries are genuine when the planned ones are: status plays no part in it. */
  lemma GenuineEntries(p: Prepared, base: map<Path, Digest>, d: Disk)
    requires DiskInv(p, base, d) && CleanupEntries(p.plan, base).Some?
    requires forall k :: 0 <= k < |p.plan| ==> Genuine(CleanupEntries(p.plan, base).value[k], base)
    ensures GenuineJournal(base, d)
  {
    if d.journal.Some? {
      var entries, planned := d.journal.value.entries, CleanupEntries(p.plan, base).value;
      forall k | 0 <= k < |entries| ensures Genuine(entries[k], base) {
        assert entries[k].(status := Pending) == planned[k].(status := Pending);
      }
    }
  }

  lemma QuarantineAllRunsThrough(p: Prepared, base: map<Path, Digest>, d: Disk, fuel: nat)
    requires DistinctSources(p.plan) && DiskInv(p, base, d)
    requires CleanupEntries(p.plan, base).Some? && (AllRecorded(p.plan) || d.journal.None?)
    requires forall k :: 0 <= k < |p.plan| ==> Genuine(CleanupEntries(p.plan, base).value[k], base)
    ensures var r := QuarantineAll(p, d, fuel);
            && !r.end.Raised?
            && (fuel >= Enough(p) ==> r.end.Running? && r.fuel >= 2 * |p.plan| + 4)
  {
    var start := Run(d, fuel, Running);
    OpenRunsThrough(p, base, start);
    AnnouncedKeeps(p, base, d, fuel);
    var announced := Announce(OpenJournal(p, start));
    if announced.end.Running? {
      GenuineEntries(p, base, announced.disk);
      QuarantineRunsThrough(p, base, announced, 0);
    }
  }

  lemma CommitRunsThrough(p: Prepared, base: map<Path, Digest>, d: Disk, fuel: nat)
    requires DistinctSources(p.plan) && DiskInv(p, base, d)
    requires CleanupEntries(p.plan, base).Some? && (AllRecorded(p.plan) || d.journal.None?)
    requires forall k :: 0 <= k < |p.plan| ==> Genuine(CleanupEntries(p.plan, base).value[k], base)
    ensures !Commit(p, d, fuel).end.Raised?
    ensures fuel >= Enough(p) ==> Commit(p, d, fuel).end.Finished?
  {
    QuarantineAllRunsThrough(p, base, d, fuel);
    QuarantineAllKeeps(p, base, d, fuel);
    var r := QuarantineAll(p, d, fuel);
    if r.end.Running? {
      PurgeRunsThrough(p, base, r, 0);
    }
  }

  /**
    Crash-resume convergence: after any series of crashed runs, a run never raises, only moves
    entries forward, finishes when it is given enough operations, and finishing means that every
    source and quarantine path is gone, every entry is deleted and all records say completed.
  */
  lemma CrashResumeConverges(p: Prepared, d: Disk, fuels: seq<nat>, fuel: nat)
    requires FreshlyPrepared(p, d) && AllRecorded(p.plan)
    ensures var before, r := Reach(p, d, fuels), Commit(p, Reach(p, d, fuels), fuel);
            && !r.end.Raised?
            && Advanced(before, r.disk)
            && (fuel >= Enough(p) ==> r.end.Finished?)
            && (r.end.Finished? ==> Closed(p, d.files, r.disk))
  {
    ReachKeeps(p, d, fuels);
    CommitKeeps(p, d.files, Reach(p, d, fuels), fuel);
    CommitRunsThrough(p, d.files, Reach(p, d, fuels), fuel);
  }

  ghost predicate NeverRaises(p: Prepared, d: Disk) {
    forall fuels: seq<nat>, fuel: nat :: !Commit(p, Reach(p, d, fuels), fuel).end.Raised?
  }

  /** Once the file behind an unrecorded hash has moved, every rerun raises and changes nothing. */
  lemma UnrecordedHashStrands(p: Prepared, d: Disk, k: nat, fuel: nat)
    requires d.journal.Some? && k < |p.plan|
    requires p.plan[k].recorded == "" && Source(p.plan[k].area, p.plan[k].name) !in d.files
    ensures Commit(p, d, fuel) == Run(d, fuel, Raised)
  {
    assert CleanupEntries(p.plan, d.files).None?;
  }

  /** One finished run is enough to strand the next. */
  lemma UnrecordedRerunRaises(p: Prepared, d: Disk, k: nat)
    requires FreshlyPrepared(p, d) && k < |p.plan| && p.plan[k].recorded == ""
    ensures Commit(p, Reach(p, d, [Enough(p)]), 0).end.Raised?
  {
    assert [Enough(p)][..0] == [];
    assert Reach(p, d, []) == d;
    CommitRunsThrough(p, d.files, d, Enough(p));
    CommitKeeps(p, d.files, d, Enough(p));
    var closed := Commit(p, d, Enough(p)).disk;
    assert Names(closed.journal.value.entries[k], p.plan[k], k, d.files);
    UnrecordedHashStrands(p, closed, k, 0);
  }

  /**
    Exactly when resuming is safe: the evidence must record every hash.  An unrecorded hash is
    recomputed from the source, which a rerun no longer finds.
  */
  lemma ResumableExactlyWhenRecorded(p: Prepared, d: Disk)
    requires FreshlyPrepared(p, d)
    ensures NeverRaises(p, d) <==> AllRecorded(p.plan)
  {
    if AllRecorded(p.plan) {
      forall fuels: seq<nat>, fuel: nat
        ensures !Commit(p, Reach(p, d, fuels), fuel).end.Raised?
      {
        CrashResumeConverges(p, d, fuels, fuel);
      }
    } else {
      var k :| 0 <= k < |p.plan| && p.plan[k].recorded == "";
      UnrecordedRerunRaises(p, d, k);
    }
  }

  // ---------------------------------------------------------------- a changed file

  /** An entry whose file is not what was recorded stays pending and untouched, and makes its step raise. */
  lemma ChangedEntryRaises(p: Prepared, base: map<Path, Digest>, r: Run, k: nat)
    requires r.end.Running? && MidQuarantine(r, p, base, k) && k < |r.disk.journal.value.entries|
    requires !Genuine(r.disk.journal.value.entries[k], base)
    ensures QuarantineStep(r, k).end.Raised?
  {
    assert EntryInv(r.disk.journal.value.entries[k], base, r.disk.files);
  }

  lemma {:induction false} ChangedFileRaises(p: Prepared, base: map<Path, Digest>, r: Run, i: nat, k: nat)
    requires r.end.Running? && MidQuarantine(r, p, base, i) && i <= k < |r.disk.journal.value.entries|
    requires !Genuine(r.disk.journal.value.entries[k], base) && r.fuel >= 2 * (k - i)
    ensures QuarantineFrom(r, i).end.Raised?
    decreases k - i
  {
    if i == k {
      ChangedEntryRaises(p, base, r, k);
    } else {
      var r' := QuarantineStep(r, i);
      QuarantineStepKeeps(p, base, r, i);
      var e, e' := r.disk.journal.value.entries[k], r'.disk.journal.value.entries[k];
      assert e.(status := Pending) == e'.(status := Pending);
      if r'.end.Running? {
        ChangedFileRaises(p, base, r', i + 1, k);
      }
    }
  }

  lemma RaisedRunEnds(r: Run)
    requires r.end.Raised?
    ensures DeleteAll(RecordQuarantine(r)) == r
  {
  }

  /** With operations enough for its journal and announcements, the commit raises. */
  lemma ChangedCommitRaises(p: Prepared, base: map<Path, Digest>, d: Disk, fuel: nat, k: nat)
    requires DistinctSources(p.plan) && DiskInv(p, base, d) && fuel >= Enough(p)
    requires CleanupEntries(p.plan, base).Some? && k < |p.plan|
    requires !Genuine(CleanupEntries(p.plan, base).value[k], base)
    ensures Commit(p, d, fuel).end.Raised?
  {
    var started := OpenJournal(p, Run(d, fuel, Running));
    var announced := Announce(started);
    AnnouncedKeeps(p, base, d, fuel);
    if announced.end.Running? {
      var e, planned := announced.disk.journal.value.entries[k], CleanupEntries(p.plan, base).value[k];
      assert e.(status := Pending) == planned.(status := Pending);
      assert announced.fuel >= fuel - 3;
      ChangedFileRaises(p, base, announced, 0, k);
      RaisedRunEnds(QuarantineFrom(announced, 0));
    } else {
      assert started.end.Raised? && announced == started;
      RaisedRunEnds(announced);
    }
  }

  /**
    One file that is not what the evidence recorded: no run finishes, every run with enough
    operations raises, and no content is ever lost.
  */
  lemma ChangedFileStopsCleanup(p: Prepared, d: Disk, fuels: seq<nat>, fuel: nat, k: nat)
    requires d.journal.None? && DistinctSources(p.plan)
    requires CleanupEntries(p.plan, d.files).Some? && k < |p.plan|
    requires !Genuine(CleanupEntries(p.plan, d.files).value[k], d.files)
    ensures var r := Commit(p, Reach(p, d, fuels), fuel);
            && !r.end.Finished? && (fuel >= Enough(p) ==> r.end.Raised?)
            && forall i :: 0 <= i < |p.plan| ==>
                 SafeFor(CleanupEntries(p.plan, d.files).value[i], d.files, r.disk.files)
  {
    ReachKeeps(p, d, fuels);
    CommitKeeps(p, d.files, Reach(p, d, fuels), fuel);
    if fuel >= Enough(p) {
      ChangedCommitRaises(p, d.files, Reach(p, d, fuels), fuel, k);
    }
    ChangedFileSafe(p, d.files, Commit(p, Reach(p, d, fuels), fuel).disk, k);
  }

  lemma ChangedFileSafe(p: Prepared, base: map<Path, Digest>, now: Disk, k: nat)
    requires DiskInv(p, base, now) && CleanupEntries(p.plan, base).Some? && k < |p.plan|
    requires !Genuine(CleanupEntries(p.plan, base).value[k], base)
    ensures !(now.journal.Some? && NonePending(now.journal.value.entries))
    ensures forall i :: 0 <= i < |p.plan| ==> SafeFor(CleanupEntries(p.plan, base).value[i], base, now.files)
  {
    var planned := CleanupEntries(p.plan, base).value;
    if now.journal.Some? {
      var entries := now.journal.value.entries;
      assert entries[k].(status := Pending) == planned[k].(status := Pending);
      assert EntryInv(entries[k], base, now.files);
      assert entries[k].status == Pending;
      forall i | 0 <= i < |p.plan|
        ensures SafeFor(planned[i], base, now.files)
      {
        assert entries[i].(status := Pending) == planned[i].(status := Pending);
        UnsafeMeansDestroyed(base, now, entries, i);
      }
    }
  }

  // ---------------------------------------------------------------- what the records may say

  predicate AllGone(entries: seq<Entry>) {
    forall k :: 0 <= k < |entries| ==> entries[k].status == Deleted
  }

  predicate SomeMoved(entries: seq<Entry>) {
    exists k :: 0 <= k < |entries| && entries[k].status != Pending
  }

  function Level(doc: Document): nat {
    match doc case Runtime => 0 case CloseoutPrepared => 1 case CleanupQuarantined => 2 case CleanupCompleted => 3
  }

  /** Each record follows the one written before it: result, manifest, handoff, checkpoint. */
  predicate InOrder(d: Disk) {
    && (Level(d.manifest) >= 2 ==> d.minimalResult)
    && (Level(d.handoff) >= 2 ==> Level(d.manifest) >= Level(d.handoff))
    && (Level(d.checkpoint) >= 2 ==> Level(d.handoff) >= Level(d.checkpoint))
    && (d.handoff != Runtime ==> d.checkpoint != Runtime)
  }

  /**
    No record is ahead of the one before it or of the journal: "completed" means every entry is
    deleted, "quarantined" that none is pending, and an entry moves only after handoff and checkpoint
    have announced the closeout.
  */
  predicate Truthful(d: Disk) {
    var records := {d.manifest, d.handoff, d.checkpoint};
    InOrder(d) &&
    match d.journal
    case None => records == {Runtime}
    case Some(j) =>
      && d.manifest != CloseoutPrepared
      && (CleanupCompleted in records ==> AllGone(j.entries))
      && (CleanupCompleted in {d.handoff, d.checkpoint} ==> j.status == AllDeleted)
      && (CleanupQuarantined in records ==> NonePending(j.entries) && j.status != Quarantining)
      && (SomeMoved(j.entries) ==> d.handoff != Runtime && d.checkpoint != Runtime)
      && (j.status == AllDeleted ==> AllGone(j.entries)) && (j.status != Quarantining ==> NonePending(j.entries))
  }

  /** The run has announced itself and not yet recorded its end. */
  predicate Announced(r: Run) {
    r.end.Running? ==> r.disk.journal.Some? && r.disk.handoff == r.disk.checkpoint == CloseoutPrepared
  }

  lemma OpenTruthful(p: Prepared, r: Run)
    requires r.end.Running? && Truthful(r.disk)
    ensures Truthful(OpenJournal(p, r).disk)
  {
    var made := CleanupEntries(p.plan, r.disk.files);
    if r.disk.journal.None? && made.Some? {
      assert forall k :: 0 <= k < |p.plan| ==> made.value[k] == PlannedEntry(p.plan[k], k, r.disk.files);
    }
  }

  lemma AnnounceTruthful(r: Run)
    requires Truthful(r.disk) && (r.end.Running? ==> r.disk.journal.Some?)
    ensures Truthful(Announce(r).disk) && Announced(Announce(r))
  {
  }

  lemma QuarantineStepTruthful(r: Run, k: nat)
    requires r.end.Running? && Truthful(r.disk) && Announced(r) && k < |r.disk.journal.value.entries|
    requires forall i :: 0 <= i < k ==> r.disk.journal.value.entries[i].status != Pending
    ensures var r' := QuarantineStep(r, k);
            && Truthful(r'.disk) && Announced(r')
            && (r'.end.Running? ==> forall i :: 0 <= i <= k ==> r'.disk.journal.value.entries[i].status != Pending)
  {
    var entries := r.disk.journal.value.entries;
    if entries[k].status == Pending {
      assert !AllGone(entries) && !NonePending(entries);
    }
  }

  lemma {:induction false} QuarantineTruthful(r: Run, k: nat)
    requires Truthful(r.disk) && Announced(r)
    requires r.end.Running? ==>
               && k <= |r.disk.journal.value.entries|
               && forall i :: 0 <= i < k ==> r.disk.journal.value.entries[i].status != Pending
    ensures var r' := QuarantineFrom(r, k);
            && Truthful(r'.disk) && Announced(r')
            && (r'.end.Running? ==> r'.disk.journal.value.status == AllQuarantined)
    decreases r.end.Running?, if r.end.Running? then |r.disk.journal.value.entries| - k else 0
  {
    if r.end.Running? && k < |r.disk.journal.value.entries| {
      QuarantineStepTruthful(r, k);
      QuarantineTruthful(QuarantineStep(r, k), k + 1);
    }
  }

  predicate AllRecords(r: Run, doc: Document) {
    r.end.Running? ==> r.disk.journal.Some? && r.disk.manifest == r.disk.handoff == r.disk.checkpoint == doc
  }

  lemma RecordQuarantineTruthful(r: Run)
    requires Truthful(r.disk) && Announced(r)
    requires r.end.Running? ==> r.disk.journal.value.status == AllQuarantined
    ensures Truthful(RecordQuarantine(r).disk) && AllRecords(RecordQuarantine(r), CleanupQuarantined)
  {
  }

  lemma PurgeStepTruthful(r: Run, k: nat)
    requires r.end.Running? && Truthful(r.disk) && AllRecords(r, CleanupQuarantined)
    requires k < |r.disk.journal.value.entries|
    requires forall i :: 0 <= i < k ==> r.disk.journal.value.entries[i].status == Deleted
    ensures var r' := PurgeStep(r, k);
            && Truthful(r'.disk) && AllRecords(r', CleanupQuarantined)
            && (r'.end.Running? ==> forall i :: 0 <= i <= k ==> r'.disk.journal.value.entries[i].status == Deleted)
  {
    var entries := r.disk.journal.value.entries;
    if entries[k].status != Deleted {
      assert !AllGone(entries);
      assert SomeMoved(entries);
    }
  }

  lemma {:induction false} PurgeTruthful(r: Run, k: nat)
    requires Truthful(r.disk) && AllRecords(r, CleanupQuarantined)
    requires r.end.Running? ==>
               && k <= |r.disk.journal.value.entries|
               && forall i :: 0 <= i < k ==> r.disk.journal.value.entries[i].status == Deleted
    ensures var r' := PurgeFrom(r, k);
            && Truthful(r'.disk) && AllRecords(r', CleanupQuarantined)
            && (r'.end.Running? ==> r'.disk.journal.value.status == AllDeleted)
    decreases r.end.Running?, if r.end.Running? then |r.disk.journal.value.entries| - k else 0
  {
    if r.end.Running? && k < |r.disk.journal.value.entries| {
      PurgeStepTruthful(r, k);
      PurgeTruthful(PurgeStep(r, k), k + 1);
    }
  }

  lemma RecordCompletionTruthful(r: Run)
    requires Truthful(r.disk) && AllRecords(r, CleanupQuarantined)
    requires r.end.Running? ==> r.disk.journal.value.status == AllDeleted
    ensures Truthful(RecordCompletion(r).disk)
  {
  }

  /** One run, to any crash point, keeps the records truthful. */
  lemma CommitTruthful(p: Prepared, d: Disk, fuel: nat)
    requires Truthful(d)
    ensures Truthful(Commit(p, d, fuel).disk)
  {
    var start := Run(d, fuel, Running);
    OpenTruthful(p, start);
    AnnounceTruthful(OpenJournal(p, start));
    var announced := Announce(OpenJournal(p, start));
    QuarantineTruthful(announced, 0);
    RecordQuarantineTruthful(QuarantineFrom(announced, 0));
    var recorded := QuarantineAll(p, d, fuel);
    PurgeTruthful(recorded, 0);
    RecordCompletionTruthful(PurgeFrom(recorded, 0));
  }

  /**
    Over any series of crashed runs from a batch whose records still say it is running: whatever
    manifest, handoff and checkpoint claim has already happened to the files.
  */
  lemma {:induction false} RecordsStayTruthful(p: Prepared, d: Disk, fuels: seq<nat>)
    requires d.journal.None? && d.manifest == d.handoff == d.checkpoint == Runtime
    ensures Truthful(Reach(p, d, fuels))
    decreases |fuels|
  {
    if fuels != [] {
      RecordsStayTruthful(p, d, fuels[..|fuels| - 1]);
      CommitTruthful(p, Reach(p, d, fuels[..|fuels| - 1]), fuels[|fuels| - 1]);
    }
  }

  /** A record that says "completed" is right about the files, at every crash point of every run. */
  lemma CompletedMeansGone(p: Prepared, d: Disk, fuels: seq<nat>, k: nat)
    requires d.journal.None? && d.manifest == d.handoff == d.checkpoint == Runtime
    requires DistinctSources(p.plan) && k < |p.plan|
    requires var now := Reach(p, d, fuels); CleanupCompleted in {now.manifest, now.handoff, now.checkpoint}
    ensures var files := Reach(p, d, fuels).files;
            Source(p.plan[k].area, p.plan[k].name) !in files && Quarantine(k, p.plan[k].name) !in files
  {
    var now := Reach(p, d, fuels);
    ReachKeeps(p, d, fuels);
    RecordsStayTruthful(p, d, fuels);
    var entries := now.journal.value.entries;
    PlanListed(p.plan, d.files, entries);
    assert Names(entries[k], p.plan[k], k, d.files);
    assert EntryInv(entries[k], d.files, now.files);
  }

  lemma {:induction false} NothingToQuarantine(r: Run, k: nat)
    requires r.end.Running? && r.disk.journal.Some? && NonePending(r.disk.journal.value.entries)
    ensures var j := r.disk.journal.value;
            QuarantineFrom(r, k) == Write(r, r.disk.(journal := Some(j.(status := AllQuarantined))))
    decreases if k < |r.disk.journal.value.entries| then |r.disk.journal.value.entries| - k else 0
  {
    if k < |r.disk.journal.value.entries| {
      NothingToQuarantine(r, k + 1);
    }
  }

  /** The journal's own status does go back: a rerun of a finished closeout reopens it under a manifest
      that says "completed", though every entry stays deleted. */
  lemma RerunReopensJournal(p: Prepared, d: Disk)
    requires FreshlyPrepared(p, d) && AllRecorded(p.plan)
    ensures var again := Reach(p, d, [Enough(p), 3]);
            && again.manifest == CleanupCompleted && again.journal.Some?
            && again.journal.value.status == AllQuarantined && AllGone(again.journal.value.entries)
  {
    var done := Reach(p, d, [Enough(p)]);
    assert [Enough(p)][..0] == [] && [Enough(p), 3][..1] == [Enough(p)];
    CrashResumeConverges(p, d, [], Enough(p));
    var start := Run(done, 3, Running);
    RecordedHashesDoNotDependOnFiles(p.plan, d.files, done.files);
    PlanListed(p.plan, d.files, done.journal.value.entries);
    ReachKeeps(p, d, [Enough(p)]);
    assert OpenJournal(p, start) == start;
    NothingToQuarantine(Announce(start), 0);
    assert QuarantineFrom(Announce(start), 0).fuel == 0;
  }

  // ---------------------------------------------------------------- journals of other batches

  /** What an existing journal must say to be resumed. */
  predicate Resumable(p: Prepared, d: Disk, j: Journal) {
    && j.schema == 1 && j.batch == p.batch && j.accounts == p.accounts
    && (p.artifact.None? || j.artifact == p.artifact)
    && (forall k :: 0 <= k < |p.plan| ==>
          p.plan[k].recorded != "" || Source(p.plan[k].area, p.plan[k].name) in d.files)
    && ListsPlan(p.plan, d.files, j.entries)
  }

  /** A journal is resumed exactly when it is of this batch, its accounts, its evidence and its files;
      any other makes the whole commit raise before its first write. */
  lemma JournalResumedExactly(p: Prepared, d: Disk, j: Journal, fuel: nat)
    requires d.journal == Some(j)
    ensures OpenJournal(p, Run(d, fuel, Running)).end.Running? <==> Resumable(p, d, j)
    ensures !Resumable(p, d, j) ==> Commit(p, d, fuel) == Run(d, fuel, Raised)
  {
    if CleanupEntries(p.plan, d.files).Some? {
      PlanListed(p.plan, d.files, j.entries);
    }
  }

  // ---------------------------------------------------------------- files changed between runs

  /** The entry's two files, whatever was on disk before the run: gone only with the recorded content. */
  predicate Vouched(e: Entry, base: map<Path, Digest>, files: map<Path, Digest>) {
    && (SameAt(base, files, e.source) || (Has(base, e.source, e.sha256) && e.source !in files))
    && (|| SameAt(base, files, e.quarantine)
        || (&& (e.quarantine in files ==> files[e.quarantine] == e.sha256)
            && (Has(base, e.quarantine, e.sha256) || Has(base, e.source, e.sha256))))
  }

  ghost predicate AllVouched(base: map<Path, Digest>, d: Disk) {
    && d.journal.Some? && DistinctPaths(d.journal.value.entries)
    && (forall k :: 0 <= k < |d.journal.value.entries| ==> Vouched(d.journal.value.entries[k], base, d.files))
    && (forall path :: Elsewhere(path, d.journal.value.entries) ==> SameAt(base, d.files, path))
  }

  /** Changing one entry's files and its status, so that the entry stays vouched for. */
  lemma OneVouched(base: map<Path, Digest>, d: Disk, files': map<Path, Digest>, k: nat, status: EntryStatus)
    requires AllVouched(base, d) && k < |d.journal.value.entries|
    requires var e := d.journal.value.entries[k];
             && (forall path :: path != e.source && path != e.quarantine ==> SameAt(d.files, files', path))
             && Vouched(e, base, files')
    ensures AllVouched(base, d.(files := files'))
    ensures AllVouched(base, d.(files := files', journal := Some(WithStatus(d.journal.value, k, status))))
  {
    var entries := d.journal.value.entries;
    forall i | 0 <= i < |entries| ensures Vouched(entries[i], base, files') {
      if i != k {
        assert SameAt(d.files, files', entries[i].source) && SameAt(d.files, files', entries[i].quarantine);
        assert Vouched(entries[i], base, d.files);
      }
    }
    var entries' := WithStatus(d.journal.value, k, status).entries;
    forall path | Elsewhere(path, entries) ensures SameAt(base, files', path) {
      assert path != entries[k].source && path != entries[k].quarantine;
      assert SameAt(d.files, files', path);
    }
    forall path | Elsewhere(path, entries') ensures Elsewhere(path, entries) {
      forall i | 0 <= i < |entries| ensures path != entries[i].source && path != entries[i].quarantine {
        assert path != entries'[i].source && path != entries'[i].quarantine;
      }
    }
  }

  lemma QuarantineStepVouched(base: map<Path, Digest>, r: Run, k: nat)
    requires r.end.Running? && AllVouched(base, r.disk) && k < |r.disk.journal.value.entries|
    ensures AllVouched(base, QuarantineStep(r, k).disk)
  {
    var d, e := r.disk, r.disk.journal.value.entries[k];
    assert Vouched(e, base, d.files);
    if e.source in d.files && d.files[e.source] == e.sha256 {
      OneVouched(base, d, d.files[e.quarantine := e.sha256] - {e.source}, k, Quarantined);
    }
    OneVouched(base, d, d.files, k, Quarantined);
  }

  lemma PurgeStepVouched(base: map<Path, Digest>, r: Run, k: nat)
    requires r.end.Running? && AllVouched(base, r.disk) && k < |r.disk.journal.value.entries|
    ensures AllVouched(base, PurgeStep(r, k).disk)
  {
    var d, e := r.disk, r.disk.journal.value.entries[k];
    assert Vouched(e, base, d.files);
    if e.quarantine in d.files && d.files[e.quarantine] == e.sha256 {
      OneVouched(base, d, d.files - {e.quarantine}, k, Deleted);
    }
    OneVouched(base, d, d.files, k, Deleted);
  }

  lemma {:induction false} QuarantineVouched(base: map<Path, Digest>, r: Run, k: nat)
    requires AllVouched(base, r.disk)
    ensures AllVouched(base, QuarantineFrom(r, k).disk)
    decreases r.end.Running?, if r.end.Running? then |r.disk.journal.value.entries| - k else 0
  {
    if r.end.Running? && k < |r.disk.journal.value.entries| {
      QuarantineStepVouched(base, r, k);
      QuarantineVouched(base, QuarantineStep(r, k), k + 1);
    }
  }

  lemma {:induction false} PurgeVouched(base: map<Path, Digest>, r: Run, k: nat)
    requires AllVouched(base, r.disk)
    ensures AllVouched(base, PurgeFrom(r, k).disk)
    decreases r.end.Running?, if r.end.Running? then |r.disk.journal.value.entries| - k else 0
  {
    if r.end.Running? && k < |r.disk.journal.value.entries| {
      PurgeStepVouched(base, r, k);
      PurgeVouched(base, PurgeStep(r, k), k + 1);
    }
  }

  lemma OpenVouched(p: Prepared, d: Disk, fuel: nat)
    requires DistinctSources(p.plan)
    ensures var r := OpenJournal(p, Run(d, fuel, Running));
            r.disk.files == d.files && (r.end.Running? ==> AllVouched(d.files, r.disk))
  {
    var r := OpenJournal(p, Run(d, fuel, Running));
    if r.end.Running? {
      PlanListed(p.plan, d.files, r.disk.journal.value.entries);
      var entries := r.disk.journal.value.entries;
      assert ListsPlan(p.plan, d.files, entries);
      forall k | 0 <= k < |entries| ensures Names(entries[k], p.plan[k], k, d.files) {}
    }
  }

  lemma CommitVouched(p: Prepared, d: Disk, fuel: nat)
    requires DistinctSources(p.plan)
    ensures var now := Commit(p, d, fuel).disk; now.files == d.files || AllVouched(d.files, now)
  {
    OpenVouched(p, d, fuel);
    var announced := Announce(OpenJournal(p, Run(d, fuel, Running)));
    if announced.end.Running? {
      QuarantineVouched(d.files, announced, 0);
      RecordsKeepVouched(d.files, QuarantineFrom(announced, 0));
      PurgeVouched(d.files, QuarantineAll(p, d, fuel), 0);
      RecordsKeepVouched(d.files, PurgeFrom(QuarantineAll(p, d, fuel), 0));
    }
  }

  lemma RecordsKeepVouched(base: map<Path, Digest>, r: Run)
    requires AllVouched(base, r.disk)
    ensures AllVouched(base, RecordQuarantine(r).disk) && AllVouched(base, RecordCompletion(r).disk)
  {
    assert RecordQuarantine(r).disk.files == RecordCompletion(r).disk.files == r.disk.files;
    assert RecordQuarantine(r).disk.journal == RecordCompletion(r).disk.journal == r.disk.journal;
  }

  /** The file at the path has the content the entry records, or is replaced by that content. */
  predicate GoesWith(e: Entry, base: map<Path, Digest>, path: Path) {
    || (path == e.source && Has(base, path, e.sha256))
    || (path == e.quarantine && (Has(base, path, e.sha256) || Has(base, e.source, e.sha256)))
  }

  /**
    Whatever others did to the files before this run: a file that the run makes vanish or replaces is
    a listed source with the recorded content, or the quarantine file of an entry whose content is
    recorded there or in its source.  Everything else is as it was, at every crash point.
  */
  lemma OnlyRecordedContentGoes(p: Prepared, d: Disk, fuel: nat, path: Path) returns (k: nat)
    requires DistinctSources(p.plan) && !SameAt(d.files, Commit(p, d, fuel).disk.files, path)
    ensures var now := Commit(p, d, fuel).disk;
            && now.journal.Some? && k < |now.journal.value.entries|
            && GoesWith(now.journal.value.entries[k], d.files, path)
  {
    CommitVouched(p, d, fuel);
    var now := Commit(p, d, fuel).disk;
    k :| 0 <= k < |now.journal.value.entries| &&
      path in {now.journal.value.entries[k].source, now.journal.value.entries[k].quarantine};
    assert Vouched(now.journal.value.entries[k], d.files, now.files);
  }

  // ---------------------------------------------------------------- the program itself

  /** The batch directory: its files, its records, and the operations left before a power loss. */
  class BatchDirectory {
    var files: map<Path, Digest>
    var journal: Option<Journal>
    var minimalResult: bool
    var manifest: Document
    var handoff: Document
    var checkpoint: Document
    var fuel: nat

    function OnDisk(): Disk
      reads this
    {
      Disk(files, journal, minimalResult, manifest, handoff, checkpoint)
    }

    constructor (disk: Disk, fuel: nat)
      ensures OnDisk() == disk && this.fuel == fuel
    {
      this.files, this.journal, this.minimalResult := disk.files, disk.journal, disk.minimalResult;
      this.manifest, this.handoff, this.checkpoint := disk.manifest, disk.handoff, disk.checkpoint;
      this.fuel := fuel;
    }

    method Tick() returns (end: End)
      modifies this`fuel
      ensures old(fuel) == 0 ==> end == PowerLost && fuel == 0
      ensures old(fuel) > 0 ==> end == Running && fuel == old(fuel) - 1
    {
      if fuel == 0 {
        return PowerLost;
      }
      fuel := fuel - 1;
      end := Running;
    }

    /** `os.replace(source, quarantine)` */
    method Replace(source: Path, quarantine: Path) returns (end: End)
      requires source in files
      modifies this`files, this`fuel
      ensures Run(OnDisk(), fuel, end) ==
              Write(Run(old(OnDisk()), old(fuel), Running),
                    old(OnDisk()).(files := old(files)[quarantine := old(files)[source]] - {source}))
    {
      end := Tick();
      if end.Running? {
        files := files[quarantine := files[source]] - {source};
      }
    }

    method Unlink(path: Path) returns (end: End)
      modifies this`files, this`fuel
      ensures Run(OnDisk(), fuel, end) ==
              Write(Run(old(OnDisk()), old(fuel), Running), old(OnDisk()).(files := old(files) - {path}))
    {
      end := Tick();
      if end.Running? {
        files := files - {path};
      }
    }

    /** `atomic_json(journal_path, journal)` */
    method SaveJournal(j: Journal) returns (end: End)
      modifies this`journal, this`fuel
      ensures Run(OnDisk(), fuel, end) ==
              Write(Run(old(OnDisk()), old(fuel), Running), old(OnDisk()).(journal := Some(j)))
    {
      end := Tick();
      if end.Running? {
        journal := Some(j);
      }
    }

    method SaveManifest(doc: Document) returns (end: End)
      modifies this`manifest, this`fuel
      ensures Run(OnDisk(), fuel, end) == WriteManifest(Run(old(OnDisk()), old(fuel), Running), doc)
    {
      end := Tick();
      if end.Running? {
        manifest := doc;
      }
    }

    method SaveHandoff(doc: Document) returns (end: End)
      modifies this`handoff, this`fuel
      ensures Run(OnDisk(), fuel, end) == WriteHandoff(Run(old(OnDisk()), old(fuel), Running), doc)
    {
      end := Tick();
      if end.Running? {
        handoff := doc;
      }
    }

    method SaveCheckpoint(doc: Document) returns (end: End)
      modifies this`checkpoint, this`fuel
      ensures Run(OnDisk(), fuel, end) == WriteCheckpoint(Run(old(OnDisk()), old(fuel), Running), doc)
    {
      end := Tick();
      if end.Running? {
        checkpoint := doc;
      }
    }

    method SaveResult() returns (end: End)
      modifies this`minimalResult, this`fuel
      ensures Run(OnDisk(), fuel, end) == WriteResult(Run(old(OnDisk()), old(fuel), Running))
    {
      end := Tick();
      if end.Running? {
        minimalResult := true;
      }
    }

    method LoadOrCreateJournal(p: Prepared) returns (j: Journal, end: End)
      modifies this`journal, this`fuel
      ensures Run(OnDisk(), fuel, end) == OpenJournal(p, Run(old(OnDisk()), old(fuel), Running))
      ensures end.Running? ==> journal == Some(j)
    {
      j := NewJournal(p, []);
      var expected := CleanupEntries(p.plan, files);
      if journal.Some? {
        j := journal.value;
        end := if JournalMatches(p, OnDisk(), j) then Running else Raised;
      } else if expected.None? {
        end := Raised;
      } else {
        j := NewJournal(p, expected.value);
        end := SaveJournal(j);
      }
    }

    /** Moves every pending source into quarantine, saving the journal after each move. */
    method QuarantineEntries(loaded: Journal) returns (j: Journal, end: End)
      requires journal == Some(loaded)
      modifies this
      ensures Run(OnDisk(), fuel, end) == QuarantineFrom(Run(old(OnDisk()), old(fuel), Running), 0)
      ensures end.Running? ==> journal == Some(j)
    {
      j := loaded;
      ghost var start := Run(OnDisk(), fuel, Running);
      for k := 0 to |j.entries|
        invariant journal == Some(j) && |j.entries| == |loaded.entries|
        invariant QuarantineFrom(Run(OnDisk(), fuel, Running), k) == QuarantineFrom(start, 0)
      {
        var e := j.entries[k];
        if e.status == Pending {
          if e.source in files {
            if files[e.source] != e.sha256 {
              return j, Raised;
            }
            end := Replace(e.source, e.quarantine);
            if !end.Running? {
              return j, end;
            }
          } else if !Has(files, e.quarantine, e.sha256) {
            return j, Raised;
          }
          j := WithStatus(j, k, Quarantined);
          end := SaveJournal(j);
          if !end.Running? {
            return j, end;
          }
        }
      }
      j := j.(status := AllQuarantined);
      end := SaveJournal(j);
    }

    /** Unlinks every quarantined file that is still there, saving the journal after each one. */
    method PurgeQuarantine(loaded: Journal) returns (end: End)
      requires journal == Some(loaded)
      modifies this
      ensures Run(OnDisk(), fuel, end) == PurgeFrom(Run(old(OnDisk()), old(fuel), Running), 0)
    {
      var j := loaded;
      ghost var start := Run(OnDisk(), fuel, Running);
      for k := 0 to |j.entries|
        invariant journal == Some(j) && |j.entries| == |loaded.entries|
        invariant PurgeFrom(Run(OnDisk(), fuel, Running), k) == PurgeFrom(start, 0)
      {
        var e := j.entries[k];
        if e.status != Deleted {
          if e.quarantine in files {
            if files[e.quarantine] != e.sha256 {
              return Raised;
            }
            end := Unlink(e.quarantine);
            if !end.Running? {
              return;
            }
          }
          j := WithStatus(j, k, Deleted);
          end := SaveJournal(j);
          if !end.Running? {
            return;
          }
        }
      }
      j := j.(status := AllDeleted);
      end := SaveJournal(j);
    }

    /** `commit_closeout` */
    method CommitCloseout(p: Prepared) returns (end: End)
      modifies this
      ensures Run(OnDisk(), fuel, end) == Commit(p, old(OnDisk()), old(fuel))
    {
      var j;
      j, end := LoadOrCreateJournal(p);
      if end.Running? { end := SaveCheckpoint(CloseoutPrepared); }
      if end.Running? { end := SaveHandoff(CloseoutPrepared); }
      ghost var announced := Run(OnDisk(), fuel, end);
      assert announced == Announce(OpenJournal(p, Run(old(OnDisk()), old(fuel), Running)));
      if end.Running? { j, end := QuarantineEntries(j); }
      assert Run(OnDisk(), fuel, end) == QuarantineFrom(announced, 0);
      if end.Running? { end := SaveResult(); }
      if end.Running? { end := SaveManifest(CleanupQuarantined); }
      if end.Running? { end := SaveHandoff(CleanupQuarantined); }
      if end.Running? { end := SaveCheckpoint(CleanupQuarantined); }
      ghost var recorded := Run(OnDisk(), fuel, end);
      assert recorded == QuarantineAll(p, old(OnDisk()), old(fuel));
      if end.Running? { end := PurgeQuarantine(j); }
      assert Run(OnDisk(), fuel, end) == PurgeFrom(recorded, 0);
      if end.Running? { end := SaveManifest(CleanupCompleted); }
      if end.Running? { end := SaveHandoff(CleanupCompleted); }
      if end.Running? { end := SaveCheckpoint(CleanupCompleted); }
      if end.Running? { end := Finished; }
    }
  }
}
