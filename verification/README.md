# Verified bookkeeping of grok-build-auth

This project models the bookkeeping protocols of the repository in Dafny and proves what they
promise. `dafny verify dfyconfig.toml` checks all of it. There is one file per protocol:

| file | models |
|---|---|
| `Closeout.dfy` | the crash-safe cleanup journal of `scripts/finalize_grok_batch.py` |
| `AccountMatching.dfy` | the pairing of local sources with production accounts, same script |
| `BridgeImport.dfy`, `AuthFreshness.dfy` | the auth-push transaction of `bridge/bridge.py`, its staleness rules and per-identity lock |
| `LeasePool.dfy` | the round-robin lease pool of `xconsole_client/proxy_pool.py` and its rotation file |
| `BatchScheduler.dfy` | the worker window of `scripts/register_and_import.py` over that pool |
| `PreimportProbes.dfy`, `ImportResume.dfy` | the bounded probe loop and the resumable import of the same script |
| `CredentialFiles.dfy`, `Reprobe.dfy` | the credential file lifecycle and the reprobe worker of `clients/windows` |
| `GrpcWeb.dfy` | the protobuf and gRPC-web codec of `xconsole_client/grpcweb.py` |

How the outside world appears:

- A crash is a bound on the number of disk operations a run may still make (`fuel`); a statement
  for every bound is a statement for every crash point.
- A remote call ends in one of three ways: done, failed without effect, failed after its effect.
  Background credential rotations may come before every call.
- Probe, push, refresh and helper outcomes, clocks and elapsed times are parameters, completion orders
  nondeterministic; every statement is for all of them.
- Python's loops and objects are methods and classes; each is proved equal to a function or a
  declarative predicate, and the theorems are lemmas about those.

Assumptions, each used where it is named:

- A file's content is represented by its SHA-256 digest, so the digest is taken to be injective.
- `atomic_json`, `os.replace` and `unlink` are atomic and durable.
- The paths a cleanup plan lists are pairwise distinct (`Closeout.DistinctSources`); quarantine
  paths carry the journal index, so they are distinct by construction. The helper log is none of
  the closeout's own record files.
- UTF-8 decoding inverts encoding (`GrpcWeb.TextCodec.Lossless`).
- Proxy refs are unique (`LeasePool.UniqueRefs`), which `load_proxy_pool` enforces.
- `sleep(d)` advances the clock by at least `d`; the probed files have distinct names.
- An access token is represented by what it decodes to, so equal token hashes mean equal issue times.
- A rotation issues a refresh token different from the candidate's, with a later issue time. In the
  interleavings of `AuthFreshness.dfy` it also changes the stored refresh token, and stays out of the
  time between a push's snapshot and its write. There each identity has its own account.
- Each credential path belongs to one identity (`CredentialFiles.Ownership`), and a stale lock
  file left by a dead holder is cleared before the next one takes the lock.
- Access tokens stored for a batch are not rotated between resumed imports
  (`ImportResume.Undisturbed`).

Three promises hold only under a condition, which is proved exactly, and one does not hold:

- Rerunning a cleanup never raises if and only if the evidence records every hash
  (`Closeout.ResumableExactlyWhenRecorded`): `_cleanup_entries` recomputes an unrecorded hash
  from a source that a rerun no longer finds. The program's own evidence always records
  `log_sha256` (`scripts/finalize_grok_batch.py:218`), so an unrecorded hash can only come from a
  prepared artifact without that field.
- `cpa_reprobe.py` says a transient failure must not demote a verified account. A verified file
  survives a run, for all outcomes, if and only if no selected path is an unverified duplicate of
  it that the checkpoint leaves to be probed (`Reprobe.VerifiedFileSafe`). Such a pending or
  cooldown duplicate displaces the verified copy, even a newer one, because a refresh makes the
  duplicate the newest file.
- Successive promotions of one identity are meant to keep the refresh token or raise the issue
  time. `auth_is_stale` accepts any candidate that carries the stored refresh token, however old its
  access token, so a promotion can go back after a rotation (`AuthFreshness.RotationThenOldToken`)
  or after a failed push whose rollback is lost (`AuthFreshness.LostRollbackThenOldToken`). It
  cannot, whatever is accepted, if and only if the pushed refresh token is the one last promoted,
  or is not the stored one while the stored row is no older than the last promotion
  (`AuthFreshness.NeverGoesBackExactly`). Without rotations and lost rollbacks that always holds
  (`AuthFreshness.UndisturbedPromotions`).
- The journal's own status is not monotone, unlike its entries: rerunning a finished closeout sets it
  back to quarantined while the manifest says completed (`Closeout.RerunReopensJournal`).

## Model

| member | source | states |
|---|---|---|
| Closeout.CrashResumeConverges | scripts/finalize_grok_batch.py:937-1084 | after any series of crashes a rerun never raises, only advances entry statuses, finishes when given enough operations, and a finished run leaves every listed source and quarantine path absent, every entry deleted, every record completed and all other files as they were |
| Closeout.NoEarlyDestruction | scripts/finalize_grok_batch.py:967-1059 | from any initial disk and at any crash point: if some entry's content, first in its source or only in quarantine, is at neither path, then no entry is pending and the minimal result and a quarantined or completed manifest are on disk; files outside the journal are never touched |
| Closeout.ChangedFileStopsCleanup | scripts/finalize_grok_batch.py:977-985 | with one file that does not match its recorded hash no run finishes, every run with enough operations raises, and no listed content is ever destroyed |
| Closeout.ResumableExactlyWhenRecorded | scripts/finalize_grok_batch.py:895-901 | reruns never raise if and only if every planned file has a recorded hash |
| Closeout.UnrecordedHashStrands | scripts/finalize_grok_batch.py:897-900 | once the file behind an unrecorded hash has moved, every rerun raises without changing the disk |
| Closeout.RecordsStayTruthful | scripts/finalize_grok_batch.py:1019-1084 | at every crash point of any series of runs: no record is ahead of the one written before it (result, manifest, handoff, checkpoint) or of the journal; completed means every entry is deleted, quarantined that none is pending, and no entry has moved before checkpoint and handoff announce the closeout |
| Closeout.CompletedMeansGone | scripts/finalize_grok_batch.py:1067-1084 | while any record says completed, every listed source and quarantine path is absent |
| Closeout.RerunReopensJournal | scripts/finalize_grok_batch.py:989-990 | the one claim that does go back: a rerun of a finished closeout sets the journal's own status to quarantined again while the manifest still says completed |
| Closeout.JournalResumedExactly | scripts/finalize_grok_batch.py:937-955 | a journal is resumed if and only if schema, batch, accounts, artifact and every entry agree with the evidence; otherwise the commit raises with nothing written |
| Closeout.OnlyRecordedContentGoes | scripts/finalize_grok_batch.py:967-1010 | from any disk whatever, changed by others or not: a file that vanishes or is replaced is a listed one whose recorded content was there |
| Closeout.CommitKeeps | scripts/finalize_grok_batch.py:1013-1084 | one run to any crash point keeps the journal/disk invariant and never moves an entry backwards |
| Closeout.QuarantineStepKeeps | scripts/finalize_grok_batch.py:970-988 | each crash point inside moving one entry keeps the invariant |
| Closeout.PurgeStepKeeps | scripts/finalize_grok_batch.py:994-1007 | each crash point inside deleting one entry keeps the invariant |
| Closeout.QuarantineRunsThrough | scripts/finalize_grok_batch.py:967-990 | with genuine files the quarantine phase never raises and needs at most two operations per entry |
| Closeout.BatchDirectory.QuarantineEntries | scripts/finalize_grok_batch.py:967-990 | the in-place loop performs exactly the specified operations up to the crash |
| Closeout.BatchDirectory.PurgeQuarantine | scripts/finalize_grok_batch.py:993-1010 | likewise for the purge loop |
| Closeout.BatchDirectory.LoadOrCreateJournal | scripts/finalize_grok_batch.py:937-964 | an existing journal is used only when batch, accounts, artifact and entries match the evidence |
| Closeout.BatchDirectory.CommitCloseout | scripts/finalize_grok_batch.py:1013-1084 | the whole commit is the run the theorems are about, for every crash point |
| AccountMatching.MapSourcesToAccounts | scripts/finalize_grok_batch.py:392-441 | succeeds exactly when a one-to-one onto pairing of sources and usable rows exists, and returns its mappings sorted by account |
| AccountMatching.MatchingCounts | scripts/finalize_grok_batch.py:407-441 | on success there are as many mappings as sources and as rows, and no account twice |
| AccountMatching.MatchingIsOnto | scripts/finalize_grok_batch.py:418-441 | every row is the account of a mapping whose source has the row's email and subject identities |
| AccountMatching.MatchingIsTotal | scripts/finalize_grok_batch.py:409-438 | every source is mapped to a live row with its own identities, the row with its token if there is one and the only one with its identity otherwise; the two match flags compare the tokens |
| AccountMatching.RowForRowMatches | scripts/finalize_grok_batch.py:407-441 | sources that carry their own live rows' identities, with the rows' tokens or rotated ones and unambiguous identities, always match |
| AccountMatching.OrderOfSourcesIrrelevant | scripts/finalize_grok_batch.py:392-441 | every permutation of the sources succeeds or fails alike, and gives the same list |
| AccountMatching.IndexRows | scripts/finalize_grok_batch.py:395-406 | the two dictionaries are exact indexes, or a token is duplicated or a refresh token missing |
| AccountMatching.Resolve | scripts/finalize_grok_batch.py:410-417 | the row picked is the one with the source's token, or the only one with its identity |
| BridgeImport.ImportSession.Push | bridge/bridge.py:880-1087 | for every pattern of failures and rotations: from the snapshot until the test passes no grouped row holds the candidate's refresh token unless the snapshot's row did, no account of the snapshot is deleted and none but the push's own changes except by rotation, rejected pushes write nothing, a reported rollback is a real one, and an import was not stale and ends grouped and schedulable; when no call fails and nothing rotates, the probe, the test and the store alone decide the answer |
| BridgeImport.ImportSession.Rollback | bridge/bridge.py:621-631 | reported success means: a created row is gone or ungrouped and unschedulable; an updated row is the snapshot's again, credentials included, or, when rotations are preserved, the snapshot's with newer credentials of its own; credentials that were newer than the candidate are never replaced by older ones nor deleted; failure means a call failed or a rotation came in between |
| BridgeImport.ImportSession.Restore | bridge/bridge.py:634-660 | success means the row equals the snapshot's or differs only in credentials newer than the candidate; with rotations preserved, credentials issued later than the candidate are kept; without a failed call it succeeds |
| BridgeImport.ImportSession.WriteBack | bridge/bridge.py:646-660 | success means the row is exactly what was written: reading the same tokens back rules out a rotation in between |
| BridgeImport.ImportSession.Quarantine | bridge/bridge.py:605-618 | success means the row is out of every group and unschedulable |
| BridgeImport.ImportSession.DeleteAccount | bridge/bridge.py:597-602 | success means the account is gone; only accounts unknown to the snapshot may be deleted |
| BridgeImport.ImportSession.Promote | bridge/bridge.py:663-683 | success means the row is in the group and schedulable, with its credentials at most rotated |
| BridgeImport.ImportSession.WriteCandidate | bridge/bridge.py:952-990 | a successful write leaves the candidate ungrouped; a failed one, even after taking effect, is rolled back or reported as not |
| BridgeImport.ImportSession.VerifyAndPromote | bridge/bridge.py:993-1087 | the test sees only an ungrouped, unschedulable row, and every failure after it is rolled back; without a failed call the test alone decides |
| BridgeImport.ImportSession.FindSnapshot | bridge/bridge.py:288-318 | the account found is the only one that matches name, email or subject; none found means none matches; an ambiguous match is an error |
| AuthFreshness.StaleExactly | bridge/bridge.py:197-211 | for dated credentials a push is stale exactly when it neither keeps the refresh token nor raises the issue time |
| AuthFreshness.StaleUndated | bridge/bridge.py:197-211 | without two different refresh tokens nothing is stale; with them the same access token is, and an unreadable issue time is not |
| AuthFreshness.AdvancedExactly | bridge/bridge.py:241-250 | the advanced test holds exactly for another refresh token that is issued later, or that has a token version when an issue time is unreadable |
| AuthFreshness.SerializedFreshness | bridge/bridge.py:197-238 | in every interleaving of pushes, failed writes, rollbacks and rotations: a candidate is written only over credentials it was accepted against, so a dated one keeps the refresh token or is newer; a rollback writes the push's own snapshot or credentials advanced past its candidate; nothing else but a rotation changes an account |
| AuthFreshness.RotationSurvivesRollback | bridge/bridge.py:621-642 | a rotation that follows a push's candidate write is not undone by that push's preserving rollback |
| AuthFreshness.PreparesToKeep | bridge/bridge.py:621-642 | a preserving rollback that finds credentials issued later than the candidate writes those back, and leaves a created account that holds them |
| AuthFreshness.OnePushPerIdentity | bridge/bridge.py:223-238 | in every interleaving at most one push per identity is between its snapshot and its end |
| AuthFreshness.SuccessivePromotions | bridge/bridge.py:197-238 | of two successive promotions in any interleaving, the second read the account after the first was promoted and was accepted against what it read; it keeps the refresh token last promoted or raises the issue time whenever its refresh token is guarded |
| AuthFreshness.NeverGoesBackExactly | bridge/bridge.py:197-211 | all accepted candidates with a given refresh token keep or raise if and only if that token is the one last promoted, or it is not the stored one and the stored row is no older than the last promotion |
| AuthFreshness.UnguardedPushRuns | bridge/bridge.py:197-238 | wherever the guard fails and the lock is free, a push of that refresh token can run through to a promotion that goes back |
| AuthFreshness.UndisturbedPromotions | bridge/bridge.py:197-238 | in runs where nothing rotates and no failed push leaves its candidate stored, every two successive promotions keep or raise |
| AuthFreshness.RotationThenOldToken | bridge/bridge.py:203-204 | a run in which R1 issued at 10 is promoted, rotates to R2, and R2 issued at 5 is promoted next |
| AuthFreshness.LostRollbackThenOldToken | bridge/bridge.py:203-204 | the same without any rotation: a failed push leaves R2 stored, and R2 issued at 5 is promoted next |
| AuthFreshness.LockTable.AuthPushLock | bridge/bridge.py:214-220 | an identity always gets the same lock and no other identity's |
| LeasePool.ProxyPool.Acquire | xconsole_client/proxy_pool.py:114-137 | grants the first unsaturated node in cyclic order and advances past it; any failure, also of the cursor write, leaves counters, cursor and file unchanged; each error has its exact cause, no lease exactly when all nodes are saturated |
| LeasePool.ProxyPool.Release | xconsole_client/proxy_pool.py:199-206 | gives back one lease, or raises and changes nothing |
| LeasePool.NoStarvation | xconsole_client/proxy_pool.py:125-133 | between two grants of a node every other node was granted or found saturated, for every interleaving of acquires and releases |
| LeasePool.CursorTravels | xconsole_client/proxy_pool.py:125-133 | the cursor's movement telescopes over any run, up to whole laps |
| LeasePool.FreeNodeExists | xconsole_client/proxy_pool.py:91-93 | fewer leases out than the capacity means some node has one left |
| LeasePool.FullExactly | xconsole_client/proxy_pool.py:91-93 | within the limits, as many leases as the capacity are out exactly when every node is saturated |
| LeasePool.OutstandingChanges | xconsole_client/proxy_pool.py:131-132 | granting or releasing on one node changes the total by exactly that |
| LeasePool.CursorRoundTrip | xconsole_client/proxy_pool.py:158-184 | a written cursor is read back modulo the number of nodes |
| LeasePool.RotationStarts | xconsole_client/proxy_pool.py:158-179 | a missing file or an unknown name starts at node 0, a known name at its node, a file of another form is an error |
| LeasePool.FileRunIsMemoryRun | xconsole_client/proxy_pool.py:120-136 | a file-backed run is an in-memory run with the same grants |
| LeasePool.SharedFileRoundRobin | xconsole_client/proxy_pool.py:139-197 | processes sharing the file without saturation go round the nodes in one global order |
| BatchScheduler.RunBatch | scripts/register_and_import.py:1254-1291 | for every completion order and outcome of the attempts: registered plus failed equals attempts made, at most the count; all of them unless the breaker tripped, and then the unstarted rest is recorded |
| BatchScheduler.Accounting | scripts/register_and_import.py:1266-1285 | the window never exceeds the workers, the counters are what was popped, and the breaker is tripped exactly when some prefix ended in too many failures |
| BatchScheduler.NothingStartsAfterTrip | scripts/register_and_import.py:1276-1285 | after the breaker trips nothing is started, whatever completes afterwards |
| BatchScheduler.DrainedRun | scripts/register_and_import.py:1265-1288 | a drained run that did not trip finished exactly the requested count |
| BatchScheduler.LeasesNeverRunOut | scripts/register_and_import.py:1060-1062 | on a fresh pool with no more workers than capacity no schedule makes an acquire or release raise, wherever each scan starts (the cursor may be in a file that other processes move), and every counter is the number of leases held, within its limit |
| BatchScheduler.LeaseAvailable | scripts/register_and_import.py:1166-1168 | a running attempt without a lease finds one, from any cursor |
| BatchScheduler.EndKeeps | scripts/register_and_import.py:1250-1252 | the release in the finally block never raises and keeps the counters exact |
| PreimportProbes.RunPreimportAuthProbes | scripts/register_and_import.py:748-799 | for every answer of the files and every clock: at most ceil(W/I)+1 rounds for maximum wait W and interval I; each path is probed at least once and at most once a round, again only after an error, a 403 or a server failure; one result per path in order; the last answer is one to retry only if the wait is used up |
| PreimportProbes.ProbeRound | scripts/register_and_import.py:761-777 | one round probes exactly the pending names and keeps pending those whose answer is retryable |
| PreimportProbes.WaitForRetry | scripts/register_and_import.py:779-787 | goes on exactly with time left and a positive interval, after sleeping an interval or the rest of the wait |
| ImportResume.AccountStore.Import | scripts/register_and_import.py:1370-1434 | the helper is run exactly when the sources are sound and a token is missing, and is given exactly the missing tokens; how it ends and what it created decides how the run ends |
| ImportResume.ResolveExisting | scripts/register_and_import.py:488-508 | the token-to-account map, or an error exactly when a batch token has two accounts |
| ImportResume.NeverImportedTwice | scripts/register_and_import.py:1370-1434 | over any number of runs and wherever the helper stops, no batch token gains a second account or loses its first |
| ImportResume.CompletedImportIsBijection | scripts/register_and_import.py:1429-1434 | a run that passes the final check has its account IDs in bijection with the auth files |
| ImportResume.FullHelperCompletes | scripts/register_and_import.py:1380-1434 | a helper that creates its whole bundle and exits cleanly completes any interrupted import of sound sources |
| CredentialFiles.NeverLost | clients/windows/cpa/state.py:115-132 | a crash after any operation of a transition leaves at least one file for the identity |
| CredentialFiles.FinallyUnique | clients/windows/cpa/state.py:124-132 | a completed transition leaves one file across the three directories, the requested payload |
| CredentialFiles.TransitionAcceptedExactly | clients/windows/cpa/state.py:93-114 | a transition goes through exactly when the payload has an identity and its source is readable, has the expected fingerprint and has no strictly newer copy |
| CredentialFiles.ReplacesExactly | clients/windows/cpa/state.py:147-171 | the file is replaced exactly when it has the expected fingerprint, and nothing else changes |
| CredentialFiles.NewerCopySurvives | clients/windows/cpa/state.py:97-132 | in every interleaving of lock holders, any file an accepted sourced transition overwrites or unlinks, however late, is unchanged since the check under the lock, and is the source or no newer than it |
| CredentialFiles.TraceNeverLoses | clients/windows/cpa/state.py:43-171 | no reachable state of any interleaving of lock holders, crashes included, has lost an identity's file |
| CredentialFiles.FinishedTransitionIsUnique | clients/windows/cpa/state.py:82-132 | a transition finishing beside other identities' work leaves exactly the file it wrote |
| CredentialFiles.CredentialStore.Transition | clients/windows/cpa/state.py:82-132 | the disk shows exactly the part of the plan done before the crash |
| CredentialFiles.CredentialStore.ReplaceIfFingerprint | clients/windows/cpa/state.py:147-171 | compare and swap: replaces only the expected fingerprint, otherwise changes nothing |
| CredentialFiles.CredentialStore.DeleteIfFingerprint | clients/windows/cpa/state.py:135-144 | unlinks only the expected fingerprint, otherwise changes nothing |
| Reprobe.ProcessLocked | clients/windows/cpa_reprobe.py:88-265 | the branches, file moves and counters for every probe, refresh and push outcome |
| Reprobe.CheckpointSettles | clients/windows/cpa_reprobe.py:93-110 | what the checkpoint settles without a probe: terminal errors and finished or unknown pushes of the same credential |
| Reprobe.LastProbeIs | clients/windows/cpa_reprobe.py:112-124 | the probe acted upon is the first that is not a retryable retry, or the last allowed |
| Reprobe.NothingDecided | clients/windows/cpa_reprobe.py:112-144 | a raising or undecided probe, a raising refresh and a revoked token leave the files alone |
| Reprobe.PassOutcome | clients/windows/cpa_reprobe.py:146-188 | a passing credential is moved to the verified directory and counted as passed, with exactly one push class, or as an error when a newer copy exists |
| Reprobe.CooldownOutcome | clients/windows/cpa_reprobe.py:189-243 | an exhausted credential is moved to cooldown, or to verified when its push is accepted, and counted accordingly |
| Reprobe.PendingOutcome | clients/windows/cpa_reprobe.py:244-261 | any other decision moves the credential to pending and leaves a verified one where it is |
| Reprobe.ClassTellsDirectory | clients/windows/cpa_reprobe.py:88-265 | for every script the class an unverified path is counted in names the only directory its file is in afterwards |
| Reprobe.ProcessedOnce | clients/windows/cpa_reprobe.py:88-265 | each path is counted in one class, or as passed and error when its push raised after it had passed |
| Reprobe.ClassifiedTotal | clients/windows/cpa_reprobe.py:280-292 | over all workers in any order, classified equals scanned plus such lost pushes |
| Reprobe.TotalsAdd | clients/windows/cpa_reprobe.py:280-283 | each statistic is the sum of the counters of that name |
| Reprobe.Tally | clients/windows/cpa_reprobe.py:280-295 | the final check accepts exactly the runs without a lost push |
| Reprobe.VerifiedFileSafe | clients/windows/cpa_reprobe.py:88-265 | a verified file survives a whole run, for all outcomes and any order of the selected paths, if and only if none of them is an unverified duplicate of it that is still to be probed |
| Reprobe.DuplicateDisplacesVerified | clients/windows/cpa_reprobe.py:189-231 | the outcome by which processing a duplicate displaces the verified copy |
| Reprobe.ProcessNeverLoses | clients/windows/cpa_reprobe.py:88-265 | no outcome costs any identity its last file |
| Reprobe.SelectNewest | clients/windows/cpa_reprobe.py:58-75 | one path per identity, none of whose duplicates is newer |
| GrpcWeb.VarintRoundTrip | xconsole_client/grpcweb.py:85-94 | reading at the start of an encoded value gives the value and the next position, inside any bytes |
| GrpcWeb.VarintMinimal | xconsole_client/grpcweb.py:37-49 | nothing shorter reads as the value, and nothing else of the same length does |
| GrpcWeb.VarintReadable | xconsole_client/grpcweb.py:85-94 | reading succeeds exactly when some byte from there on ends the number |
| GrpcWeb.VarintDigits | xconsole_client/grpcweb.py:85-94 | each byte carries seven bits, lowest first, also in encodings that are not minimal |
| GrpcWeb.EncodeVarint | xconsole_client/grpcweb.py:37-49 | the loop writes the base-128 digits, or rejects a negative value |
| GrpcWeb.ScanVarint | xconsole_client/grpcweb.py:85-94 | the loop reads what the recursive reader reads |
| GrpcWeb.EncodeMessage | xconsole_client/grpcweb.py:70-79 | succeeds exactly for non-negative field numbers and writes the fields in order |
| GrpcWeb.StringMessageRoundTrip | xconsole_client/grpcweb.py:70-137 | decoding an encoded message gives the same printable strings in order |
| GrpcWeb.MessageRoundTrip | xconsole_client/grpcweb.py:52-137 | the same for every list of string, bytes and varint fields |
| GrpcWeb.PartsComeBack | xconsole_client/grpcweb.py:52-137 | numbers and unprintable bytes come back as they were written |
| GrpcWeb.MessageReadBack | xconsole_client/grpcweb.py:97-137 | an encoded message is read field by field, in order, wherever it stands |
| GrpcWeb.FixedReadBack | xconsole_client/grpcweb.py:113-134 | a fixed-width field is its eight or four bytes, or what is left of them |
| GrpcWeb.CutChunkReadBack | xconsole_client/grpcweb.py:118-128 | a chunk cut short by the end of the data is shown with its declared length |
| GrpcWeb.UnknownWireType | xconsole_client/grpcweb.py:135-136 | the four other wire types are refused |
| GrpcWeb.BadFieldRefused | xconsole_client/grpcweb.py:97-137 | one bad field refuses the message, whatever good fields precede it |
| GrpcWeb.DecodeMessage | xconsole_client/grpcweb.py:97-137 | the loop decodes what the specification decodes, on all input, with the same errors |
| GrpcWeb.FrameRequest | xconsole_client/grpcweb.py:143-145 | one data frame, or an error at 4 GiB |
| GrpcWeb.FramesReadBack | xconsole_client/grpcweb.py:156-160 | concatenated frames are split back into themselves, before whatever follows them |
| GrpcWeb.CutFrameReadBack | xconsole_client/grpcweb.py:156-160 | a last frame whose payload is cut short is read with what is there |
| GrpcWeb.ParseResponse | xconsole_client/grpcweb.py:148-170 | the loop interprets the frames of the body in order |
| GrpcWeb.HeaderTextReadBack | xconsole_client/grpcweb.py:161-165 | trailer lines are read back as the headers written |
| GrpcWeb.ResponseRoundTrip | xconsole_client/grpcweb.py:148-170 | any interleaving of message and trailer frames parses to the messages sent, in order, the merged headers, and the integer status they carry or none; a status that is no integer is the one error |

## Left out

- Signup, CAPTCHA, browser, page-scraping and TLS code, mailboxes and IMAP: third-party I/O without a closed property.
- HTTP, subprocess, SQL, HMAC, base64 and JSON internals: remote calls are nondeterministic, digests and parsed payloads are values.
- File modes, symbolic links, `fsync` and redaction: not part of the state claims.
- `live_probe_classifications` and the text rules that classify a probe: heuristics over error strings, an easy retry loop.
- Directory creation and removal around the quarantine, timestamps and the cleanup counts in the closeout's records.
- Configuration loading, command lines, the web console and the mailbox routes of the bridge.
- GrpcWeb.DecodeMessage: fixed32 and fixed64 fields are kept as raw chunks; their float and hex renderings are not modelled.
- GrpcWeb.TextCodec: `str.strip`, `str.lower`, `str.isprintable` and `int` are parameters, not Unicode tables.
- Closeout.CrashResumeConverges: temporary files a crash leaves beside an atomic write are not modelled.
- AccountMatching.MapSourcesToAccounts: which of several applicable errors is raised is not stated.
- BridgeImport.ImportSession.Push: the generic import failure says nothing about rollback, since a rollback may itself have raised; other writers than rotations are excluded.
- AuthFreshness.SerializedFreshness: rotations between a push's snapshot and its write are excluded, since the write overwrites them; so are two lock identities that reach one account.
- BatchScheduler.LeasesNeverRunOut: mailbox, manifest and registration work of an attempt is not modelled.
- Reprobe.ProcessLocked: checkpoint writes are taken not to fail, and a crash inside is covered by the credential-file lemmas only.
- ImportResume.AccountStore.Import: failing account queries and the backup before a reconciling import are not modelled; either makes the program raise.
- ImportResume.NeverImportedTwice: a token rotated between two runs looks missing to the next one; that case is excluded, not bounded.
- CredentialFiles.TraceNeverLoses: `delete_if_fingerprint` is meant to remove a file and is not among the interleaved steps.
