# Verification model of radio-gaga

A model in Dafny of the parts of radio-gaga where state, crashes or concurrency meet, with proofs about every input,
every run or every crash point. `dafny verify dfyconfig.toml` checks all of it.

**Ride-group v2 adapter** (`RideGroup*.dfy`). `RideGroupMachine` gives one function per locked handler of
`internal/ridegroup` and one event per call; a run is any sequence of events with any clock readings. The
`RideGroup*Effects` modules say, field by field and without the machine's functions, what each handler leaves behind and
when. `RideGroupAdapter` is the object itself, updated in place, each method proved to do what the machine says, and
`RideGroupRuns` drives it through any events. `RideGroupInvariants` holds what every step keeps; the other modules hold
the results about runs.
UUIDs are tokens, times are integer nanoseconds, the result of a UUID generation, the motion estimator's verdict on a fix
and the order of map iteration are arbitrary, and a consumed probe is one that is no longer in the table. The
authorisation check and the publish are one step.

**Transactional replace** (`Txn*.dfy`). The disk maps a live file's name and a role (live, staging, lkg) to an inode and
bytes; every operation is one durable step that may fail; all states since boot are recorded, and a crash leaves one of
them. Another writer may create the live configuration between any two operations of an install-only manager. The
history fields of an image record what recoveries left alone. The disk and the download cache also know whether any
operation has failed (`calm`), for what holds when none does.

**Self-update download** (`Download*.dfy`). The cache is a record and a payload; servers answer anything that respects
RFC 9110 for strong validators (sections 8.8.1, 13.1.5, 14.4 and 15.3.7), with one representation for each final URL,
entity tag and media type.

**Telemetry deltas** (`Telemetry{Json,Delta,Sender}.dfy`), **journal export format and upload loop** (`Journal*.dfy`),
**JSON escapes** (`Json*.dfy`), **label fitting** (`LabelFit.dfy`), **event buffer** (`EventBuffer.dfy`) and **change
monitor** (`TelemetryMonitor.dfy`) follow their source files; the loops there are loops here.

Where the code falls short of what its comments promise, the model follows the code, and a lemma says when:

- A recovery ignores some errors (an unreadable snapshot, a live file that cannot be deleted, a failed Lstat) and still
  drops the marker, and the boot manager knows no binary path (`SwappedBinaryStays`), although the package promises a
  rollback on boot. `RecoverOnBoot` and `BootWithoutBinary` say exactly when that is harmless.
- A grant handler reads the clock twice, so a lease can outlast challenge plus TTL by the time between the readings.
- A journal stream cut at three places inside a binary field ends the upload silently, although the decoder is meant to
  return io.EOF only between records.
- A delta message always carries version 2, whatever the tree holds.
- A delivered publish that was reported as failed leaves the mirror different from what the sender believes it holds,
  until a full snapshot or a delta that repairs it (`DeltaRepairs`); deltas for the unchanged tree never do.
- A peer dropped from the roster and listed again may have a position published twice (`PositionRepeats`);
  `StrictExactlyWhenClean` says exactly from which states this can happen.

## Model

| member | source | states |
|---|---|---|
| RideGroupSafety.NoPositionWithoutFreshConsent | internal/ridegroup/protocol_v2_adapter.go:188-291 | In every run, a position published after evidence of a stop was queued after a grant that followed an accepted idle, unblocked snapshot answering a probe issued no earlier than the evidence |
| RideGroupSafety.EvidenceShuts | internal/ridegroup/protocol_v2_adapter.go:188-291 | Settings becoming or having been blocked, a lost or new connection, a fail-closed restart, or a stopping, conflicting or rejected snapshot leaves no grant, no journal readiness, only outdated positions and only probes minted by that very step |
| RideGroupInvariants.StepKeeps | internal/ridegroup/protocol_v2_adapter.go:118-165 | Every step keeps at most one outstanding probe, bound to the current connection and IPC epoch and to the pending query if it confirms, and moves each fence only forward and only by the events allowed to move it |
| RideGroupStops.AppliesOnlyConfirmedStop | internal/ridegroup/protocol_v2_adapter.go:494-548 | An apply-mode stop is queued only after a prepared snapshot, a not_found answer to exactly its query and a re-read of the identical record through the probe that answer issued, before the query deadline and within one connection and IPC epoch |
| RideGroupAuthority.GrantsNeverGoBack | internal/ridegroup/protocol_v2_adapter.go:362-392 | Successive accepted grants of one session on one connection never decrease in transport epoch, revision or consent generation, and an equal epoch keeps the stream, whatever expired in between |
| RideGroupAuthority.ClearForcesNewEpoch | internal/ridegroup/protocol_v2_adapter.go:362-385 | After a clear revokes a live grant, the next accepted grant of that session has a strictly larger transport epoch |
| RideGroupAuthority.LeaseEndsWithChallenge | internal/ridegroup/protocol_v2_adapter.go:394-432 | The lease in force ends exactly at challenge acceptance plus the server TTL (at most 10 s) plus the time between the two clock readings of the accepting handler, so it respects the bound exactly when the second reading is not later |
| RideGroupAuthority.ForwardedGrantWithinLease | internal/ridegroup/ipc_v2.go:20-52 | A grant forwarded over Redis is the one the adapter holds, and its TTL, truncated to milliseconds, ends within the adapter's own lease however long it was queued |
| RideGroupPeers.ForwardedNeverGoBack | internal/ridegroup/protocol_v2_adapter.go:550-569 | While a peer stays on the roster, in any run and from any state of it, a later published position has a later peer epoch, or a later sequence and capture time on the one stream of the epoch, or is the very same position |
| RideGroupPeers.StrictExactlyWhenClean | internal/ridegroup/protocol_v2_adapter.go:550-569 | For every invariant state whose copies of the peer under way are deliverable: every continuation that keeps the peer on the roster publishes its positions in strictly increasing order exactly when none of those copies would be accepted once more and at most one is the position the replay entry names |
| RideGroupPeers.CleanIsStrict | internal/ridegroup/protocol_v2_adapter.go:550-569 | The sufficient half needs no deliverability: from any such clean state the published positions strictly increase |
| RideGroupPeers.ForwardedPositionsIncrease | internal/ridegroup/protocol_v2_adapter.go:550-569 | The same inside a run, from any of its states that is clean |
| RideGroupPeers.FirstPositionClean | internal/ridegroup/protocol_v2_adapter.go:550-569 | The first position accepted from a peer of which nothing is under way leaves a clean state |
| RideGroupRepeat.PositionRepeats | internal/ridegroup/ipc_v2.go:54-66 | A run from a new adapter (connect, settings, journal, ride; then grant, position, renewal without its peer, grant with it, the same position) in which the position is published twice while the peer is on the roster |
| RideGroupPeers.NoPositionAfterClosing | internal/ridegroup/protocol_v2_adapter.go:571-594 | After a status of a peer epoch is accepted, only positions of a later epoch of that peer are published |
| RideGroupRuns.Drive | internal/ridegroup/protocol_v2_adapter.go:118-621 | A new adapter object driven through any sequence of events passes through a run of the machine, so every result about runs holds of it |
| RideGroupRuns.Perform | internal/ridegroup/protocol_v2_adapter.go:118-621 | Each event takes the object to the machine's next state, with the choices of map iteration filled in |
| RideGroupEffects.GpsDoes | internal/ridegroup/gps_v2.go:8-70 | Every GPS message: a newer, good fix at most 5 s old on an open source queues its sample, at most 5 s old, under the current grant of the active rider once the cadence has elapsed, with the next sequence number, and nothing else queues a position; a lost fix closes the source and drops waiting positions; a fix on a closed source is announced once and the announcement repeated |
| RideGroupEffects.CloseEffect | internal/ridegroup/gps_v2.go:72-83 | Closing the source queues a no_fix status under the next sequence number unless one was the last word, which is then repeated when due |
| RideGroupJournalEffects.AnswerDoes | internal/ridegroup/protocol_v2_adapter.go:494-532 | A live stop answer uses up its attempt and tells the journal its own verdict, fence and consent, not_found to a pending query asks for a re-read, an answer to an apply ends the query, and one whose record has moved on or whose commit misses the fence inhibits the journal and tells nothing |
| RideGroupJournalEffects.ProbeDoes | internal/ridegroup/protocol_v2_adapter.go:118-165 | A probe goes out exactly when ready and connected, with none alive and fewer than ten in ten seconds, and is then the only one |
| RideGroupJournalEffects.AskDoes | internal/ridegroup/protocol_v2_adapter.go:460-492 | A stop request goes out exactly for the recorded operation with none alive, and in apply mode the recorded fence of a prepared record, until its deadline and at most 10 s |
| RideGroupJournalEffects.SnapshotDoes | internal/ridegroup/protocol_v2_adapter.go:188-265 | Every journal snapshot: what is ignored, what inhibits and asks again, and what an accepted one of each phase calls for |
| RideGroupAuthorityEffects.RiderDoes | internal/ridegroup/protocol_v2_adapter.go:299-335 | Exactly a new, well-formed activity of the running session, at most one active per second, is recorded, greeted with its challenge and passed on |
| RideGroupAuthorityEffects.GrantDoes | internal/ridegroup/protocol_v2_adapter.go:383-433 | Exactly a grant that answers a live challenge and goes back in nothing is held, for what is left of the challenge's lease, with a new stream numbered from the start, the roster cut to its peers and a closed source told so; it is passed on over Redis |
| RideGroupAuthorityEffects.ControlDoes | internal/ridegroup/protocol_v2_adapter.go:343-381 | Every control, by its action |
| RideGroupAuthorityEffects.PeerDoes | internal/ridegroup/protocol_v2_adapter.go:550-569 | Exactly a position for the current grant, of a listed peer and newer than its replay entry, becomes the entry and is queued for one second |
| RideGroupAuthorityEffects.PeerStatusDoes | internal/ridegroup/protocol_v2_adapter.go:571-598 | Exactly a status of a listed peer that goes back in nothing closes its epoch and is queued |
| RideGroupLinkEffects.ConnectDoes | internal/ridegroup/adapter.go:184-223 | Only the current connect attempt, once subscribed, starts a connection, with nothing known, a hello and a journal probe if one may go out |
| RideGroupLinkEffects.DisconnectDoes | internal/ridegroup/adapter.go:225-238 | A drop supersedes a running attempt and ends the current connection with everything known on it |
| RideGroupLinkEffects.SettingsDo | internal/ridegroup/adapter.go:430-453 | The first settings greet the server, and settings that are or were blocked inhibit the journal and ask again |
| RideGroupLinkEffects.TickDoes | internal/ridegroup/protocol_v2_adapter.go:600-621 | The timer forgets exactly what has run out and repeats a status that is due |
| RideGroupEgressEffects.PublishedExactly | internal/ridegroup/egress.go:122-241 | A taken publication reaches the broker exactly when client, connection, expiry and the written-out condition of its content hold |
| RideGroupEgressEffects.FinalExactly | internal/ridegroup/ipc_v2.go:6-81 | A queued Redis message goes out exactly when the written-out condition of its kind holds, a grant with the whole milliseconds left of it and of the lease, a position with its waiting time deducted |
| RideGroupEgressEffects.GrantEndsInLease | internal/ridegroup/ipc_v2.go:20-52 | The forwarded TTL ends within the lease and what was granted, and less than a millisecond before the sooner of the two |
| RideGroupAdapter.Adapter.QueuePublication | internal/ridegroup/egress.go:78-107 | A publication replaces the pending one of its kind under a fresh order number, stamped with client and connection |
| RideGroupAdapter.Adapter.QueueRedisPublication | internal/ridegroup/egress.go:270-289 | The Redis queue keeps its order and loses its oldest entry when full |
| RideGroupAdapter.Adapter.InhibitJournal | internal/ridegroup/protocol_v2_adapter.go:279-291 | Inhibiting forgets activity, challenges, permit, query, probes, attempts and grant, raises the IPC epoch and outdates waiting positions |
| RideGroupAdapter.Adapter.Reset | internal/ridegroup/adapter.go:240-263 | A connection reset forgets all authority and its history, the journal state and every waiting position |
| RideGroupAdapter.Adapter.CloseOnFailure | internal/ridegroup/adapter.go:928-948 | Failing closed forgets settings readiness, the journal state, activity and grant |
| RideGroupAdapter.Adapter.IssueLocalProbe | internal/ridegroup/protocol_v2_adapter.go:118-165 | A probe is issued exactly when it may be; it is then the only one, bound to connection and IPC epoch, and one for a query carries it and ends no later |
| RideGroupAdapter.Adapter.HandleLocalStopSnapshot | internal/ridegroup/protocol_v2_adapter.go:188-251 | The object ends as the snapshot calls for, by outcome and phase |
| RideGroupAdapter.Adapter.ConsumeProbe | internal/ridegroup/protocol_v2_adapter.go:267-277 | Takes the object where the machine's handler says: the answered probe is deleted and remembered, and an arbitrary entry goes once more than ten are remembered |
| RideGroupAdapter.Adapter.SendStopRequest | internal/ridegroup/protocol_v2_adapter.go:460-492 | A stop is sent exactly when it may be asked: for the recorded operation, one at a time, and in apply mode with the recorded fence of a prepared record |
| RideGroupAdapter.Adapter.FinalizeApplyConfirmation | internal/ridegroup/protocol_v2_adapter.go:539-548 | A snapshot that does not confirm drops the query; one that does queues the apply stop for exactly that operation and fence and drops the query, or keeps it when the stop cannot be sent |
| RideGroupAdapter.Adapter.AcceptActivity | internal/ridegroup/protocol_v2_adapter.go:299-335 | An accepted activity replaces the rider state, ends the grant when inactive, adds its challenge and is greeted and passed on |
| RideGroupAdapter.Adapter.PruneChallenges | internal/ridegroup/adapter.go:875-891 | Pruning drops every expired challenge and then only the oldest, leaving fewer than ten |
| RideGroupAdapter.Adapter.HandleControlMessage | internal/ridegroup/protocol_v2_adapter.go:343-366 | The object ends as the control calls for, by its action |
| RideGroupAdapter.Adapter.HandleClearMessage | internal/ridegroup/protocol_v2_adapter.go:362-379 | A clear that continues the held grant ends it, is remembered, ends the rider activity and is passed on; one that does not changes nothing |
| RideGroupAdapter.Adapter.HandleGrantMessage | internal/ridegroup/protocol_v2_adapter.go:383-433 | The held grant becomes the control exactly when the acceptance test holds, with the lease, stream, roster and forwarding this brings |
| RideGroupAdapter.Adapter.SetPeerReplayScope | internal/ridegroup/adapter.go:893-911 | A new session empties the replay table, and a roster change keeps exactly the entries of the peers still on it |
| RideGroupAdapter.Adapter.MaybeSendOffer | internal/ridegroup/protocol_v2_adapter.go:445-458 | An offer uses up its permit and answers the control's challenge; without a permit nothing changes |
| RideGroupAdapter.Adapter.HandleStopStatusMessage | internal/ridegroup/protocol_v2_adapter.go:494-532 | The object ends as the answer calls for: verdict told once as given, re-read, query ended, or journal inhibited |
| RideGroupAdapter.Adapter.HandlePeerMessage | internal/ridegroup/protocol_v2_adapter.go:550-569 | Exactly a position newer than the replay entry of a listed peer is queued and becomes the entry; any other changes nothing |
| RideGroupAdapter.Adapter.HandlePeerStatusMessage | internal/ridegroup/protocol_v2_adapter.go:571-594 | An accepted status closes the peer's epoch; any other changes nothing |
| RideGroupAdapter.Adapter.PublishSourceStatus | internal/ridegroup/gps_v2.go:116-133 | A status that can be sent is queued, becomes the last one, takes its sequence number and is due again in 3 s; any other changes nothing |
| RideGroupAdapter.Adapter.ReportSourceStatus | internal/ridegroup/gps_v2.go:95-114 | A source status is reported only under a current, complete grant of the rider and for a fresh fix; otherwise nothing changes |
| RideGroupAdapter.Adapter.RetrySourceStatus | internal/ridegroup/gps_v2.go:135-154 | The last status is queued again exactly when due and still current |
| RideGroupAdapter.Adapter.CloseSourceFix | internal/ridegroup/gps_v2.go:72-83 | The source is closed, waiting positions are dropped and no_fix is reported once, then repeated when due |
| RideGroupAdapter.Adapter.HandleGpsMessage | internal/ridegroup/gps_v2.go:8-70 | The object ends as the fix calls for: position queued, source closed, fix announced, waiting positions dropped, or nothing |
| RideGroupAdapter.Adapter.BeginConnect | internal/ridegroup/adapter.go:172-182 | A connect attempt starts unless this client is connected or another attempt runs |
| RideGroupAdapter.Adapter.FinishConnect | internal/ridegroup/adapter.go:184-223 | A superseded attempt changes nothing; a subscribed one starts a connection with nothing known, a hello and a probe |
| RideGroupAdapter.Adapter.OnDisconnected | internal/ridegroup/adapter.go:225-238 | A drop supersedes the running attempt and ends the current connection |
| RideGroupAdapter.Adapter.RefreshSettings | internal/ridegroup/adapter.go:430-453 | Settings that are or were blocked inhibit the journal and ask again; the first ones greet the server |
| RideGroupAdapter.Adapter.ExpireAll | internal/ridegroup/protocol_v2_adapter.go:600-621 | Exactly expired activity, lease, probes and attempts are forgotten, and a due status is repeated |
| RideGroupAdapter.Adapter.TakePublication | internal/ridegroup/egress.go:188-203 | The worker takes the pending publication with the smallest order number, and none exactly when none is pending |
| RideGroupAdapter.Adapter.SendPublication | internal/ridegroup/egress.go:122-241 | A taken publication reaches the broker exactly when client, connection and expiry still hold and its content is still true |
| RideGroupAdapter.Adapter.SendRedis | internal/ridegroup/ipc_v2.go:6-81 | The queued message goes out if and only if it is entitled, in exactly the entitled form |
| TxnOrdeal.Ordeal | internal/txn/manager.go:93-482 | For every crash point of Run, any number of crashes in recovery and any binary path of the boot manager: a completed recovery leaves all swapped files new exactly when the committed marker was written and otherwise old, where a file stays the candidate only if recovery passed over an error for it or does not know its path; with neither it settles the transaction. Another writer's file is never removed or replaced, a candidate the probe did not accept is never decided, and when nothing fails an accepted one goes live |
| TxnOrdeal.BootWithoutBinary | cmd/radio-gaga/main.go:231-238 | A boot manager with another binary path, or none, leaves the binary as it was, and when it completes without passing over an error the transaction is settled exactly when the kind swaps no binary or the binary had not been swapped |
| TxnOrdeal.SwappedBinaryStays | cmd/radio-gaga/main.go:231-238 | Recovering a crash after the binary's rename with the manager the boot path builds leaves the undecided candidate live whenever it completes |
| TxnManager.Manager.Run | internal/txn/manager.go:93-284 | Every durable state of a run is recoverable; success means the decision is durable, and an error after the swap leaves the marker inflight over new files. Without an accepting probe nothing is ever decided and the live files stay old; when no operation fails the result is exactly what arguments, disk and probe call for, with nothing left beside the live files |
| TxnManager.Manager.ClearLeftovers | internal/txn/manager.go:126-142 | Leftover siblings are removed first, and an error stops the run |
| TxnManager.Manager.SnapshotLkg | internal/txn/manager.go:325-340 | A side without a live file is noted as such, and otherwise the snapshot holds the live bytes |
| TxnManager.Manager.WriteFileSync | internal/txn/manager.go:527-555 | A staged file appears whole or not at all |
| TxnManager.Manager.CopyFile | internal/txn/manager.go:494-523 | A snapshot is written in place, through partial contents, only while there is no marker, and touches no other name |
| TxnManager.Manager.MarkInflight | internal/txn/manager.go:195-215 | The inflight marker appears only over old files with snapshots and candidates in place |
| TxnManager.Manager.Abandon | internal/txn/manager.go:223-230 | A failed probe removes siblings and marker with the live files untouched |
| TxnManager.Manager.SwapByRename | internal/txn/manager.go:233-255 | The commit rename brings in the candidate and stays undoable |
| TxnManager.Manager.InstallByLink | internal/txn/manager.go:243-251 | A first configuration is linked only where there is no file, and otherwise withdrawn |
| TxnManager.Manager.Finish | internal/txn/manager.go:257-284 | The committed marker is the decision; cleanup after it changes no live file |
| TxnManager.Manager.RecoverOnBoot | internal/txn/manager.go:385-442 | The decision never changes; with no or a committed marker no live file changes; a completed rollback leaves alone exactly what an error or an unknown path kept it from restoring, and settles the transaction if and only if each such file had not been swapped; when no operation fails it completes, passes over nothing and leaves no candidate behind |
| TxnManager.Manager.RollbackOne | internal/txn/manager.go:447-464 | One side is restored, or left exactly as it was when its snapshot is unreadable or its file cannot be deleted |
| TxnManager.Manager.UndoInstall | internal/txn/manager.go:419-425 | The linked configuration is removed by inode identity and another writer's is not |
| TxnManager.Manager.CleanOrphans | internal/txn/manager.go:468-482 | Without a marker only sibling files go |
| Download.Cache.Lifetime | internal/handlers/self_update_download.go:109-326 | Over any downloads, retries, changed representations and crashes, every durable state of the cache is sound |
| Download.Cache.Fulfil | internal/handlers/self_update_download.go:109-191 | A returned binary has the requested digest and size, the cache is sound at every durable step, and after an attempt to be retried there is another unless the download is cancelled, the attempts are used up, or the budget or the wait before the next runs out |
| Download.Cache.LoadState | internal/handlers/self_update_download.go:125-141 | The cached state is used exactly if it is for this request, at most a week old and of a size that fits, and otherwise cleared, when no file operation fails |
| Download.Cache.Attempt | internal/handlers/self_update_download.go:193-275 | One attempt leaves a sound cache. A 408, 425, 429 or 5xx other than 501 and 505 leaves cache and record alone and is retried exactly for a wait of at most five minutes; any other answer without a usable body leaves them alone and is not retried; when no file operation fails, a body that broke off or is too short is kept with its record and retried, and a complete one is the answer exactly if it passes the checksum |
| Download.Cache.Unsatisfiable | internal/handlers/self_update_download.go:235-245 | A 416 answer completes the download exactly if it names the stored size and representation and the payload passes the checksum, and otherwise clears the cache for a fresh start |
| Download.Cache.Receive | internal/handlers/self_update_download.go:276-326 | Stored bytes stay a prefix of the representation the record names; too long a body is dropped, a broken or short one kept, a complete one verified |
| Download.Cache.Reset | internal/handlers/self_update_download.go:219-228 | The record is removed before the payload, so no record is ever without one |
| Download.Cache.CopyBody | internal/handlers/self_update_download.go:295-304 | Every state of a growing payload is the old bytes followed by a prefix of the body |
| Download.Cache.RangeExtends | internal/handlers/self_update_download.go:259-264 | A true range that starts where the payload ends extends it within the representation |
| Download.Cache.Extend | internal/handlers/self_update_download.go:251-264 | A 206 answer is appended exactly if it continues what is stored of the same representation, and otherwise everything starts over |
| DownloadHeaders.StrongUpdateETag | internal/handlers/self_update_download.go:341-351 | The scan decides exactly the strong entity tags |
| DownloadHeaders.StrongIff | internal/handlers/self_update_download.go:341-351 | Strong entity tags are exactly the quoted etagc strings of RFC 9110, section 8.8.3 |
| DownloadHeaders.ParseContentRange | internal/handlers/self_update_download.go:353-377 | A parsed range satisfies start <= end < total within the size limit |
| DownloadHeaders.ContentRangeRoundTrip | internal/handlers/self_update_download.go:353-377 | Every range in the form of RFC 9110, section 14.4, is read back exactly |
| DownloadHeaders.CapKeepsImpatience | internal/handlers/self_update_download.go:379-390 | Capping a Retry-After delay never hides that it exceeds the five minutes the caller accepts |
| DownloadHeaders.DelayExact | internal/handlers/self_update_download.go:379-390 | Up to five minutes the delay is exactly the one asked for, and beyond that it stays beyond |
| DownloadHeaders.SecondsRead | internal/handlers/self_update_download.go:379-390 | A plain number of seconds up to 300 is read exactly |
| TelemetryDelta.PatchYieldsCurrent | internal/client/telemetry_delta.go:36-66 | Deep-merging the delta into prev and removing the cleared paths yields exactly curr, for all trees |
| TelemetryDelta.DeltaDiffers | internal/client/telemetry_delta.go:42-60 | Every path present in the delta leads to different values in prev and curr |
| TelemetryDelta.NoChangeNoDelta | internal/client/telemetry_delta.go:42-66 | Equal trees have an empty delta and nothing cleared |
| TelemetryDelta.SplitOfJoin | internal/client/telemetry_delta.go:68-73 | A dotted path of plain keys is split back into the same keys |
| TelemetryDelta.DiffMap | internal/client/telemetry_delta.go:42-66 | Visiting keys in any order computes the delta, and appends exactly the cleared paths in dotted form |
| TelemetryJson.RemoveAllIsPrune | internal/client/telemetry_delta.go:33-35 | Removing cleared paths one after another depends only on which paths they are |
| TelemetrySender.EnvelopeExact | internal/client/telemetry_delta.go:167-176 | A delta message brings a mirror of prev to curr exactly when the version it insists on is curr's own or the key was dropped |
| TelemetrySender.Sender.PublishSmart | internal/client/telemetry_delta.go:121-161 | An acknowledged send is a full snapshot, which restores the mirror, exactly when forced, first, after 20 deltas or on a changed vehicle state; otherwise it is the delta, which restores the mirror exactly when it repairs it. The mirror equals what was sent last unless a failed publish was delivered |
| TelemetrySender.Session | internal/client/telemetry_delta.go:118-161 | Over any run without delivered failures the mirror equals lastSentMap |
| TelemetrySender.DeltaRepairs | internal/client/telemetry_delta.go:121-176 | Whatever tree the other side holds, the delta from prev to curr brings it to curr if and only if every key at which it differs is carried, with nothing left behind below it, or cleared |
| TelemetryDelta.PatchedExactly | internal/client/telemetry_delta.go:36-66 | The same for bare trees: merging the delta into any tree and removing the cleared paths gives curr exactly when the tree is repaired |
| TelemetrySender.DeliveredFailureLingers | internal/client/telemetry_delta.go:153-160 | A delta applied although its publish failed is not undone by deltas for the unchanged tree |
| TelemetrySender.ChangedLeafRepairs | internal/client/telemetry_delta.go:153-160 | A later change of the same leaf undoes it without a full snapshot |
| JournalFormat.StreamRoundTrip | internal/journalupload/journalctl_reader.go:198-239 | Draining any concatenation of encoded records returns them in order without an error |
| JournalFormat.TruncationYieldsPrefix | internal/journalupload/journalctl_reader.go:168-239 | Any truncation yields a prefix of the records, and no error exactly when the cut is between records or right after a binary field's name line, length or value |
| JournalFormat.UnreportedTruncation | internal/journalupload/journalctl_reader.go:222-236 | A stream cut after a binary field's length ends without an error although a record is missing |
| JournalFormat.FieldDecodes | internal/journalupload/journalctl_reader.go:211-237 | Reading consumes exactly one encoded field, text or binary |
| JournalFormat.LittleEndianRoundTrip | internal/journalupload/encoder.go:21-22 | A length below the width's capacity is read back from its little-endian bytes |
| JournalStream.ScanForControl | internal/journalupload/encoder.go:42-53 | The scan finds exactly the values with a control byte other than tab |
| JournalStream.Buffer.WriteRecord | internal/journalupload/encoder.go:15-40 | A map is written as its fields, each once, in some order, and a blank line |
| JournalStream.RecordRoundTrip | internal/journalupload/encoder.go:15-40 | A record written in any field order is read back as the same map |
| JournalStream.Reader.DecodeRecord | internal/journalupload/journalctl_reader.go:198-239 | The reading loop returns the next record or the way the stream failed, and consumes no more |
| JournalStream.Reader.DrainAll | internal/journalupload/journalctl_reader.go:168-181 | The drain loop delivers the records until the stream ends and reports only errors that do not wrap io.EOF |
| JournalUpload.Uploader.Run | internal/journalupload/manager.go:84-152 | Acknowledged batches followed by the buffer equal the synthetic record and the encodings of all entries read, in order, the written cursor names an acknowledged entry, and the loop ends early only when cancelled, on a reader error or after an upload found the session invalid |
| JournalUpload.Uploader.Flush | internal/journalupload/manager.go:91-109 | A non-empty batch is uploaded whole, once; a failed upload keeps it, an accepted one acknowledges it before its cursor may be written, an invalid session ends the run and forgets the cursor |
| JournalUpload.Uploader.TakeEntry | internal/journalupload/manager.go:131-151 | An entry joins the batch, and the grown batch is uploaded exactly when it is large enough or due |
| JsonCanon.Canonical | internal/ridegroup/protocol_v2.go:765-892 | For every text the scalar checker accepts, canonicalizing keeps its meaning, is idempotent, never lengthens it, leaves none of the five escapes and is accepted again |
| JsonCanon.ValidJSONScalars | internal/ridegroup/protocol_v2.go:765-821 | The checker accepts exactly UTF-8 texts with closed strings, no control bytes and no broken or unpaired escape |
| JsonCanon.AcceptsReadable | internal/ridegroup/protocol_v2.go:765-821 | What the checker lets through is exactly what can be read: no raw control byte, broken escape, half pair or missing end |
| JsonCanon.CanonicalizeEscapes | internal/ridegroup/protocol_v2.go:843-892 | The loop computes the canonical form |
| JsonEscapes.ReadHex4 | internal/ridegroup/protocol_v2.go:822-841 | Four hexadecimal digits give their value, anything else none |
| JsonCanon.EscapesStay | internal/ridegroup/protocol_v2.go:843-892 | Every two-byte escape of an accepted text, an escaped backslash before the letters of an escape included, is in the canonical text at the same place of the same meaning, and there are no others |
| LabelFit.FitLabels | internal/ridegroup/protocol_v2.go:598-638 | Fitting fails exactly when empty labels do not fit, and otherwise yields prefixes within all limits, maximal, and stopped only where the next rune did not fit in turn |
| LabelFit.StoppedForGood | internal/ridegroup/protocol_v2.go:620-630 | A rune that did not fit at its turn does not fit in the result either |
| LabelFit.FittedIsUnique | internal/ridegroup/protocol_v2.go:608-637 | There is exactly one such filling |
| LabelFit.JsonStringContentBytes | internal/ridegroup/protocol.go:354-369 | The loop adds up the encoded bytes of the runes |
| EventBuffer.NothingLostOrRepeated | internal/events/buffer.go:38-133 | In every interleaving there is one flusher, every added event is exactly one of pending, sent or discarded, pending events keep insertion order, and none is tried more than maxRetries times |
| EventBuffer.RequestHonoured | internal/events/buffer.go:55-75 | A flush requested during a flush is followed by another batch or an empty buffer |
| EventBuffer.SentExactly | internal/events/buffer.go:93-123 | In every run an event is sent exactly when the sender accepted it, and its attempts are the times the sender was asked |
| EventBuffer.StepKeeps | internal/events/buffer.go:38-133 | Every section keeps the accounts and the flusher's copy a prefix of the buffer |
| EventBuffer.CopyStaysInBuffer | internal/events/buffer.go:128-132 | In every run the slice after a batch is in range, as the copy is still the beginning of the buffer |
| EventBuffer.Buffer.AddEvent | internal/events/buffer.go:39-52 | Add appends |
| EventBuffer.Buffer.EnterFlush | internal/events/buffer.go:55-65 | A second flush only leaves a request |
| EventBuffer.Buffer.BeginBatch | internal/events/buffer.go:77-87 | A batch copies the buffer |
| EventBuffer.Buffer.SendOne | internal/events/buffer.go:93-123 | An exhausted event is discarded, a sent one leaves, a failed one counts another attempt |
| EventBuffer.Buffer.EndBatch | internal/events/buffer.go:128-132 | Failed events go back before what was added meanwhile |
| EventBuffer.Buffer.CheckAgain | internal/events/buffer.go:68-73 | The flush ends unless one was requested and there is something to send |
| TelemetryMonitor.PublishedChangesAreFlushed | internal/redisbus/bus.go:114-159 | In every run, once the clock is past debounce time plus a priority's deadline after a publish, the hash was read within the debounce time, and every field of that priority the reading showed to differ is in a flush recorded after the reading and within debounce plus deadline of the publish |
| TelemetryMonitor.ChangeIsFlushed | internal/telemetry/monitor.go:113-199 | In every run, a change found at a step is in a flush recorded after it and within its priority's deadline, once the clock is past that |
| TelemetryMonitor.PublishIsRead | internal/redisbus/bus.go:114-136 | A publish is followed, within the debounce time, by a reading of its hash |
| TelemetryMonitor.TimersMatchPending | internal/telemetry/monitor.go:113-243 | In every reachable state a timer is referenced exactly where changes are pending, and no pending change is past its deadline |
| TelemetryMonitor.FlushedOnTheDot | internal/telemetry/monitor.go:137-154 | In every run a timer that is referred to fires exactly when the first of its changes has waited for its deadline, so later changes neither delay nor hasten it |
| TelemetryMonitor.ReadingDetects | internal/telemetry/monitor.go:113-135 | A reading changes what is known of exactly the fields whose rounded value is not the known one |
| TelemetryMonitor.FireKeeps | internal/telemetry/monitor.go:152-199 | Even a callback of a timer nobody refers to leaves a timer referenced exactly where changes are pending |
| TelemetryMonitor.NoteKeeps | internal/telemetry/monitor.go:137-149 | A change joins a running deadline timer or starts one in time |
| TelemetryMonitor.FlushKeeps | internal/telemetry/monitor.go:201-243 | A manual flush leaves nothing pending and no timer referenced |
| TelemetryMonitor.Pipeline.HandleFieldChange | internal/telemetry/monitor.go:113-150 | Exactly a field whose value differs from the last one becomes pending |
| TelemetryMonitor.Pipeline.FireTimer | internal/telemetry/monitor.go:152-199 | A timer flushes everything pending at once |
| TelemetryMonitor.Pipeline.FlushAllPending | internal/telemetry/monitor.go:201-243 | Everything pending is flushed at once |
| TelemetryMonitor.Pipeline.Dispatch | internal/redisbus/bus.go:114-136 | A publish joins the open window of its hash or opens one due after the debounce time, and touches nothing else |
| TelemetryMonitor.Pipeline.FireWindow | internal/redisbus/bus.go:126-159 | After a window fires with the hash readable, none of its fields counts as a change any more |

## Left out

- RideGroupPeers.StrictExactlyWhenClean: the necessary half is for states whose copies of the peer under way can still go out at some clock reading; what becomes of others depends on later grants.
- TxnOrdeal.Ordeal: boot and run share the configuration path.
- TxnManager.Manager.WriteFileSync: temporary files under unique names and file modes are not part of the disk, nor are symbolic links.
- TxnManager.Manager.Run: the paths handed to the probe, the deadline and the timestamps in the marker are not modelled; the probe answers anything.
- Download.Cache.Fulfil: the watchdog and the connection only show as transport errors, whose kind is arbitrary; so are the clock and the jitter.
- Download.Cache.Unsatisfiable: the length in a 416 answer is not related to the representation; the checksum decides.
- TelemetrySender.Sender.PublishSmart: a message delivered after a later one is not modelled, nor is the server's real merge; the receiver is the merge and removal the delta was made for.
- TelemetrySender.EnvelopeExact: trees with top-level keys named type or cleared are excluded; telemetry has none.
- TelemetryDelta.SplitOfJoin: keys are non-empty and free of dots; other keys cannot be told apart in a dotted path.
- TelemetryMonitor.Pipeline.FireWindow: reading the hash and handing its fields on is one step; two reads that overtake each other are not modelled.
- TelemetryMonitor.PublishedChangesAreFlushed: runs end before shutdown, where timers and windows are stopped with changes pending; the baseline read at start is not a step.
- TelemetryMonitor.Pipeline.HandleFieldChange: the field tables and the rounding of values (floating point) are parameters.
- EventBuffer.Buffer.SendOne: back-off delays and the copy on disk are not modelled.
- JournalUpload.Uploader.Run: entries come from any reader; resolving the stored cursor is reduced to whether a warning record is written.
- LabelFit.FitLabels: the encoder is any one that costs at least one byte per rune; the other fields of the control are its fixed bytes.
- Ride-group v1 handlers, Stop and its last inactive message, label and palette fields of controls, and parsing of messages beyond their validity checks.
- The estimator, parked-GPS smoothing and all floating-point geometry.
- Wire sequence numbers of one stream across a cleared lease, which restart.
- The offline telemetry buffer, command handlers, bootstrap, log collection and modem information.
- Real input and output: MQTT, Redis, HTTP, TLS, subprocesses and system calls are results chosen arbitrarily.
