# Call backend: a Dafny model

This project models the parts of the call backend (a Python service with two Go
processes beside it) whose correctness depends on several operations at once, and proves
what those operations keep in every run.

**Files.** An upload goes through two processes. The native transport locks a file, asks
the backend for a plan, writes ciphertext slots, syncs them and asks the backend to index
them. Either side can time out, a late request can still arrive, the machine can lose
unsynced writes, and deletes, cleanup, re-creation and downloads go on at the same time.
`UploadProtocol.dfy` is a state machine with one step per critical section;
`UploadSafety.dfy` proves that the index never names bytes that are not durable, that a
ready file is complete and that a download returns what was accepted. `FileAnswers.dfy` says
exactly when each operation succeeds and on what grounds it refuses, `UploadOwners.dfy` that
everything indexed came from the owner, `UploadCompletes.dfy` that an undisturbed upload is
indexed and `FileLifetime.dfy` that a file is kept and readable until its time is over.
`Quotas.dfy` proves the storage limits, `FileStore.dfy` is the object with its loops, `GroupCommit.dfy` proves
that a group commit refines one-at-a-time writes, and `WriteQueue.dfy` that its leaders
settle every call once.

**Calls.** `CallRooms.dfy` gives every handler of the call service including its failing
policy writes, `CallService.dfy` is the object that updates its maps in place,
`CallSafety.dfy` proves the room invariant, `CallOutcomes.dfy` what each handler means to its
caller, `CallAnswers.dfy` exactly when it accepts and what it leaves alone, `CallHistory.dfy` properties of whole runs and `CallFaults.dfy` the unguarded faults.
`CallFaultRuns.dfy` takes a session that cannot be saved as a step of the run and proves what
still holds, and `CallInvitations.dfy` who enters, leaves and moderates a room in those runs.
`MediaPolicy.dfy`, `MediaSafety.dfy` and `MediaReach.dfy` compose them with the media relay,
which reads policy files through a 250 ms cache: what an object cannot reach, and what it does.

**Attachment, credentials and links.** `AttachRace.dfy` (reader thread and workers),
`AttachTokens.dfy` and `TokenProtocol.dfy` (one-time tokens across two processes, sliding
windows), `Admission.dfy` (slots and window budget), `StreamWriter.dfy` (cancellable
writes), `Dedup.dfy` (repeated message ids) and `Pending.dfy` (unacknowledged bytes).

**Codecs.** `Framing.dfy` and `FrameParsers.dfy` (two incremental parsers), `UploadBatches.dfy`
(one format with two parsers) and `Base58.dfy`.

`dafny verify dfyconfig.toml` checks the whole project.

## Assumptions

- SHA-256 is an injective constructor. RIPEMD-160 and SHA-256 in addresses are arbitrary
  functions with the right output lengths.
- Lease tokens, attach tokens and native connection ids never repeat. A connection's detach
  is the last message about it, because the goroutine that sends it has finished by then.
- Clocks never go backwards. Times are integer milliseconds, except in the file store,
  where the source counts seconds.
- The account of a session does not change once it is set.
- A database transaction, a section under one lock, a file rename and a channel operation
  are single steps. Outcomes of I/O are parameters of the step that performs it.
- In the runs of the call service the policy directory exists and a policy file can be
  removed. In `CallSafety.dfy` and `CallHistory.dfy` a session can also be saved; the runs of
  `CallFaultRuns.dfy` and of the media relay do without that. `CallFaults.dfy` gives the exact
  effect of each of these faults.
- The test for a stored message id and its entry are one step, although `seen_message` holds no
  lock and callbacks may overlap.
- A log call does not raise.
- The native bulk writers and the older in-process writers are separate machines.
- A raw write that returns a length has appended that many bytes.

## Properties that hold only under a condition

- The link encoder accepts an acknowledgement with a payload and the link parser refuses it.
  `FrameParsers.EncodeOuter` states that exactly these frames do not survive the round trip.
- The room invariant and the numbering of snapshots do not survive every fault that the call
  service leaves unguarded. `CallFaults.dfy` says for each fault exactly when they do, and
  `CallFaultRuns.FaultBreaksInv` gives a run from the start after which the invariant fails.
- The byte count of unacknowledged frames is not exact when a message id is entered twice.
  `PendingFrames.StepBalancedExactly` gives the exact condition and
  `PendingFrames.OverwritingLeaks` an example. Sent frames get their ids from a counter;
  only `adopt_pending` enters ids it is given. Nothing in the backend fills the
  `pending_transport` list it is called with, so the repeat needs a direct caller.

## Model

| member | source | states |
|---|---|---|
| `Slots.ReadBackSlot` | src/qapp_backend/files.py:225-237 | what is written into a slot is read back from it |
| `Slots.OtherSlotUntouched` | media/cmd/private-transport/files.go:160-201 | slots at stride chunk plus 28 never overlap: a write in one is invisible through any other |
| `Slots.WritesCommute` | src/qapp_backend/files.py:225-237 | writes to different slots can be exchanged |
| `Slots.PayloadsCoverFile` | src/qapp_backend/private_transport/native_files.py:21-37 | payload lengths without their 28 bytes add up to the file size |
| `Slots.CountFillsRange` | src/qapp_backend/files.py:387-392 | as many distinct indices as chunks means every index is there |
| `Storage.ScanMeaning` | src/qapp_backend/private_transport/native_files.py:42-57 | the chunk list is accepted if and only if every chunk is acceptable and no index repeats, and then the missing and named indices are reported exactly |
| `Storage.IndexedMeaning` | src/qapp_backend/private_transport/native_files.py:60-68 | a commit adds exactly the named chunks and keeps every older digest |
| `FileStoreObject.ScanChunks` | src/qapp_backend/private_transport/native_files.py:42-57 | the loop computes the scan, first failure included |
| `FileStoreObject.FileStore.Prepare` | src/qapp_backend/private_transport/native_files.py:15-82 | a prepare succeeds if and only if the owner names one to sixteen acceptable chunks of an open file and a lease is to be had, refuses on the exact grounds otherwise, and leaves a lease of 120 s with the fresh token bound to the list and a plan of what is not stored yet |
| `FileStoreObject.FileStore.Commit` | src/qapp_backend/private_transport/native_files.py:38-68 | a commit succeeds if and only if the owner of an open file has the live lease with this token, row and list, and refuses on the exact grounds otherwise; it ends the lease and leaves every named digest in the index, which stays within the size of present files |
| `FileStoreObject.FileStore.AdmitRequest` | src/qapp_backend/files.py:317-345 | the order and outcome of the checks of a create request, texts that do not decode and the older access model included |
| `FileStoreObject.FileStore.Create` | src/qapp_backend/files.py:317-356 | a create keeps the index sound and all limits, on failing I/O too; a repeated request gets the same row and changes nothing |
| `FileStoreObject.FileStore.Finish` | src/qapp_backend/files.py:387-392 | a finish succeeds if and only if it is the owner's, in time and with no chunk missing, and otherwise refuses on the exact grounds; only the state of the row changes |
| `FileStoreObject.FileStore.Delete` | src/qapp_backend/files.py:369-374 | a delete succeeds if and only if it is the owner's and its I/O completes, and leaves a marked row without index, lease or blob; any other changes neither row nor index |
| `FileAnswers.PreparedExactly` | src/qapp_backend/private_transport/native_files.py:15-82 | a prepare is granted if and only if the file is the user's own, open and in time, the list has one to sixteen acceptable chunks, and it has a live lease or fewer than 2048 files do; for want of that it is busy |
| `FileAnswers.PrepareRefusedExactly` | src/qapp_backend/private_transport/native_files.py:17-57 | every other refusal of a prepare has exactly its own grounds, for a bad list those of the first bad chunk |
| `FileAnswers.PrepareMeans` | src/qapp_backend/private_transport/native_files.py:58-82 | the lease, the plan and the leases of other files after a granted prepare |
| `FileAnswers.CommittedExactly` | src/qapp_backend/private_transport/native_files.py:38-68 | a commit is accepted if and only if such a list comes under a live lease with its token, for the row as it is and for the very list |
| `FileAnswers.CommitRefusedExactly` | src/qapp_backend/private_transport/native_files.py:17-57 | every refusal of a commit but that for its lease has exactly its own grounds |
| `FileAnswers.PreparedCommits` | src/qapp_backend/private_transport/native_files.py:60-82 | what was prepared can be committed if and only if neither the file nor the 120 s of the lease have run out |
| `FileAnswers.NewerPrepareWins` | src/qapp_backend/private_transport/native_files.py:77-82 | after a newer prepare no commit with an older token is accepted, whoever sends it |
| `FileAnswers.FinishedExactly` | src/qapp_backend/files.py:387-392 | when a finish succeeds and on what grounds it is refused |
| `FileAnswers.DeletedExactly` | src/qapp_backend/files.py:369-374 | when a delete succeeds and on what grounds it is refused |
| `FileAnswers.ReadExactly` | src/qapp_backend/private_transport/native_files.py:17-37 | a read is planned if and only if the file is ready and in time and the request names one to sixteen different chunks of it; refusals and lengths are exact |
| `FileAnswers.AdmittedExactly` | src/qapp_backend/files.py:317-345 | a create is new if and only if there is room under all five limits, a repetition if and only if owner and envelope are the same, and refused on the exact grounds otherwise |
| `FileAnswers.CreatedExactly` | src/qapp_backend/files.py:346-356 | an admitted new file is created if and only if its I/O completes and no blob was left over, with the given row and an empty blob |
| `FileAnswers.ExpiredExactly` | src/qapp_backend/files.py:146-165 | a committed clean-up drops the record if and only if it was deleted or a week over its time, marks it otherwise, and touches no other file |
| `UploadSafety.StepKeeps` | media/cmd/private-transport/files.go:73-201 | every step of both processes keeps the invariant on locks, tokens, plans, commits, readers and stored files |
| `UploadSafety.RunKeeps` | src/qapp_backend/private_transport/native_files.py:15-82 | the invariant holds after every run |
| `UploadSafety.IndexMatchesDurableBytes` | src/qapp_backend/private_transport/native_files.py:38-82 | in every interleaving, with late requests, retries, cleanup and lost writes, each indexed digest of a file whose blob exists is the digest of durable bytes in that slot |
| `UploadSafety.ReadyMeansComplete` | src/qapp_backend/files.py:378-392 | in every run a ready file has exactly the indices 0 to count-1 and they cover its size |
| `UploadSafety.DownloadMatchesIndex` | media/cmd/private-transport/files.go:205-261 | whatever a single or batch read returns has the indexed digests |
| `UploadSafety.IndexPersistsRun` | src/qapp_backend/files.py:369-374 | the index of a file only grows until a delete of it succeeds or its clean-up commits; refused and failed requests do not count |
| `UploadSafety.DiscardEmpties` | src/qapp_backend/files.py:369-374 | a successful delete and a committed clean-up leave nothing of the file in the index |
| `UploadSafety.AcceptedIsIndexed` | src/qapp_backend/private_transport/native_files.py:60-68 | a commit is accepted only from the owner of a file that is open and in time, and leaves the digest of every one of its parts in the index |
| `UploadSafety.DownloadReturnsUpload` | media/cmd/private-transport/files.go:205-261 | end to end: a read that succeeds after an accepted commit returns exactly the accepted bytes, however many deletes were refused or failed in between, until one succeeds or the clean-up commits |
| `UploadOwners.IndexedByOwner` | src/qapp_backend/private_transport/native_files.py:38-68 | in every run each digest in the index of a file is that of a part which the file's owner has uploaded |
| `UploadCompletes.UndisturbedUploadIsIndexed` | media/cmd/private-transport/files.go:73-201 | an upload by the owner of an open file with lock, lease and blob to be had, whose steps nothing comes between, is accepted and every part of it is indexed |
| `FileLifetime.KeptUntilExpiry` | src/qapp_backend/files.py:146-165 | in every run a file is there with its owner, size and envelope, ready if it was, and with all its digests, until its time is over or its owner's delete succeeds |
| `FileLifetime.ReadableUntilExpiry` | media/cmd/private-transport/files.go:205-261 | in every run a ready file with its blob answers every proper request with data until its time is over or its owner asks to delete it |
| `Quotas.CreateKeepsQuota` | src/qapp_backend/files.py:329-356 | a create keeps all limits, and a repeated create changes nothing and returns the existing row |
| `Quotas.StepKeepsQuota` | src/qapp_backend/files.py:146-165 | every step, the passing of time included, keeps all limits |
| `Quotas.QuotaAlwaysHolds` | src/qapp_backend/files.py:329-345 | in every run active bytes, active records, records per owner and unexpired files per owner stay within their limits |
| `GroupCommit.FlushBatch` | src/qapp_backend/files.py:193-237 | a request passes if and only if its owner sends a chunk of the right length for its place in an open file and neither the index nor an earlier passed request has other bytes there, and every refusal has exactly its grounds; when the I/O completes exactly the passed ones are acknowledged, their own digests are indexed and their bytes read back, and nothing else is indexed; that is what one-at-a-time puts give; a failed flush, with any part of the failing slot written, acknowledges no accepted request, keeps other errors and the index, and never disturbs indexed slots; a missing row fails every request |
| `GroupCommit.PutAllMeans` | src/qapp_backend/files.py:193-223 | the same answers and contents for requests handled one at a time |
| `GroupCommit.NewWriteLast` | src/qapp_backend/files.py:225-237 | writing the slots in ascending order has the effect of writing them in arrival order |
| `GroupCommit.IndexedSlotsSafe` | src/qapp_backend/files.py:225-237 | however far the writes got, chunks indexed earlier read as before |
| `WriteQueue.EveryCallCompletesOnce` | src/qapp_backend/files.py:167-191 | in every run an unfinished call is in one queue or one batch with a live leader, none is settled twice, and without leaders all are settled |
| `WriteQueue.NeverSettledTwice` | src/qapp_backend/files.py:193-223 | no refusal and no acknowledgement meets a future that is already settled |
| `WriteQueue.ReturnLeavesNothing` | src/qapp_backend/files.py:178-191 | a leader that returns, normally or after an exception, leaves every call of its batch settled |
| `CallServiceObject.CallService.Create` | src/qapp_backend/call/service.py:133-182 | a create is accepted if and only if a free signed-in session names a new room below 1024 and the write succeeds; then host, session and policy are entered; any other leaves rooms and sessions as they were; the room invariant is kept |
| `CallServiceObject.CallService.Join` | src/qapp_backend/call/service.py:184-253 | a join is accepted if and only if a signed-in session bound to no other room brings the invitation of an unexpired room that has not blocked its account and has a place for it, and the write succeeds; then it is a member listed in the policy file; a refusal other than a failed write changes nothing; the room invariant is kept |
| `CallServiceObject.CallService.Leave` | src/qapp_backend/call/service.py:255-290 | a session that was in the room is out of it and no file lists its account, even when the write fails; any other request changes nothing |
| `CallServiceObject.CallService.Disconnected` | src/qapp_backend/call/service.py:441-466 | a lost session is in no room afterwards, and the room invariant is kept |
| `CallServiceObject.CallService.Moderate` | src/qapp_backend/call/service.py:352-411 | a moderation is accepted if and only if the creator asks from its own session in an unexpired room, of another account that the operation applies to, with room in the list and the writes done; then the account is blocked and unlisted, muted or not as asked; the room invariant is kept whichever write fails |
| `CallServiceObject.CallService.ScreenControl` | src/qapp_backend/call/service.py:468-524 | a start is accepted if and only if a member asks while no presentation of another runs; an accepted start or renewal leaves the account presenting for a full lease, an accepted stop ends that presentation; the room invariant is kept |
| `CallServiceObject.CallService.ExpireScreen` | src/qapp_backend/call/service.py:526-534 | the presentation does not stand after its time and another one is left alone |
| `CallServiceObject.CallService.ExpireRoom` | src/qapp_backend/call/service.py:550-559 | nothing is left of the room and its sessions, and no session of another room is touched |
| `CallServiceObject.CallService.EndRoomLocked` | src/qapp_backend/call/service.py:617-632 | an ended room takes its policy and the session entries of all members with it |
| `CallOutcomes.LeaveMeans` | src/qapp_backend/call/service.py:255-277 | leaving ends in absence from room and file, failing write included, and ends the room for its host |
| `CallOutcomes.DisconnectMeans` | src/qapp_backend/call/service.py:441-456 | a disconnected session is in no room by any account |
| `CallOutcomes.RemoveMeans` | src/qapp_backend/call/service.py:378-402 | a removal past its checks blocks the account and takes it out of room and file, whichever of its two writes fail |
| `CallOutcomes.MicrophoneMeans` | src/qapp_backend/call/service.py:388-402 | a mute or its end takes effect in the room and in every file that is there |
| `CallOutcomes.ScreenMeans` | src/qapp_backend/call/service.py:486-512 | nobody takes over or stops a presentation of another account while its lease runs |
| `CallAnswers.CreatedExactly` | src/qapp_backend/call/service.py:133-182 | when a create is accepted and on what grounds it is refused |
| `CallAnswers.CreateLeaves` | src/qapp_backend/call/service.py:153-177 | a new room has its host alone in it, its invitation and three hours, and no other room changes |
| `CallAnswers.JoinedExactly` | src/qapp_backend/call/service.py:184-246 | when a join is accepted, over the fields of the state, and when only its write fails |
| `CallAnswers.JoinRefusedExactly` | src/qapp_backend/call/service.py:204-239 | every refusal of a join has exactly its own grounds, a wrong invitation among them |
| `CallAnswers.JoinLeaves` | src/qapp_backend/call/service.py:231-246 | a join adds one member with its keys, raises the revision if and only if that is new, and leaves everyone else and every other room alone |
| `CallAnswers.LeaveLeaves` | src/qapp_backend/call/service.py:255-290 | when a guest leaves, all others, blocks, mutes and other rooms stay, and the screen if it was not its own |
| `CallAnswers.ModeratedExactly` | src/qapp_backend/call/service.py:364-402 | when each moderation is accepted and on what grounds it is refused |
| `CallAnswers.ModerationLeaves` | src/qapp_backend/call/service.py:378-402 | what an accepted moderation makes of members, blocks, mutes and the file, and that other rooms stay |
| `CallAnswers.SharedExactly` | src/qapp_backend/call/service.py:486-512 | when each screen request is accepted and on what grounds it is refused |
| `CallFaults.UnsavedCreateKeeps` | src/qapp_backend/call/service.py:590-593 | a create whose session cannot be saved keeps the room invariant |
| `CallFaults.UnsavedJoinExactly` | src/qapp_backend/call/service.py:234-244 | a join whose session cannot be saved keeps the invariant if and only if the account was a member before or the room has no policy file |
| `CallFaults.InterruptedJoinExactly` | src/qapp_backend/call/service.py:204-244 | the same condition for every join that would have been accepted had its session been saved |
| `CallFaults.UnsavedJoinNumbered` | src/qapp_backend/call/service.py:234-244 | that join keeps the snapshots numbered if and only if the member was there with the same keys |
| `CallFaults.UnsavedJoinAdmitsMembers` | src/qapp_backend/call/service.py:234-244 | after that join the file still admits members only |
| `CallFaults.UnsavedRemovalKeeps` | src/qapp_backend/call/service.py:379-389 | a removal whose session cannot be saved keeps the invariant and the block |
| `CallFaults.UnsavedEndExactly` | src/qapp_backend/call/service.py:617-632 | ending a room while sessions cannot be saved keeps the invariant if and only if every member was freed first |
| `CallFaults.StaleWriteExactly` | src/qapp_backend/call/service.py:420-439 | a policy file that stays after a change is still true if and only if the room shows it the same members, sessions and mutes |
| `CallFaults.StaleLeave` | src/qapp_backend/call/service.py:420-439 | a member that leaves while the file stays is still admitted by it, if and only if there is one |
| `CallFaults.UnremovedFile` | src/qapp_backend/call/service.py:617-622 | ending a room whose file cannot be removed never keeps the invariant |
| `CallFaultRuns.FaultyRunKeeps` | src/qapp_backend/call/service.py:590-597 | in runs in which any create, join, removal or end of a room may fail to save a session, rooms stay well formed, every member's session is bound to its room, and each policy file admits members only and shows their mutes |
| `CallFaultRuns.ListedIsMember` | src/qapp_backend/call/service.py:420-439 | in every such run a session that a policy file lists is in the room |
| `CallFaultRuns.FaultBreaksInv` | src/qapp_backend/call/service.py:234-244 | for any two accounts a run of four steps, the last a join whose session is not saved, ends where the room invariant fails |
| `CallFaultRuns.BlockStays` | src/qapp_backend/call/service.py:364-402 | no step, faulty ones included, lifts a block or lets the account in but the host's readmission |
| `CallFaultRuns.MuteStays` | src/qapp_backend/call/service.py:364-402 | no step, faulty ones included, lifts a mute but the host's doing so or the host's removal |
| `CallInvitations.MembersWereInvited` | src/qapp_backend/call/service.py:204-239 | in every run, with sessions failing to be saved, a member of a room is its creator or has itself asked to join that very room with its invitation |
| `CallInvitations.ListedWereInvited` | src/qapp_backend/call/service.py:420-439 | so is every session that a policy file lists |
| `CallInvitations.StepEntry` | src/qapp_backend/call/service.py:184-253 | nobody enters a room but by its own request, as its creator or unblocked with its invitation |
| `CallInvitations.RunSameRoom` | src/qapp_backend/call/service.py:133-182 | a room keeps its host, invitation and end as long as it lives, and its number is never given to another |
| `CallInvitations.StepDeparture` | src/qapp_backend/call/service.py:255-466 | while a room goes on, a member goes only by its own leave or disconnection or by the host's removal |
| `CallInvitations.StepEnds` | src/qapp_backend/call/service.py:550-632 | a room ends only by its timer or its host's going |
| `CallInvitations.OnlyHostModerates` | src/qapp_backend/call/service.py:364-402 | blocks and mutes change only by a moderation of the host |
| `CallSafety.CreateKeeps` | src/qapp_backend/call/service.py:153-177 | creating keeps the room invariant, also when the policy cannot be written |
| `CallSafety.JoinKeeps` | src/qapp_backend/call/service.py:204-246 | joining keeps the room invariant, also when the policy cannot be written |
| `CallSafety.ModerateKeeps` | src/qapp_backend/call/service.py:364-402 | moderating keeps the room invariant, whichever of its writes fail |
| `CallSafety.StepKeeps` | src/qapp_backend/call/service.py:133-632 | every handler keeps, with any policy write failing inside its try block: session map and membership are inverses, the host is a member, blocked and members are disjoint, the presenter is a member, all bounds, and each policy file is absent or current |
| `CallSafety.RunKeeps` | src/qapp_backend/call/service.py:133-632 | the room invariant holds after every run |
| `CallHistory.SnapshotsAgree` | src/qapp_backend/call/service.py:576-588 | two snapshots of one room with the same revision show the same members, keys and mutes, two with the same screen revision the same presentation, revisions never fall, and the host keeps its session |
| `CallHistory.RemovedStaysOut` | src/qapp_backend/call/service.py:364-402 | a removed account is not a member again before the host readmits it |
| `CallHistory.RemovalLasts` | src/qapp_backend/call/service.py:364-402 | the same from the removal itself, whichever of its writes fail |
| `CallHistory.MuteSurvives` | src/qapp_backend/call/service.py:364-402 | a mute survives leaving and rejoining until the host lifts it or removes the account |
| `CallHistory.StepMembership` | src/qapp_backend/call/service.py:184-253 | nobody is put into a room by anyone else |
| `MediaPolicy.RoomPolicyStore.Check` | media/room_policy.go:31-67 | every answer is what some reading of that room's file less than 250 ms old says, a missing or foreign file and an unlisted session deny, and a file is read again only when there is no such reading |
| `MediaPolicy.TrackKeyInjective` | media/main.go:188-194 | equal track keys mean equal room, participant and track on safe ids |
| `MediaSafety.DeliveriesStayOnTrack` | media/main.go:238-300 | in every run, with sessions failing to be saved, an object reaches only subscribers of its room, participant and track |
| `MediaSafety.DepartureCutsOff` | media/main.go:238-300 | 250 ms after a leave, removal, disconnection or end of the room nothing passes from or to that session while it is not in the room again, whatever it attempts and whichever sessions fail to be saved |
| `MediaSafety.RemovalCutsOff` | media/main.go:238-300 | 250 ms after a block nothing passes from or to the account until the host readmits it, with no assumption on its attempts and whichever sessions fail to be saved |
| `MediaSafety.MuteSilences` | media/main.go:238-300 | 250 ms after a mute no audio of the account is forwarded until the host lifts the mute or removes it, whichever sessions fail to be saved |
| `MediaReach.PublishedExactly` | media/main.go:238-262 | a publication goes out if and only if the file it is checked against lists its source, its track is not muted audio and its payload is within the limit, and then to all followers of the track |
| `MediaReach.ServedExactly` | media/main.go:263-275 | a recipient gets the object if and only if the file lists it and it is still subscribed |
| `MediaReach.PublicationReaches` | media/main.go:238-300 | in every reachable state a publication that goes out is handed to exactly the followers the file lists, once each, in whatever order they are served |
| `MediaReach.SubscribedExactly` | media/main.go:200-236 | a subscription is there from its request until its owner goes |
| `MediaReach.StaysSubscribed` | media/main.go:200-236 | a subscription outlasts every run in which its owner does not go |
| `MediaReach.FileLists` | media/room_policy.go:31-67 | the file on disk lists exactly whom the service has listed, until the room runs out |
| `AttachRace.StepKeeps` | src/qapp_backend/private_transport/native_server.py:109-229 | every critical section of reader and workers keeps the invariant on links, lock, claims, closed connections and the final sweep |
| `AttachRace.DetachIsFinal` | src/qapp_backend/private_transport/native_server.py:149-187 | once a detach is carried out and the attach worker is done, the connection is unregistered and unreferenced at every later point |
| `AttachRace.OneSessionPerTransport` | src/qapp_backend/private_transport/service.py:360-371 | in every run no transport serves two sessions |
| `AttachRace.OnlyOwnLinkCleared` | src/qapp_backend/private_transport/service.py:383-414 | a session's transport is never replaced and is removed only by an invalidation or by clearing that very transport |
| `AttachRace.ShutdownDetachesAll` | src/qapp_backend/private_transport/native_server.py:134-147 | after the final sweep nothing is registered, and with the workers done no session is linked |
| `AttachRace.RegisteredBounded` | src/qapp_backend/private_transport/native_server.py:177-182 | at most 256 connections are registered in every run |
| `AttachRace.AdmittedExactly` | src/qapp_backend/private_transport/native_server.py:177-182 | a worker goes on to attach if and only if no detach was seen, the connection is new, fewer than 256 are registered and the server is not stopping |
| `AttachRace.AdmittedIsRegistered` | src/qapp_backend/private_transport/native_server.py:177-200 | in every run an admitted worker that is not rejected registers its connection and links its session |
| `RateWindows.IssueStaysWithin` | src/qapp_backend/private_transport/authorization.py:70-105 | issuing below the limit of the pruned queue keeps every half-open minute within the limit |
| `RateWindows.PrunedIsWindow` | src/qapp_backend/private_transport/authorization.py:184-191 | a pruned queue has exactly the times of the minute that ends now |
| `AttachTokenObject.AttachTokenAuthority.ExpireLocked` | src/qapp_backend/private_transport/authorization.py:179-182 | the loop removes exactly the expired grants |
| `AttachTokenObject.AttachTokenAuthority.PruneMapping` | src/qapp_backend/private_transport/authorization.py:184-191 | the nested loops prune every queue and drop the empty ones |
| `AttachTokenObject.AttachTokenAuthority.Issue` | src/qapp_backend/private_transport/authorization.py:58-105 | an issue is granted under all four limits and leaves grant and times, or is refused |
| `AttachTokenObject.AttachTokenAuthority.Consume` | src/qapp_backend/private_transport/authorization.py:107-149 | the token is gone in any case, and returned if and only if it was held and unexpired, session, purpose, binding and nonce are those it was issued for, and its session is established, unexpired, connected and of the same user, app and connection |
| `AttachTokenObject.AttachTokenAuthority.InvalidateSession` | src/qapp_backend/private_transport/authorization.py:151-156 | exactly the session's grants and its rate queue go |
| `TokenProtocol.RedeemedAtMostOnce` | src/qapp_backend/private_transport/service.py:197-213 | in every run a token is redeemed at most once by backend and relay together |
| `TokenProtocol.RedemptionIsDeserved` | media/main.go:127-166 | a step redeems a token if and only if the backend holds it unexpired, it was issued for exactly the session, purpose, binding and nonce presented and that session is live on the same connection, or the relay has claimed its unchanged, well-formed and unexpired file; and it is the first redemption |
| `TokenProtocol.PresentingSpends` | src/qapp_backend/private_transport/authorization.py:107-149 | presenting a held token spends it for good: redeemed if and only if it is unexpired, the presented fields are those it was issued for and its session is live |
| `TokenProtocol.GrantedCanBeRedeemed` | src/qapp_backend/private_transport/authorization.py:58-149 | in every run a credential granted for anything but the relay is redeemed when its owner presents it at once |
| `TokenProtocol.RelayGrantCanBeRedeemed` | src/qapp_backend/private_transport/service.py:197-213 | in every run a credential granted for the relay is redeemed once its file is written, claimed and judged |
| `TokenProtocol.InvalidatingSpends` | src/qapp_backend/private_transport/authorization.py:151-156 | a held token of an invalidated session is never redeemed |
| `TokenProtocol.InvalidatingUnlinks` | src/qapp_backend/private_transport/service.py:396-408 | invalidating a session puts every unclaimed grant file of it on the list of files to remove |
| `TokenProtocol.UnlinkingSpends` | src/qapp_backend/private_transport/service.py:396-408 | a token whose grant file is removed before the relay claims it is never redeemed by either process |
| `TokenProtocol.RatesHold` | src/qapp_backend/private_transport/authorization.py:70-105 | in every run and every half-open minute the per-user limit holds, and the per-session limit since the last invalidation |
| `TokenProtocol.GrantedExactly` | src/qapp_backend/private_transport/authorization.py:70-90 | a credential is granted if and only if neither minute ending now is full and neither cap is reached |
| `TokenProtocol.CapsAlwaysHold` | src/qapp_backend/private_transport/authorization.py:70-105 | unused credentials stay within the session and global caps in every run |
| `AdmissionGateObject.AdmissionGate.ClaimActive` | media/cmd/private-transport/admission.go:35-41 | succeeds if and only if fewer than 256 leases hold an active slot, and keeps the accounts exact |
| `AdmissionGateObject.AdmissionGate.ClaimPending` | media/cmd/private-transport/admission.go:42-50 | always succeeds for a lease that holds an active slot, which then waits |
| `AdmissionGateObject.AdmissionGate.BindConnection` | media/cmd/private-transport/admission.go:70-79 | afterwards the connection is registered if and only if its lease is open |
| `AdmissionGateObject.AdmissionGate.FreeActive` | media/cmd/private-transport/admission.go:64-67 | never blocks, and exactly this lease stops holding an active slot |
| `AdmissionGateObject.AdmissionGate.GrowWindow` | media/cmd/private-transport/admission.go:80-93 | grants if and only if the lease is registered and the growth of all open leases stays within the budget, and adds without wrapping |
| `AdmissionGateObject.AdmissionGate.CloseLease` | media/cmd/private-transport/admission.go:51-57 | subtracts exactly the growth of the lease, without wrapping, and unregisters it |
| `AdmissionGateObject.AdmissionGate.Release` | media/cmd/private-transport/admission.go:48-66 | never blocks, and afterwards exactly this lease holds no pending slot |
| `Admission.SlotsConserved` | media/cmd/private-transport/admission.go:35-69 | in every run pending <= active <= 256 and both channels hold exactly the slots of leases that have not given them back |
| `Admission.PendingNeverFull` | media/cmd/private-transport/admission.go:42-47 | the refusal for want of a pending slot cannot happen |
| `Admission.NeverBlocks` | media/cmd/private-transport/admission.go:48-67 | no step that returns a slot waits on an empty channel |
| `Admission.GrowthConserved` | media/cmd/private-transport/admission.go:70-93 | the shared counter is the growth of the registered open leases, at most 256 MiB, and no 64-bit operation wraps, on closing any open lease included |
| `Admission.WindowBounded` | media/cmd/private-transport/admission.go:80-93 | all receive windows together stay within 512 MiB |
| `StreamWriter.StepKeeps` | src/qapp_backend/reticulum/writer.py:59-107 | every step of callers and workers keeps the invariant on gate, order, jobs and stream |
| `StreamWriter.WholeFramesThenPrefix` | src/qapp_backend/reticulum/writer.py:59-107 | at every moment the stream is the whole frames of all submitted calls but the last, in order, then a prefix of the last |
| `StreamWriter.NothingAfterFailure` | src/qapp_backend/reticulum/writer.py:100-107 | after a failed write nothing is submitted or written any more |
| `StreamWriter.ReturnMeansWritten` | src/qapp_backend/reticulum/writer.py:92-100 | a call that returned normally was submitted once and its whole frame is in the stream at its place |
| `StreamWriter.FailureHasCause` | src/qapp_backend/reticulum/writer.py:59-107 | no call fails and the stream is not cancelled without a cancellation, a full pool, a failed write or a passed deadline |
| `StreamWriter.HolderCanAdvance` | src/qapp_backend/reticulum/writer.py:59-107 | in every run the call that has the gate can take a step |
| `Framing.EncodedIsRead` | src/qapp_backend/private_transport/framing.py:49-65 | a header announces the right length and the encoded frame reads back |
| `Framing.ReadIsEncoded` | src/qapp_backend/reticulum/framing.py:59-84 | a parser returns only allowed frames and only the bytes that encode them |
| `Framing.SplitSound` | src/qapp_backend/private_transport/framing.py:68-112 | a successful split loses and invents nothing and keeps less than one frame |
| `Framing.CuttingIsIrrelevant` | src/qapp_backend/reticulum/framing.py:59-84 | however a stream is cut, feeding the pieces has the outcome of splitting it whole, failures included |
| `Framing.RoundTrip` | src/qapp_backend/private_transport/framing.py:49-112 | frames encoded, concatenated and fed in any accepted pieces come out once each, in order, with an empty buffer |
| `Framing.FeedIsAdditive` | src/qapp_backend/reticulum/framing.py:59-84 | if one call succeeds on two inputs joined, two calls give the same frames and buffer |
| `Framing.SmallPiecesAccepted` | src/qapp_backend/reticulum/framing.py:35-63 | pieces that leave room for an unfinished frame are never refused for size |
| `Framing.RetainsPrefixOfNext` | src/qapp_backend/private_transport/framing.py:73-112 | after any prefix of a valid stream the completed frames are out and a proper prefix of the next is kept |
| `FrameParsers.EncodeInner` | src/qapp_backend/private_transport/framing.py:49-65 | encoding succeeds exactly within the limits and is undone by the parser |
| `FrameParsers.EncodeOuter` | src/qapp_backend/reticulum/framing.py:27-32 | encoding succeeds exactly within its limits and refuses negative ids; everything but an acknowledgement with a payload is undone by the parser |
| `FrameParsers.ReceiveLimit` | src/qapp_backend/reticulum/framing.py:36-48 | which limits a link parser can be built with, the default included |
| `FrameParsers.PrivateParser.Feed` | src/qapp_backend/private_transport/framing.py:73-112 | the loop returns and keeps what the format says, and raises again after it has raised |
| `FrameParsers.LinkParser.Feed` | src/qapp_backend/reticulum/framing.py:57-84 | the loop returns and keeps what the format says within the limit, and empties the buffer before raising |
| `Numerals.ConvertBack` | src/qapp_backend/auth/qortal_identity.py:40-61 | converting digits between bases and back is the identity, leading zeros included |
| `Base58.Encode` | src/qapp_backend/auth/qortal_identity.py:40-47 | the division loop computes the Base58 text |
| `Base58.Decode` | src/qapp_backend/auth/qortal_identity.py:50-61 | the loop accepts exactly non-empty alphabet strings and computes their bytes |
| `Base58.BytesOfBitLength` | src/qapp_backend/auth/qortal_identity.py:59-59 | the bytes asked for by the bit length are the shortest numeral |
| `Base58.DecodeUndoesEncode` | src/qapp_backend/auth/qortal_identity.py:40-61 | decoding inverts encoding on every non-empty byte string |
| `Base58.EncodeUndoesDecode` | src/qapp_backend/auth/qortal_identity.py:40-61 | encoding inverts decoding on every text that decodes |
| `Base58.AddressesExactly` | src/qapp_backend/auth/qortal_identity.py:73-81 | the accepted texts are exactly the addresses of twenty-byte digests |
| `Base58.KeyHasAddress` | src/qapp_backend/auth/qortal_identity.py:64-81 | the address of every 32-byte key is accepted |
| `Delivery.ApplicationSession.SeenMessage` | src/qapp_backend/reticulum/sessions.py:46-53 | one call moves a stored id to the end, or appends it and evicts the oldest |
| `Dedup.StoredIsLatest` | src/qapp_backend/reticulum/sessions.py:46-53 | the stored ids are exactly the latest distinct ids by last occurrence |
| `Dedup.RedeliveredExactly` | src/qapp_backend/reticulum/sessions.py:46-53 | an id is delivered again if and only if at least the limit of other distinct ids came since |
| `Dedup.FirstIsDelivered` | src/qapp_backend/reticulum/sessions.py:46-53 | an id that never occurred is delivered |
| `Delivery.ClosedIsSilent` | src/qapp_backend/reticulum/connection.py:98-116 | after a close only frames that had passed the test before can reach the handler, each once, and with none of them nothing does |
| `Delivery.HandledAgainExactly` | src/qapp_backend/reticulum/server.py:290-296 | on a link with overlapping callbacks a repeated message reaches the handler exactly after the limit of other ids of its session |
| `Delivery.NewMessageIsHandled` | src/qapp_backend/reticulum/server.py:290-296 | in every run a new message on an id that is not closed is handled when it is admitted |
| `PendingFrames.StepBalancedExactly` | src/qapp_backend/reticulum/connection.py:121-145 | a step keeps the byte count exact if and only if it overwrites no non-empty entry and takes off the entry's own size |
| `PendingFrames.EnteredExactly` | src/qapp_backend/reticulum/connection.py:121-145 | while the count is exact, a frame is entered if and only if number and total size of the pending frames leave room for it |
| `PendingFrames.OverwritingLeaks` | src/qapp_backend/reticulum/connection.py:219-244 | an id entered again by adopting a frame leaves bytes counted for no frame |
| `PendingFrames.OrderlyRunsBalance` | src/qapp_backend/reticulum/connection.py:176-193 | when no id is entered twice, the count is exact and both bounds hold in every run |
| `UploadBatches.DecodeUploadBatch` | src/qapp_backend/files.py:36-55 | the backend's parser computes the reference decoding |
| `UploadBatches.ParseBatch` | media/cmd/private-transport/files.go:42-72 | the native parser computes its reference with both error codes, and accepts exactly what the backend's accepts with distinct indices |
| `UploadBatches.ParsersAgree` | media/cmd/private-transport/files.go:42-72 | the two references agree on every payload with distinct indices, with the same id and chunks |
| `UploadBatches.DecodedExactly` | docs/file-sharing.md:104-105 | a payload decodes to a batch if and only if the batch is within its limits and the payload is its documented encoding |
| `UploadBatches.LengthCheckIsImplied` | src/qapp_backend/files.py:36-38 | the explicit upper length check follows from the checks of the records |

## Left out

- `AttachRace.StepKeeps`: connection ids are assumed not to repeat.
- `TokenProtocol.InvalidatingSpends`: speaks of tokens the backend holds. A grant file goes by a later step than the invalidation, so the relay may claim it before that; `TokenProtocol.UnlinkingSpends` covers it otherwise.
- `CallServiceObject.CallService.Join`: a session that cannot be saved is the subject of `CallFaults.UnsavedJoinExactly`.
- `CallSafety.JoinKeeps`: as for the object's join.
- `CallSafety.StepKeeps`: the unguarded faults are not steps here, because its invariant does not survive them; `CallFaults.dfy` has their exact conditions and `CallFaultRuns.FaultyRunKeeps` what the runs with unsaved sessions keep.
- `CallSafety.RunKeeps`: as for its steps.
- `CallHistory.SnapshotsAgree`: false of runs with a join whose session cannot be saved; `CallFaults.UnsavedJoinNumbered` has the exact condition.
- `Delivery.HandledAgainExactly`: the test for a stored id and its entry are one step; of two overlapping callbacks with one id the model lets one through.
- A policy directory that cannot be made and a policy file that cannot be removed are not steps of any run; `CallFaults.StaleWriteExactly`, `CallFaults.StaleLeave` and `CallFaults.UnremovedFile` say what they do.
- What the queue of a slow recipient discards, and a relay configured without policies: a delivery is a copy handed to the queue after both checks.
- That a room lives its full three hours: the room timer does not look at the expiry time again.
- That a row always has a blob: a delete unlinks before its transaction commits, so read properties say "if the read succeeds".
- Frames parsed earlier in a `feed` call that raises: the source drops them.
- The wire form of batch downloads, the datagram codec and JSON documents.
- Sleeping, wake-ups and fairness: the machines say what every interleaving keeps, not that a step is eventually taken.
- QUIC, TLS, MOQT, Reticulum, HTTP, SQLite and file locks themselves.
- Authentication challenges, group access, configuration, deployment, readiness and diagnostics.
