# ninep in Dafny

A Dafny model of ninep, a 9P2000.L/9P2000.u client and server, with proofs of the properties its design
rests on. `dafny verify dfyconfig.toml` checks everything.

The project follows the parts of the system that have to agree with each other.

- **Flushing on the server.** `ServerInflight` is the in-flight map; `FlushProtocol` interleaves any number of
  requests, Tflush handlers and drains over it, one step per critical section, with a log of the frames written;
  `FlushTheorems` states what holds over every run.
- **Fids and nodes on the server.** `FidObjects` has the fid state and fid table as objects. `FidMachine`
  interleaves attach, walk, clone, xattrwalk, open, create, I/O, clunk, remove, xattrcreate and the sweeps of
  cleanup and re-negotiation; `FidProof`, `FidDrainProof` and `FidNodeProof` prove its invariants. `FidTheorems` has
  the results on handles and counts, `NodeTheorems` those on the life of nodes, `SweepTheorems` those on sweeps.
  `ServerTheorems` runs the flush machine and the fid machine together. `Walk` is one Twalk in full.
- **Receive workers.** `Workers` is the loop in which goroutines take turns to read under one mutex.
- **The client multiplexer.** `ClientMux` interleaves callers, the write lock, the read loop, the server and
  shutdown; `ClientMuxProof` and `ClientTheorems` hold the proofs. `CallTheorems` follows one call from its admission to
  its return. `MirrorTheorems` shows that their condition on mirror
  tags is exact, and `LateRflush` is a run that breaks it. `ClientObjects` has the tag list, the in-flight map and the
  fid allocator as objects.
- **Loops across the wire.** `ReadDir`, `FileIO` and `Xattr` put the client's loops against the server's handlers.
- **The codec.** `Wire`, `Dirents`, `ListCodec`, `Fields`, `Messages` and `Frames` cover the whole 9P2000.u dialect;
  `WireFormat` writes down the bytes of every message independently and compares. `CodecObjects` is the reader and buffer
  that do the work; `FastPaths` compares the zero-copy decoders with the
  ordinary ones.

Protocol machines are a state, a set of steps with their guards, and runs as sequences of states. Object methods are
proved equal to functions on values or to what the source promises of them; the flush machine takes its steps with
the in-flight map's own functions, the fid and client machines state theirs on maps from object names, and the fid
objects take the fid machine's types and teardown rule. History variables (named as such at the head of each machine)
record who did what and decide no step.

Where an assumption is needed it is a predicate on runs, and each is shown to be needed:

- The order of Rflush after a response needs tags to be reused only after their response is on the wire
  (`LegalRun`). The weaker condition actually used, that no start replaces a committed entry some Tflush waits on, is
  also necessary: `UntimelyReuseOvertakes`, and `OvertakingIsReachable` from the start of a connection.
- Response matching on the client needs a server that answers each request once and sends nothing for it after its
  Rflush, and quiet registrations of mirror tags (`QuietRun`). A call whose response comes first returns without
  waiting for its Rflush, so the next user of the tag may register its mirror tag over that stale Rflush. This is
  harmless unless the response to the new call can still arrive after it, while someone can still take the tag.
  `MixupIffNotQuiet` makes that exact: after any quiet run, a registration can lead to a caller being handed another
  call's response if and only if it is such a one. `LateRflushMixesUpCalls` is a run that gets there.
- A sweep that releases handles must find no handler that has resolved a fid it takes (`DrainedRun`). This is exact:
  `SweepIsUnsafeIffBusy`. A re-negotiation always meets it, and so does a cleanup whose workers have exited
  (`ServerTheorems.SettledSweepIsIdle`, `SettledRunReleasesUnused`). Cleanup also goes on to release handles when the
  in-flight requests drained but the goroutines did not exit in time (server/cleanup.go:63-76); a request read in
  between may be such a handler, and `UnsettledSweepIsReachable` is a run in which a handle is released under its I/O.
- A clone or xattrwalk must bind its node while some fid still holds a reference to it (`HeldRun`). Such runs never
  bind a node that is closed or owed a close (`HeldRunIsLive`). Binding at zero references is unsafe exactly when the
  last holder left by a clunk, a remove or a releasing sweep that closes the node, and harmless when it was displaced,
  committed an xattr or was swept without release (`AliasIsUnsafeIffLeftToClose`). `CloneRaceIsReachable` is a run
  from the start of a connection that ends with a fid on a closed node.

Four statements of the source hold only in part; the model keeps the code and proves where they hold:

- `Rstat` and `Twstat` compute `nstat` as a 16-bit sum. Stats of 65534 and 65535 bytes are encoded and refused by
  every decoder (`WrappedStatIsRejected`); all others come back (`RoundTripsIffUnwrapped`). A stat's own `Size` field
  is not encoded but computed, so a message comes back with it filled in, and unchanged exactly when it was right.
- `Twrite.DecodeFromBuf` compares the remaining length as a uint32, so it and `DecodeFrom` differ on some bodies past
  2^32 bytes (`WrappingBodyExists`) and on no frame (`BufDecodeAgreesIffNoWrap`, `FramesDoNotWrap`).
- `XattrSet` documents msize as the only limit. Its chunk is not capped by MaxDataSize, so a first chunk above
  16 MiB cannot be encoded (`XattrSet` states exactly when it succeeds).

- A walk closes every unused node it steps off, which is meant for nodes nothing will use again. One that comes back to
  such a node, as `a/b/..` does over a file system that hands the same node out twice, ends up bound to a closed node
  (`WalkBindsClosedIffItCameBack`).

## Model

| member | source | states |
|---|---|---|
| `ServerInflight.InflightMap.Start` | server/flush.go:60-80 | registers a tag unless an uncommitted entry holds it; replacing a committed entry keeps the count and takes its done channel to close |
| `ServerInflight.InflightMap.Finish` | server/flush.go:86-108 | removes the entry, lowers the count, closes the done channel and, at zero, the drain channel, each once |
| `ServerInflight.InflightMap.Commit` | server/flush.go:125-131 | marks the entry committed and nothing else |
| `ServerInflight.InflightMap.CompleteCommit` | server/flush.go:146-160 | removes the entry only if it still belongs to the request, and hands back the channel to close |
| `ServerInflight.InflightMap.DrainChan` | server/flush.go:164-172 | makes the drain channel lazily, once per drain, and none when nothing is in flight |
| `ServerInflight.InflightMap.FlushWait` | server/flush.go:180-193 | cancels the request found and makes its done channel lazily |
| `ServerInflight.InflightMap.CancelAll` | server/flush.go:197-203 | every registered request is cancelled, no other context is, and entries, count and channels stay |
| `FlushProtocol.RunKeepsInv` | server/flush.go:60-203 | every interleaving of requests, flushes and drains keeps ownership, contexts, channels, waiters and the wire consistent |
| `FlushProtocol.TimelyRunKeepsOrder` | server/conn.go:749-820 | as long as no start displaces a committed entry a Tflush waits on, responses precede their Rflush |
| `FlushTheorems.LegalRunIsTimely` | server/flush.go:60-80 | reusing tags only after their response is written never displaces such an entry |
| `FlushTheorems.RflushFollowsResponse` | server/dispatch.go:444-463 | flush(5): the Rflush for a request that was found is written after that request's response, through reuse and mid-write arrival |
| `FlushTheorems.UntimelyReuseOvertakes` | server/flush.go:60-80 | the condition is exact: displacing such an entry has a continuation in which the Rflush goes first |
| `FlushTheorems.OvertakingIsReachable` | server/flush.go:60-80 | a run from the start of a connection, with a client that reuses its tag early, in which the Rflush goes first |
| `FlushTheorems.NoChannelClosedTwice` | server/flush.go:86-160 | no done or drain channel is closed twice, in any run |
| `FlushTheorems.EachFrameIsWrittenOnce` | server/conn.go:749-820 | no request is answered twice, and no Tflush |
| `FlushTheorems.WireIsWhatWasWritten` | server/conn.go:749-820 | a frame is on the wire exactly when a write or a panic report put it there |
| `FlushTheorems.ArrivingFlush` | server/dispatch.go:444-463 | a Tflush for an unknown tag can be answered at once; one that finds its request waits on a channel still open |
| `FlushTheorems.FlushWaiterIsReleased` | server/flush.go:146-193 | a Tflush whose request is gone, or was displaced by a reused tag, is not left on an open channel |
| `FlushTheorems.ClosingReleasesFlushWaiter` | server/flush.go:146-160 | the close a finishing request still owes wakes the Tflush waiting on it |
| `FlushTheorems.DrainWaiterIsReleased` | server/flush.go:164-224 | a drain can wake once nothing is in flight, and meanwhile the map still holds its channel |
| `FlushTheorems.HandlersOwnTheirEntries` | server/flush.go:60-108 | the count is the number of entries and every request in its handler owns its tag's uncommitted entry |
| `FlushTheorems.UncommittedEntryIsNotOverwritten` | server/flush.go:60-108 | only the owner's commit or finish ends an uncommitted entry |
| `FlushTheorems.DrainLeavesNoHandler` | server/conn.go:825-902 | version(5): after a successful drain no handler runs while fids are clunked and msize and protocol change |
| `FlushTheorems.DrainCancelsHandlers` | server/flush.go:197-203 | a drain begins by cancelling every request in its handler, each stays cancelled until it is over, and nobody unregistered is cancelled |
| `FlushTheorems.RenegotiationHoldsRecv` | server/conn.go:476-491 | a Tversion holds the receive lock from its first step until it lets go, and no request starts meanwhile |
| `FlushTheorems.ReleasedRecvLetsRequestsIn` | server/conn.go:476-491 | and then the next request can start |
| `FlushTheorems.DrainEndsOnce` | server/flush.go:211-224 | a drain that finds nothing in flight or wakes has succeeded for good, one that times out has failed for good |
| `FlushTheorems.ContextsAreReturned` | server/requestctx.go:154-172 | every context made is with a live request or back in the pool, never both |
| `FlushTheorems.PooledContextsAreUnreachable` | server/requestctx.go:132-172 | no context reachable from the map is in the pool, and a borrowed one starts uncancelled |
| `FlushTheorems.FlushCancelsOnlyItsTarget` | server/flush.go:180-193 | an arriving Tflush cancels its target and no other live request |
| `FidObjects.FidState.BeginIO` | server/fid.go:113-121 | refuses a closing fid; otherwise counts the call and nothing has been released |
| `FidObjects.FidState.EndIO` | server/fid.go:127-136 | the last call on a clunked fid releases, no other does |
| `FidObjects.FidState.FinishClunk` | server/fid.go:173-182 | releases at once when idle and leaves it to the last I/O call otherwise |
| `FidObjects.FidTable.Add` | server/fid.go:208-219 | limit before duplicate, no change on error, and never past the limit |
| `FidObjects.FidTable.Clunk` | server/fid.go:223-232 | a fid state is handed to exactly one clunk, not yet closing |
| `FidObjects.FidTable.ClunkAll` | server/fid.go:238-245 | hands over every fid state exactly once, none of them closing or released, and leaves a valid empty table |
| `FidObjects.FidTable.Update` | server/fid.go:284-297 | swaps the node and returns the one displaced in the same section; I/O counts and other fids unchanged |
| `FidObjects.FidTable.MarkOpenedWithHandle` | server/fid.go:306-321 | succeeds exactly for a present, unopened fid and then stores the handle; I/O counts and teardown unchanged |
| `FidObjects.FidTable.UpdateAndOpen` | server/fid.go:329-346 | swaps node, state and handle together or does nothing |
| `FidObjects.OpenThenClunk` | server/fid.go:173-182 | an open followed by the clunk of the idle fid releases exactly the handle stored, once |
| `FidObjects.ClunkDuringIO` | server/fid.go:113-182 | with I/O under way the clunk releases nothing and the end of the I/O releases the handle, once |
| `FidProof.RunKeepsBase` | server/fid.go:113-346 | every interleaving keeps table, I/O counts, closing marks, handle ownership and reference counts consistent |
| `FidTheorems.StepReleases` | server/dispatch.go:470-490 | what a step releases and closes is exactly what the running totals gain |
| `FidTheorems.HandleReleasedAtMostOnce` | server/fid.go:113-182 | no two steps of any run release the same handle, lost open and create races included |
| `FidTheorems.NoReleaseDuringIO` | server/fid.go:113-182 | no handle is released or already gone while I/O is registered on its fid |
| `FidTheorems.EveryHandleIsReleased` | server/bridge.go:78-106 | with no handler left, a handle has been released unless its fid is bound or was swept after a failed drain, and only then not |
| `FidTheorems.GoneFidIsReleased` | server/fid.go:127-182 | once a fid is gone, its clunk has returned and its I/O is over, its handle has been released, unless a sweep leaked it |
| `FidTheorems.FidTakesItsCourse` | server/dispatch.go:294-400 | how a fid leaves the table decides for good how it ends: released after a clunk, a remove or a drained sweep, committed as an xattr-write fid, kept after a failed drain |
| `FidTheorems.OpenSettlesItsFid` | server/fid.go:306-346 | an open or create stores the handle and node it came back with in the fid it was asked for if that is still unopened, and otherwise releases the handle and closes the node |
| `FidTheorems.XattrFidIsNeverOpened` | server/bridge.go:1090-1168 | a fid bound by xattrwalk or turned by xattrcreate stays so and never holds a handle |
| `SweepTheorems.BusySweepReleasesInUse` | server/cleanup.go:63-103 | from any consistent state, a releasing sweep over a fid some handler has resolved leads to the release of its handle under that handler's I/O, begun or not |
| `SweepTheorems.SweepIsUnsafeIffBusy` | server/cleanup.go:63-103 | in every drained run, the next releasing sweep can lead to a release under I/O exactly when some handler has resolved a fid it takes |
| `SweepTheorems.BusySweepIsReachable` | server/cleanup.go:63-103 | a run from the start of a connection to such a release, with the I/O begun before or after the sweep |
| `ServerTheorems.RunKeepsInv` | server/conn.go:749-902 | running flushes, drains and fids together, whoever uses the fid table is a request in its handler |
| `ServerTheorems.SettledSweepIsIdle` | server/conn.go:841-867 | a sweep under a drained re-negotiation, or after every worker exited, finds no handler on the table |
| `ServerTheorems.SettledRunReleasesUnused` | server/conn.go:841-867 | so no handle is released under I/O in any run whose releasing sweeps are all of that kind |
| `ServerTheorems.SweepIsUnsafeIffBusy` | server/cleanup.go:43-103 | one more sweep after such a run can lead the server to a release under I/O exactly when it takes a fid in use |
| `ServerTheorems.UnsettledSweepIsReachable` | server/cleanup.go:43-103 | which a request read after cleanup's drain returned makes happen: a run from the start of a connection |
| `FidTheorems.RefsCountHolders` | server/inode.go:58-134 | a node's count is the number of fid states holding it; with no handler left, the number of fids bound to it |
| `NodeTheorems.HeldRunIsLive` | server/inode.go:110-134 | aliases bound while their node has a reference never bind a node that is closed or owed a close |
| `NodeTheorems.ClosedNodeIsNeverBound` | server/dispatch.go:158-310 | in such runs a closed node made by Lookup or Create is bound to no fid then or later |
| `NodeTheorems.NodeClosedAtMostOnce` | server/inode.go:83-134 | and no two steps close the same such node |
| `NodeTheorems.UnboundNodeIsClosed` | server/dispatch.go:485-510 | a node Lookup or Create made that was never bound is closed once its handler is done with it |
| `NodeTheorems.AliasIsUnsafeIffDoomed` | server/dispatch.go:164-184 | binding an alias has a continuation that leaves it on a closed node exactly when the node is closed or a teardown in progress will close it |
| `NodeTheorems.LastHolderDecides` | server/inode.go:83-134 | a node without references is closed or owed a close exactly when its last holder left by a clunk, a remove or a releasing sweep and did not commit an xattr instead |
| `NodeTheorems.SomeHolderLeft` | server/inode.go:58-134 | every node that was bound and has no reference left had a last holder, which left by a single step |
| `NodeTheorems.AliasIsUnsafeIffLeftToClose` | server/dispatch.go:164-184 | so the bind is unsafe exactly when no reference is left and the last holder left that way |
| `NodeTheorems.LoneClunkCloses` | server/dispatch.go:294-365 | clunking a lone idle fid runs to the close of its node |
| `NodeTheorems.OverlappingCloneBindsClosedNode` | server/dispatch.go:164-184 | from any state with a lone idle fid, the interleaving of clone and clunk that binds a closed node |
| `NodeTheorems.CloneRaceIsReachable` | server/dispatch.go:164-184 | the same from the start of a connection |
| `Walk.PathLeads` | server/dispatch.go:211-247 | each node of the path is found by Lookup in the directory before it, and the next name is not |
| `Walk.LeadsIsPrefix` | server/dispatch.go:211-247 | every other resolving path is a prefix of it |
| `Walk.Handler.Validate` | server/dispatch.go:28-36 | accepts exactly lists of non-empty names without slash or NUL |
| `Walk.Handler.Resolve` | server/dispatch.go:211-247 | the loop yields the QIDs of the longest path and closes each unused node it leaves behind |
| `Walk.Handler.HandleWalk` | server/dispatch.go:158-290 | reply, table, references and closes on every outcome: missing fid, clone, bad name, partial, full, failed bind |
| `Walk.WalkReturnsLongestPrefix` | server/dispatch.go:211-290 | the QIDs of exactly the longest prefix, or the first name's error; EMFILE and EBADF exactly when a complete walk cannot bind; newfid bound exactly when it can |
| `Walk.WalkRefuses` | server/dispatch.go:158-200 | a missing fid gives EBADF and a malformed name EINVAL, with nothing changed |
| `Walk.WalkClones` | server/dispatch.go:164-184 | without names newfid is bound to the fid's node with one more reference, exactly when it is free and within the limit; the error otherwise |
| `Walk.WalkClosesTheRest` | server/dispatch.go:211-290 | with fresh lookups every other looked-up node is closed exactly once, in order |
| `Walk.WalkClosesOnlyUnused` | server/dispatch.go:505-510 | whatever Lookup returns, neither the start nor a referenced node is closed |
| `Walk.WalkClosesExactly` | server/dispatch.go:238-290 | whatever Lookup returns, the nodes closed are exactly the unused ones stepped off and the one reached if unused and unbound |
| `Walk.WalkBindsClosedIffItCameBack` | server/dispatch.go:238-290 | a walk binds a node it closed exactly when it came back to an unused node it had stepped off |
| `Walk.WalkMovesReferences` | server/dispatch.go:251-288 | one reference more for the node bound, one fewer for the node displaced, no other change |
| `Workers.RunKeepsInv` | server/conn.go:448-567 | lock, idle count and worker count stay exact through spawning, shutdown and exit |
| `Workers.WorkersAreCapped` | server/conn.go:655-666 | at most maxInflight workers exist and at most one holds the receive lock |
| `Workers.ReceiveRoleIsNeverLost` | server/conn.go:448-567 | until shutdown someone reads, is about to, settles a Tversion or ends the connection, or all maxInflight workers serve requests |
| `Workers.ReceiverCanStep` | server/conn.go:719-737 | a held receive role can always take a step |
| `Workers.SpawnsExactlyWhenNeeded` | server/conn.go:655-666 | a replacement starts exactly when a request was read, no worker is parked and fewer than maxInflight live |
| `Workers.RenegotiationHoldsTheLock` | server/conn.go:476-491 | from reading a Tversion until it is settled its worker holds the lock and nobody reads |
| `Workers.BadFrameEndsTheConnection` | server/conn.go:499-560 | a worker that read an undecodable frame or a duplicate tag serves nothing more, and has shut the receive path down when it leaves |
| `Workers.NobodyReadsAfterShutdown` | server/conn.go:460-464 | once recvShutdown is set no worker reads or starts another |
| `Workers.ShutdownBoundsWorkers` | server/conn.go:448-567 | and the workers take boundedly many steps |
| `Workers.MaximalRunHasNoWorkers` | server/conn.go:448-567 | a run no worker can extend has every worker gone |
| `ClientMuxProof.RunKeepsBase` | client/ops.go:54-156 | tags, registrations and the write lock stay consistent whatever the server sends |
| `ClientMuxProof.QuietRunKeepsInv` | client/flush.go:88-218 | with a well-behaved server and quiet registrations every buffered response is for the call that will take it, whenever the server answers from the start of the write on |
| `ClientTheorems.ResponseAnswersOwnRequest` | client/ops.go:54-156 | every response handed to a caller answers its own request, through cancellation, reuse, quarantine and shutdown |
| `ClientTheorems.ReadLoopIsSafe` | client/read_loop.go:135-203 | no send on a closed channel and no write to a returned caller's buffer, whatever the server sends |
| `ClientTheorems.FlushTagForIsOr` | client/flush.go:31-33 | the arithmetic form of the mirror tag is the bit operation |
| `ClientTheorems.MirrorTagsAreDistinct` | client/options.go:50-66 | mirror tags differ from each other, from request tags and from NoTag |
| `ClientTheorems.TagsArePartitioned` | client/tags.go:30-71 | free, held and quarantined tags partition 1..n and only held tags are registered |
| `ClientTheorems.RegistrationFindsItsSlotFree` | client/inflight.go:70-103 | registering overwrites nothing and a flush never waits for a tag |
| `MirrorTheorems.StaleRflushMixesUpCalls` | client/flush.go:88-218 | from any consistent state, registering a mirror tag over a stale Rflush that the call's response can still follow leads, with a server that keeps to the rules and only quiet registrations after it, to a caller handed a response that is not its own |
| `MirrorTheorems.MixupIffNotQuiet` | client/flush.go:88-218 | after any quiet run, a registration can lead to such a mixup exactly when there is such an Rflush and the tag can still be taken |
| `LateRflush.LateRflushMixesUpCalls` | client/flush.go:88-218 | a run of one tag and a well-behaved server in which a late Rflush lands on a reused mirror tag and a caller is handed another caller's response |
| `ClientTheorems.QuarantineIsForever` | client/ops.go:123-135 | a quarantined tag is never handed out again |
| `CallTheorems.AdmissionLasts` | client/ops.go:54-66 | a call keeps the way it was admitted: with or without flush, with or without a buffer |
| `CallTheorems.CancelledUnflushedIsQuarantined` | client/ops.go:123-135 | a cancelled call admitted without flush returns an error with its tag quarantined |
| `CallTheorems.UnflushedCallSendsNoTflush` | client/ops.go:123-135 | it never registers a mirror tag and no Tflush or Rflush of it is under way |
| `CallTheorems.QuarantineFollowsCancel` | client/ops.go:123-135 | and a tag is quarantined for no other reason |
| `CallTheorems.FlushedCallGivesTagBack` | client/flush.go:88-105 | a call admitted with flush gives its tag back whenever it returns with one |
| `CallTheorems.ReceivedIsReturned` | client/ops.go:97-122 | a caller returns exactly the message it received |
| `CallTheorems.ReturnedWasReceived` | client/ops.go:97-122 | and no message it did not receive |
| `CallTheorems.FirstMessageStays` | client/inflight.go:126-145 | the first message delivered stays in its channel, whatever else arrives, until the caller takes it |
| `CallTheorems.AnswerReachesCaller` | client/inflight.go:126-145 | until the last stage of shutdown a response reaches the caller that still waits for it, and an Rflush its flush channel |
| `CallTheorems.RefusedRequestLeaves` | client/write.go:36-70 | a request that does not encode or fit leaves with an error, its tag back and nothing sent |
| `CallTheorems.CallersMayGiveUp` | client/tags.go:46-61 | a caller may give up whenever it waits |
| `CallTheorems.ShutdownRunsInOrder` | client/read_loop.go:271-278 | shutdown closes admission, closeCh and the channels, in that order |
| `CallTheorems.ShutdownWakesWaiters` | client/inflight.go:161-168 | by its end every channel a caller waits on is closed |
| `CallTheorems.NothingIsSentAfterClose` | client/write.go:36-117 | once the connection is closed no frame is begun |
| `ClientTheorems.ShutdownBoundsCallers` | client/conn.go:139-157 | after shutdown nobody is admitted and callers take boundedly many steps |
| `ClientTheorems.CallersCanLeave` | client/write.go:36-117 | with the connection down every caller, in any state, has a step towards its return, or waits for a writer that has |
| `ClientTheorems.ShutdownDrainsCallers` | client/read_loop.go:271-278 | a run no caller can extend has no caller left |
| `ClientObjects.TagAllocator.constructor` | client/tags.go:30-37 | seeds the list with exactly 1..n |
| `ClientObjects.TagAllocator.Acquire` | client/tags.go:46-61 | takes a free tag, and fails only when there is none |
| `ClientObjects.TagAllocator.Release` | client/tags.go:65-71 | gives the tag back; the channel always has room |
| `ClientObjects.InflightMap.Register` | client/inflight.go:70-103 | the tag awaits a frame on a new open channel of its own, and what every other tag awaits is unchanged |
| `ClientObjects.InflightMap.Unregister` | client/inflight.go:150-154 | the tag awaits nothing any more, so its frames are dropped; every other tag is unaffected |
| `ClientObjects.InflightMap.Deliver` | client/inflight.go:126-145 | a frame reaches the channel of its own tag exactly if the tag awaits one, touches no other channel, and never meets a closed one |
| `ClientObjects.InflightMap.CancelAll` | client/inflight.go:161-168 | closes every registered channel and none twice, keeps what they hold, and empties the map |
| `ClientObjects.FidAllocator.Acquire` | client/fidalloc.go:53-66 | a number neither NoFid nor waiting for reuse, failing only when none is left |
| `ClientObjects.FidAllocator.Release` | client/fidalloc.go:72-78 | puts the number in the reuse cache, or drops it when the cache is full |
| `ClientObjects.FidsAreHandedOutOnce` | client/ops.go:301-320 | no fid is handed out while bound, and one whose cleanup Tclunk went unanswered never again |
| `Chunks.MaxChunk` | client/file.go:213-228 | never zero, its Twrite and Rread frames fit msize, and it is as large as iounit, MaxDataSize and the frame margin allow |
| `Chunks.Clamp` | server/bridge.go:184-188 | the reply to a clamped count fits msize, and only a count too large for it is clamped |
| `Chunks.ClampIOUnit` | server/bridge.go:113-119 | the hint when it fits msize, and otherwise the largest unit that does |
| `Dirents.EncodeDirentsInto` | proto/dirent.go:46-86 | the buffer holds exactly the entries that fit, in order, and nothing past them is touched |
| `Dirents.ParseDirents` | proto/dirent.go:94-118 | the parse, with the entries before a corruption |
| `Dirents.DirentsRoundTrip` | proto/dirent.go:46-118 | parsing packed entries gives them back |
| `Dirents.PackedFillsRoom` | proto/dirent.go:46-86 | what is packed is the longest run of packable entries, from the first on, that fits |
| `Dirents.ParseCanonical` | proto/dirent.go:94-118 | what is parsed, encoded again, is the data up to its end or to the first entry cut short |
| `ReadDir.DirFid.Readdir` | server/bridge.go:442-488 | refetch at offset zero, cookies, clamped start, and a failed refetch drops the cache |
| `ReadDir.DirFile.ReadDir` | client/readdir.go:27-104 | the next n visible entries, or all the rest, with no error; the cursor leaves exactly what remains |
| `ReadDir.ReadPages` | client/readdir.go:27-104 | a sequence of calls returns the successive pages or the server's error; on a file just opened the pages joined are the listing in order, and all of it once n <= 0 was asked exactly when every entry fits |
| `ReadDir.ResumeAfter` | server/bridge.go:466-480 | resuming at an entry's cookie sees exactly the entries after it |
| `ReadDir.VisibleIffAllFit` | proto/dirent.go:49-62 | the whole listing is visible exactly when every entry fits a reply of its own |
| `ReadDir.ListingIsReadInOrder` | client/readdir.go:27-104 | the same of the pages as values: what is read is a prefix of what is visible, and of the listing when every entry fits |
| `FileIO.MemFile.Read` | server/memfs/memfs.go:94-104 | the part of the file the buffer covers |
| `FileIO.MemFile.Write` | server/memfs/memfs.go:108-123 | the data in its range, every other byte as it was, zeros in a gap; in place or in a new store; or EFBIG with nothing changed |
| `FileIO.MemFile.Truncate` | server/memfs/memfs.go:146-173 | cuts, or extends with zeros, or EFBIG |
| `FileIO.MemFile.CheckedSize` | server/memfs/memfs.go:175-180 | the end of the write exactly when the file stays within its limit |
| `FileIO.FileServer.HandleRead` | server/bridge.go:143-215 | the clamped slice, in a frame that fits msize |
| `FileIO.FileServer.HandleWrite` | server/bridge.go:219-305 | the whole write or EFBIG |
| `FileIO.ClientFile.WriteAt` | client/file.go:534-561 | the file holds the first n bytes of p at off and its old bytes elsewhere; complete exactly within the limit, else stopped at the first chunk past it |
| `FileIO.ClientFile.ReadAt` | client/file.go:442-471 | p holds exactly the file slice, EOF exactly when short, and bytes past n are untouched |
| `FileIO.SplicedBytes` | server/memfs/memfs.go:108-123 | byte by byte: the data in its range, every other byte as it was, zeros in a gap |
| `FileIO.SliceBytes` | server/memfs/memfs.go:94-104 | byte by byte: the file from the offset on, as much as there is and fits |
| `FileIO.SpliceJoin` | client/file.go:545-559 | consecutive chunks splice as one write |
| `FileIO.ReadBack` | client/file.go:442-561 | what was written is read back |
| `FileIO.RegrownTailIsZero` | server/memfs/memfs.go:163-171 | a truncated tail reads as zeros when the file grows over it |
| `Xattr.WriteFid.Create` | server/bridge.go:1106-1168 | state, size and support checks in order, and a fresh buffer |
| `Xattr.WriteFid.Write` | server/bridge.go:225-257 | acknowledged exactly when not closing and within the declared size; the buffer is the acknowledged writes |
| `Xattr.WriteFid.Clunk` | server/dispatch.go:309-351 | SetXattr only with the concatenation of all acknowledged writes at exactly the declared length; size zero removes |
| `Xattr.WriteValue` | client/advanced_xattr.go:228-245 | the chunk loop sends the value in order in frames that fit msize, and completes exactly when its first chunk can be encoded |
| `Xattr.XattrSet` | client/advanced_xattr.go:191-252 | the node is called with exactly the given value or not at all, and exactly when |
| `Xattr.XattrGet` | client/advanced_xattr.go:60-139 | the cached value comes back whole for every msize, up to MaxDataSize |
| `Xattr.EncodeList` | server/bridge.go:1042-1066 | the names, each followed by a NUL |
| `Xattr.FilterNames` | client/advanced_xattr.go:276-285 | the non-empty pieces in order |
| `Xattr.ListRoundTripsIffLegal` | client/advanced_xattr.go:268-286 | listing returns the names exactly when none is empty or holds a NUL |
| `Wire.LERoundTrip` | proto/encode.go:61-114 | an integer that fits its width is read back |
| `Wire.UnLERoundTrip` | proto/decode.go:30-85 | every byte string is the form of the integer it decodes to |
| `Wire.PutLE` | proto/frame.go:44-46 | stores the bytes in place and touches nothing else |
| `Fields.SimpleRoundTrip` | proto/decode.go:95-158 | integers, strings and QIDs are read back with the rest untouched |
| `Fields.SimpleCanonical` | proto/decode.go:95-158 | and only their encodings are accepted |
| `Fields.StatSizeCountsBytes` | proto/p9u/messages.go:247-263 | the arithmetic of EncodedSize counts the bytes EncodeTo writes |
| `Messages.FieldRoundTrip` | proto/messages.go:280-370 | walk lists, data and stats are read back with the rest untouched, a stat with its size filled in |
| `Messages.FieldCanonical` | proto/messages.go:302-370 | only their encodings are accepted, and a decoded stat has its size right |
| `Messages.WrappedStatIsRejected` | proto/p9u/messages.go:430-463 | a stat of 65534 or 65535 bytes is encoded with a wrapped nstat that no decoder accepts |
| `Messages.BuildFields` | proto/p9u/codec.go:26-53 | each message of the dialect is rebuilt from its fields |
| `Messages.FieldsBuild` | proto/p9u/codec.go:26-53 | and its fields are those it was built from |
| `WireFormat.BodyIsFormat` | proto/message.go:57-84 | the type byte and the body of every message are those of an independent table of the protocol, field by field |
| `WireFormat.FrameIsFormat` | proto/frame.go:34-52 | a frame is its length, its type, its tag and that body, each at its offset |
| `WireFormat.DirentIsFormat` | proto/dirent.go:46-86 | a directory entry is qid, offset, type and name |
| `WireFormat.EncodesIffWithinLimits` | proto/encode.go:116-150 | the encoder refuses a message exactly when a string, list, payload or stat is too long |
| `Frames.FrameFits` | proto/frame.go:12-20 | no message the encoder takes exceeds MaxMessageSize |
| `Frames.FrameRoundTrip` | proto/frame.go:34-108 | tag and message come back, stat sizes filled in, and exactly the rest is left |
| `Frames.StreamRoundTrip` | proto/frame.go:34-108 | the same for any list of frames |
| `Frames.FrameCanonical` | proto/frame.go:64-108 | a frame decodes only from its own encoding, trailing bytes included |
| `Frames.StreamCanonical` | proto/frame.go:64-108 | the same for any list of frames |
| `Frames.RoundTripsIffUnwrapped` | proto/p9u/messages.go:430-512 | of all messages the encoder takes, exactly those with a stat of at most 65533 bytes come back, with the stat's size filled in, and unchanged exactly when it was right |
| `CodecObjects.Reader.ReadFields` | proto/messages.go:302-331 | reading field by field is the decoder function, and leaves the reader after it |
| `CodecObjects.Reader.ReadStat` | proto/p9u/messages.go:329-463 | both nested limits must be used up exactly |
| `CodecObjects.ReadFrame` | proto/frame.go:64-108 | reads one frame and nothing past it |
| `CodecObjects.Buffer.WriteFields` | proto/messages.go:280-300 | writes the fields in order and fails exactly on one that cannot be encoded |
| `CodecObjects.WriteFrame` | proto/frame.go:34-52 | the patched buffer is the frame, and encoding fails exactly when a field cannot be encoded |
| `FastPaths.ZeroCopyRread` | client/read_loop.go:135-203 | accepts by its own checks, fills the buffer with what decoding yields, and touches nothing else |
| `FastPaths.ZeroCopyRefinesDecode` | client/ops.go:336-355 | accepts exactly when decoding and the count check do, with the same bytes |
| `FastPaths.LongBufferRefusesGoodReply` | client/read_loop.go:158-170 | a buffer of 2^32 bytes would refuse a good reply |
| `FastPaths.BufDecodeAgreesIffNoWrap` | proto/messages.go:538-582 | the two Twrite decoders agree on success and fields exactly when the length does not wrap |
| `FastPaths.FramesDoNotWrap` | proto/messages.go:567-582 | no frame is long enough to wrap |
| `FastPaths.WrappingBodyExists` | proto/messages.go:567-582 | a body on which they differ |
| `FastPaths.SplitEncodingIsWhole` | proto/messages.go:498-533 | EncodeFixed followed by the payload is the whole body |
| `FastPaths.SplitTwriteIsRead` | proto/messages.go:498-582 | and the zero-copy decoder reads it back |

## Left out

- Sockets, deadlines, keepalive, backoff and transports: a timeout or a broken connection is a step that may happen at any time.
- Granularity: reading a frame and registering its tag are one step, as are a fid table change and the reference count change that follows, and the Txattrcreate check and its state change.
- Handler panics are modelled up to the error being written; that legal reuse is accepted on that path is not claimed.
- Node close is a safety claim only: displaced nodes and the node of a committed xattr-write fid are never closed by the source, and the model says so by not closing them.
- Deferral of a release is per fid: a node shared by two fids does not wait for the other fid's I/O, and nothing is claimed about that.
- Nodes that a file system hands out again are bound by Attach and Rebind steps; that walks may close them while unreferenced is not modelled in the fid machine.
- Nodes that do not embed an Inode are not reference counted by the source; the fid machine covers those that do. Pruning of the Inode tree is not modelled.
- Walk.Handler.HandleWalk: other handlers act on the fid table between its steps, through the `later` table; the reference counts of nodes they share are held fixed there, and are free in the fid machine.
- Path bookkeeping of fids, metrics, logging, middleware, options and the rate limit on Tversion.
- ReadDir.DirFile.ReadDir: the server is this server; transport errors and malformed replies end the loop in the source and are not given contents here.
- ClientObjects.FidsAreHandedOutOnce: covers cleanupFid; walk error paths that release a fid on any error are not modelled.
- The admission gate, the write path and the read loop of the client, and the request context pool of the server, are steps of the machines rather than objects.
- LimitedReader: a nested stat is decoded from the bytes its limit lets through; reading past a limit and leaving part of one unread are both refusals, as in the source.
- The 9P2000.L messages: their fields are of the kinds proved here; only directory data is carried further.
- Raw xattr and readdir interfaces, other user callbacks, passthrough and errno tables, session manager, path helpers, buffer and message pools.
