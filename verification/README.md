# tlswrapper v4: a verified model

A Dafny model of the protocols and the data path of tlswrapper's v4 tree, with proofs.
`dafny verify dfyconfig.toml` checks all of it.

The concurrent protocols are step systems. Each lock region, atomic operation, channel
operation, goroutine launch, callback or Close is one step, taken by any number of
threads in any order; `Run` folds a sequence of steps and is `None` when some step was
not possible. The results hold of the state after every run. The sequential code is
classes, arrays and loops, each method proved against a specification function whose
meaning is proved in lemmas beside it.

| module | models |
|---|---|
| `StreamDelivery` | server-opened h2mux streams: `serverSession.Open` against `DeliverStream`, with `Accept` and `Close` |
| `Forwarder` | the lifecycle of forwarded pairs: `Start`, `SetLimit`, cleanup and `Close` |
| `TunnelSessions` | sessions of outbound tunnels and of accepted ones: `dial`, `addSession`, `finalizeSession`, `Stop`, `serveSession` |
| `Reload` | `Server.loadTunnels`, all four parts with their failure paths |
| `Wire`, `ChunkCodec`, `GrpcStream` | the Protocol Buffers wire format of a `Chunk`, the zero-copy codec, and the byte stream on top |
| `BufferPool` | the tiered buffer pool |
| `EventLog` | the coalescing event ring |
| `InboundHandshake` | the double-checked one-time handshake of an inbound session |
| `HandshakeFraming` | the h3mux control-stream handshake |
| `Common`, `Counting`, `Decimal` | helpers: shared types, sizes of filtered tables, decimal rendering |

Where a promise in the code's comments or its design is not quite what the code does, the
model follows the code and says exactly how far the promise goes:

- A request id is a 64-bit counter in decimal. Once the counter has gone all the way
  round, a registration can replace a live entry of `pending`, and the exclusivity that
  v4/mux/h2mux/session.go:78-80 states is lost for the Open it belonged to. Ownership of
  streams is not affected: `SingleOwner` and its companions hold of every run. What fails
  is that every undecided Open can be found: `StreamDelivery.LostExactly` and
  `ExactIffClean` say that it fails exactly where a registration finds its id pending,
  `FewOpensStayClean` that this cannot happen within the first 2^64 ids, `LostForever` that
  the Open is then stranded for good, and `WraparoundStrandsAWaiter` gives a run.
- v4/tunnel.go:388-390 says that `addSession` should not meet an open session because
  dials are serialised. `TunnelSessions.SecondDialMeetsOpenSession` gives a run in which
  it does, and `MeetsOpenExactly` says when: if and only if that session was current and
  open when the dial call took `dialMu`, and still is. `AtMostOneOpen` shows that the
  branch there keeps at most one session open all the same.
- After the shutdown order (group closed, then `forwarder.Close`) a `Start` that was
  admitted earlier can still track two open conns. Its first launch must fail, but it
  holds them open until its own cleanup has run, not only until that launch.
  `Forwarder.OpenAfterShutdownExactly` says which conns are open then, in both directions;
  `LateStartIsOpenUntilUndone` gives a run, and `ShutdownLeavesNothingOpen` shows that no
  copy runs on an open conn and that nothing stays open once the threads are done.

## Model

| member | source | states |
|---|---|---|
| Decimal.ValueOfFormat | v4/mux/h2mux/session.go:302 | the decimal rendering of a counter value denotes that value, so different values give different request ids |
| StreamDelivery.StepKeeps | v4/mux/h2mux/session.go:76-122 | every step of every Open, delivery, Accept and Close keeps the ownership invariant, whatever the peer does and even if a request id comes round again |
| StreamDelivery.RunKeeps | v4/mux/h2mux/session.go:294-361 | the ownership invariant holds after every run |
| StreamDelivery.LostExactly | v4/mux/h2mux/session.go:302-323 | in every run an Open can no longer be found (undecided without entry, or draining without claimant) if and only if a registration replaced its entry |
| StreamDelivery.LostForever | v4/mux/h2mux/session.go:302-350 | such an Open never returns in any continuation, and nothing is ever sent to it |
| StreamDelivery.ExactIffClean | v4/mux/h2mux/session.go:302-306 | over every run, the pending map is exact in every state if and only if no registration found its id still pending |
| StreamDelivery.FewOpensStayClean | v4/mux/h2mux/session.go:302-306 | a run that draws at most 2^64 request ids never overwrites a pending entry, whatever the peer does |
| StreamDelivery.WraparoundStrandsAWaiter | v4/mux/h2mux/session.go:302-323 | a concrete run past 2^64 ids overwrites a live entry and leaves a waiter draining an empty channel, and in every continuation it stays there and no delivery serves it |
| StreamDelivery.SingleOwner | v4/mux/h2mux/session.go:76-98 | in every reachable state each delivered stream is in exactly one place: with its deliverer, in one waiter's channel, being discarded, returned by one Open, in the accept queue, accepted, or closed; it is closed at most once |
| StreamDelivery.OwnerIsWhere | v4/mux/h2mux/session.go:76-108 | the place of a stream is determined by its delivery and its claimant, in both directions |
| StreamDelivery.ReturnsItsOwnStream | v4/mux/h2mux/session.go:302-341 | Open for an id returns only a stream delivered with that id, no two Opens return the same stream, and the stream is neither closed nor queued for Accept |
| StreamDelivery.AcceptIsFifo | v4/mux/h2mux/session.go:100-122 | Accept returns the queued streams in order, each once, nothing lost, and only streams that carried no request id |
| StreamDelivery.WaiterNeverStarves | v4/mux/h2mux/session.go:308-350 | in every run at most one send ever happens on a waiter's channel, and a waiter told it was claimed has the stream in its channel or a deliverer whose next step is that send if and only if its entry was not overwritten |
| StreamDelivery.DelivererNeverBlocks | v4/mux/h2mux/session.go:81-97 | a deliverer that claimed a waiter always finds room in its channel |
| StreamDelivery.PendingIsExact | v4/mux/h2mux/session.go:81-86 | an Open is in the pending map if and only if it is registered, undecided and claimed by nobody; this fails exactly for undecided Opens whose entry was overwritten |
| StreamDelivery.OpenLeavesNothing | v4/mux/h2mux/session.go:294-351 | an Open that is over has an empty channel and no pending entry, and once all Opens are over pending is empty |
| StreamDelivery.NothingLeaks | v4/mux/h2mux/session.go:76-98 | a stream whose deliverer is done was closed exactly once or handed to one Open of its id, which by its end has returned it or closed it exactly once |
| StreamDelivery.DeliveredToItsWaiter | v4/mux/h2mux/session.go:76-98 | in every run a delivery with a request id is handed to an Open if and only if that Open is undecided, unclaimed, not overwritten and of that id, and refused if and only if there is none |
| StreamDelivery.ClaimedCanReturn | v4/mux/h2mux/session.go:95-98 | a waiter so claimed has a continuation in which it returns that very stream |
| StreamDelivery.WaiterCanReturn | v4/mux/h2mux/session.go:294-341 | a waiting Open whose entry was not overwritten can still return a stream: the peer only has to dial back with its id |
| StreamDelivery.FailsForItsReason | v4/mux/h2mux/session.go:294-351 | in every run an Open fails exactly with the reason its events give: closed or rejecting when it began, a failed send, a timeout, a closed session |
| StreamDelivery.QueuedOrRefused | v4/mux/h2mux/session.go:100-107 | a stream without an id is queued or refused exactly as its deliverer's step says, and refused only if the session was closed |
| StreamDelivery.AcceptsInTurn | v4/mux/h2mux/session.go:110-122 | the n-th Accept returns the n-th stream queued, over the events of every run |
| StreamDelivery.ThreadsGoOn | v4/mux/h2mux/session.go:76-122 | no thread is ever stuck except an Open whose entry was overwritten; a delivery without an id waits exactly while 16 streams are queued and the session is open |
| Forwarder.StepKeeps | v4/forwarder/forwarder.go:155-253 | every step of every Start, copy goroutine, SetLimit, group close and Close keeps the invariant |
| Forwarder.RunKeeps | v4/forwarder/forwarder.go:155-253 | the invariant holds after every run |
| Forwarder.AdmissionBound | v4/forwarder/forwarder.go:108-169 | the admitted, uncleaned pairs never outnumber the largest limit set so far, although count itself may overshoot |
| Forwarder.CallbackOrder | v4/forwarder/forwarder.go:172-204 | a handler sees OnWriteClosed once per direction and then OnClosed, each at most once; by OnClosed both conns are closed and untracked and the slot is free; no callback without a successful first launch |
| Forwarder.CallbacksComplete | v4/forwarder/forwarder.go:172-234 | when both directions of a launched pair have ended, all three callbacks have run exactly once and both conns are closed and untracked, also when the second launch failed; a Start without a launch tells nobody and leaves nothing |
| Forwarder.ForceClosedExactly | v4/forwarder/forwarder.go:175-200 | in every run, a direction that ended without half-close has both conns closed by the time it notifies, and while the countdown is on the conns are closed if and only if that has happened or a Close came after they were tracked; so a clean end leaves the other direction going |
| Forwarder.RefusedExactly | v4/forwarder/forwarder.go:161-164 | a Start takes the number after all pairs admitted or being decided, and is refused if and only if that exceeds the limit set last in the events |
| Forwarder.ResultIsItsFate | v4/forwarder/forwarder.go:155-235 | every Start returns exactly the result its events call for: success if and only if both launches succeeded, else the failed launch, the limit, or the closed group |
| Forwarder.ThreadsGoOn | v4/forwarder/forwarder.go:155-235 | no Start and no direction is ever stuck, and launches can succeed exactly while the group is open |
| Forwarder.CountersExact | v4/forwarder/forwarder.go:165-204 | in every state count is the admitted, uncleaned pairs plus the Starts awaiting their verdict, and numHalfOpen the pairs with exactly one finished direction up to the threads between countdown and update; with no thread mid-update both are exact |
| Forwarder.ShutdownLeavesNothingOpen | v4/server.go:1005-1006 | after the shutdown order each tracked conn is closed or belongs to a Start whose first launch is still to fail or is being undone, no copy runs on an open conn, no launch can succeed, and a finished pair leaves nothing open or tracked |
| Forwarder.OpenAfterShutdownExactly | v4/forwarder/forwarder.go:165-253 | after the shutdown order a tracked conn of a pair is open if and only if its Start tracked it after the last Close and has yet to attempt its first launch, or failed it and has not closed both conns |
| Forwarder.RunKeepsOpenSince | v4/forwarder/forwarder.go:165-253 | in every run, until a pair is launched its conns are closed only by its own cleanup or by a Close that found them tracked |
| Forwarder.LateStartIsOpenUntilUndone | v4/forwarder/forwarder.go:165-209 | a concrete run in which a late Start holds open tracked conns after its failed first launch |
| TunnelSessions.StepKeeps | v4/tunnel.go:378-441 | every step of every dial, finalization, Stop and served session keeps the invariant |
| TunnelSessions.RunKeeps | v4/tunnel.go:477-530 | the invariant holds after every run |
| TunnelSessions.AtMostOneOpen | v4/tunnel.go:378-402 | of all sessions ever installed on a tunnel at most one is open, and it is the tunnel's current one |
| TunnelSessions.StopClosesAll | v4/tunnel.go:163-176 | once Stop has returned, every session ever installed on the tunnel is closed |
| TunnelSessions.StopIsFinal | v4/tunnel.go:378-388 | whatever happens after Stop has returned, no further session is installed and all stay closed |
| TunnelSessions.DialLeavesNothing | v4/tunnel.go:477-530 | the session a returned dial call produced is installed if it was returned and closed if an error was |
| TunnelSessions.ResultIsItsFate | v4/tunnel.go:477-530 | every dial call returns exactly the result its events call for: another call under way when it began, a failed dialer, a Stop before addSession's test, a failed launch, or all launches made |
| TunnelSessions.LaunchesDecide | v4/tunnel.go:496-529 | a returned dial call that installed its session reports success if and only if its watcher, closer and accept loop were all launched; otherwise it reports the failed launch and the session is closed |
| TunnelSessions.OpenUntilShut | v4/tunnel.go:163-176 | in every run a session is open until the peer, its dial call giving up, a Stop that saw it, or an install over it closes it, and closed from then on |
| TunnelSessions.StopFollowsItsSteps | v4/tunnel.go:163-176 | in every run Stop is exactly as far as its steps |
| TunnelSessions.ServeFollowsItsSteps | v4/server.go:569-596 | in every run serveSession is exactly as far with a session as its steps |
| TunnelSessions.FinalizedOnce | v4/tunnel.go:415-441 | a session is counted, flushed, uncounted and finalized at most once each and in that order, an outbound one only after it closed, and exactly once each by the time its threads are done if it was installed or served |
| TunnelSessions.CountersExact | v4/server.go:569-583 | over outbound and accepted sessions together numSessions is ups minus downs, which is never negative, modulo 2^32; with no session mid-update that is created minus finalized |
| TunnelSessions.DialNeverStuck | v4/tunnel.go:477-530 | a dial call that has not returned always has a step of its own, or of the holder of the tunnel's lock, that can happen |
| TunnelSessions.FinalizationNeverStuck | v4/tunnel.go:415-441 | whoever finalizes a session has its next step, except that a watcher waits for its session to close and the lock region for a holder that can go on |
| TunnelSessions.StopNeverStuck | v4/tunnel.go:163-176 | Stop always has its next step, or waits for a holder of the lock that can go on |
| TunnelSessions.SecondDialMeetsOpenSession | v4/tunnel.go:389-392 | a concrete run in which addSession finds an open session and closes it |
| TunnelSessions.MeetsOpenExactly | v4/tunnel.go:389-392 | in every run, addSession of a dial call closes a session if and only if that session was current and open when the call took dialMu and has not closed since |
| TunnelSessions.NoneBecomesCurrent | v4/tunnel.go:483-486 | while a dial call holds dialMu and has not installed, no step makes a session current |
| Reload.KeptIsIntersection | v4/server.go:771-777 | for each address exactly min(old, new) tunnels survive |
| Reload.KeptInOrder | v4/server.go:771-777 | the survivors are the same tunnels in their old relative order |
| Reload.KeptAndDropped | v4/server.go:771-783 | every old tunnel survives or is stopped, exactly once |
| Reload.ReconciledAddrs | v4/server.go:762-798 | the new list has exactly the configured addresses, with multiplicity, and starts with the survivors |
| Reload.ReconciledIdempotent | v4/server.go:762-798 | a list that already has the configured addresses is left as it is |
| Reload.BalancedMeaning | v4/server.go:679-800 | balance means: every handle ever created is referenced once or stopped (closed) once, never both, never neither |
| Reload.CountAddrs | v4/server.go:767-770 | the desired map counts every configured address |
| Reload.Server.ReconcileMain | v4/server.go:685-703 | the main tunnel has the configured address or is absent, the old one is kept or stopped, and only a changed address makes a new one |
| Reload.Server.ReconcileLocal | v4/server.go:705-728 | the local listener has the configured address or is absent, absent against the configuration only if bind or launch failed, untouched if the address is unchanged |
| Reload.Server.RetainListeners | v4/server.go:730-743 | exactly the identity listeners whose configured address is unchanged stay, the same objects, and the rest of the configuration is left to open |
| Reload.Server.OpenListeners | v4/server.go:744-760 | of the listeners to open exactly those whose bind and launch succeed are added, at their configured addresses; the others are not left open |
| Reload.Server.ReconcileListeners | v4/server.go:730-760 | every identity listener present is configured with its address, a configured one is missing only if its bind or launch failed in this call, unchanged ones are the same objects |
| Reload.Server.Compact | v4/server.go:771-784 | the compaction over the shared backing array, which never overwrites an unread element, leaves exactly the survivors and stops exactly the surplus in order |
| Reload.Server.Append | v4/server.go:792 | append, in place or into a grown array, adds one tunnel at the end |
| Reload.Server.ReconcileTunnels | v4/server.go:762-798 | the list becomes the survivors followed by new tunnels for the missing addresses in configuration order |
| Reload.Server.LoadTunnels | v4/server.go:679-800 | from any state and under any failures: tunnels match the configuration, survivors are kept and the surplus stopped, listeners are those configured or failed now, balance is kept; the verdict is success exactly when the configured state is reached and all new tunnels started, always so without failures, and the configured state is left unchanged |
| Reload.Reloads | v4/server.go:679-800 | after any sequence of reloads with any failures, every tunnel created is referenced exactly once or was stopped exactly once, every listener opened is referenced or closed exactly once, all tunnels are those of the last configuration, a listener is missing only if it failed in the last call, and success means the configured state |
| Wire.VarintRoundTrip | v4/mux/h2mux/codec.go:51-52 | consuming an appended varint gives its value and length back, whatever follows |
| Wire.VarintPrefix | v4/mux/h2mux/codec.go:75-82 | a varint that parses is not affected by what follows it |
| Wire.VarintIsUInt64 | v4/mux/h2mux/codec.go:79 | a parsed varint is below 2^64 |
| Wire.SingleField | v4/mux/h2mux/proto/mux.proto:11-13 | a message that is one data field running to its end decodes to that field's bytes |
| Wire.ChunkRoundTrip | v4/mux/h2mux/proto/mux.proto:11-13 | decoding an encoded chunk gives its payload back |
| Wire.VarintExact | v4/mux/h2mux/codec.go:79-82 | parsing accepts exactly the varints of at most ten bytes that fit 64 bits, minimal or not, and yields the number their groups denote |
| Wire.SkipsField | v4/mux/h2mux/codec.go:66-69 | a field other than data, of any type and with groups nested up to the limit, leaves the result as if it were not there; nested deeper it fails |
| Wire.TakesData | v4/mux/h2mux/proto/mux.proto:11-13 | a data field replaces what was decoded before |
| Wire.DecodesToLastData | v4/mux/h2mux/codec.go:99-108 | every message of valid fields decodes to its last data field, and fails exactly if some group nests too deep |
| Wire.DecodesOn | v4/mux/h2mux/codec.go:99-108 | decoding is incremental: what follows a message that decodes is decoded on top of its result |
| Wire.TruncatedMessageFails | v4/mux/h2mux/codec.go:99-108 | a message whose last field has its value cut short fails |
| Wire.BadTagFails | v4/mux/h2mux/codec.go:99-108 | a field number out of range, an end of group nothing started and the reserved types make a message fail |
| Wire.BrokenGroupFailsMessage | v4/mux/h2mux/codec.go:99-108 | a group with a bad tag, or ended under another number, makes the message fail |
| ChunkCodec.RawChunk.Marshal | v4/mux/h2mux/codec.go:41-58 | the output is the protobuf encoding of the chunk, in at most one buffer |
| ChunkCodec.RawChunk.Unmarshal | v4/mux/h2mux/codec.go:60-97 | the loop leaves the received buffers with the header cut off, or the slow path's result; errors leave none |
| ChunkCodec.RawChunk.UnmarshalSlow | v4/mux/h2mux/codec.go:99-108 | the payload of the full decoder, as at most one buffer |
| ChunkCodec.FastPathAgrees | v4/mux/h2mux/codec.go:70-97 | whenever the zero-copy tests pass on the first buffer, the full decoder succeeds on the whole message with the same payload |
| ChunkCodec.UnmarshalAgrees | v4/mux/h2mux/codec.go:60-108 | for every message and every split, Unmarshal fails exactly when the protobuf decoder does and otherwise yields its payload |
| ChunkCodec.UnknownFieldsAreSkipped | v4/mux/h2mux/codec.go:66-108 | a message of any valid fields, split in any way, arrives as its last data field |
| ChunkCodec.ZeroCopyTaken | v4/mux/h2mux/codec.go:74-97 | if the header of an encoded chunk lies in the first buffer, the buffers handed out are the received ones with that header cut off |
| ChunkCodec.SplitIndependent | v4/mux/h2mux/codec.go:60-108 | the result does not depend on the split into buffers |
| ChunkCodec.AnySplitRoundTrips | v4/mux/h2mux/codec.go:41-108 | an encoded chunk arrives as its payload, however it is split |
| GrpcStream.Stream.Read | v4/mux/h2mux/stream.go:66-88 | Read does to buffers, inbox and destination what the specification says, on every inbox |
| GrpcStream.Stream.Write | v4/mux/h2mux/stream.go:134-176 | one encoded chunk is sent unless the data is empty or sending fails, and the count returned is all or nothing |
| GrpcStream.ReadingIsFaithful | v4/mux/h2mux/stream.go:66-88 | on well-formed messages a Read takes its bytes off the front of what is unread; it returns data exactly while something is unread, at least one byte if asked for one, then the first error that has arrived, and waits otherwise |
| GrpcStream.RunKeeps | v4/mux/h2mux/stream.go:66-176 | everything written is read, buffered, received or on the wire, in that order, after every run |
| GrpcStream.StreamIsFaithful | v4/mux/h2mux/stream.go:66-176 | for any writes, splits and read sizes and whenever the stream ends, the bytes read are a prefix of the bytes written; a Read that waits or returns an error has returned everything that arrived, which is everything written once the wire is empty |
| GrpcStream.ReadMakesProgress | v4/mux/h2mux/stream.go:66-88 | while written bytes have arrived unread, a Read returns at least one |
| GrpcStream.BlocksExactly | v4/mux/h2mux/stream.go:66-88 | Read keeps waiting if and only if nothing is buffered and only empty chunks are queued; an error or a non-empty chunk ends it |
| GrpcStream.FirstItemDecides | v4/mux/h2mux/stream.go:66-88 | on any inbox, with nothing buffered, the first item that is not an empty chunk decides: Read returns that error, fails on that undecodable message, or returns data from the front of that payload, and leaves later items alone |
| GrpcStream.BufferedFirst | v4/mux/h2mux/stream.go:66-81 | buffered bytes are returned first and nothing is received for them |
| GrpcStream.CanBeDrained | v4/mux/h2mux/stream.go:66-88 | a run that has not ended can always be drained: deliveries and Reads alone bring out every byte written |
| GrpcStream.WrittenIsEvents | v4/mux/h2mux/stream.go:134-176 | the bytes written are those of the Write calls, in order |
| BufferPool.Pool.Get | v4/mux/h2mux/bufferpool.go:49-59 | the buffer has exactly the requested length within its capacity, comes from the first tier long enough or is made of that tier's size, is made to measure if none is, and is not one that is still lent out |
| BufferPool.Pool.Put | v4/mux/h2mux/bufferpool.go:61-70 | any buffer, foreign or shrunk since Get, goes to the tier its present capacity fits or is dropped if it is too small for all |
| BufferPool.Pool.Drop | v4/mux/h2mux/bufferpool.go:38-47 | dropping a pooled buffer at any time keeps every tier in order |
| BufferPool.History | v4/mux/h2mux/bufferpool.go:38-70 | after any history of Get, Put, foreign Puts, shrinking of outstanding buffers and drops in which callers return each buffer at most once, every tier is in order, no buffer is pooled twice, and the outstanding buffers are all different, not pooled, and of the lengths asked for less what was cut off |
| BufferPool.Step | v4/mux/h2mux/bufferpool.go:38-70 | one such operation keeps all of this |
| EventLog.Recent.Add | v4/eventlog/eventlog.go:41-64 | the ring's contents become the newest entries of the old contents with the event merged or appended |
| EventLog.Recent.Format | v4/eventlog/eventlog.go:66-90 | the newest min(n, length) entries are written newest first, up to the first failing write |
| EventLog.LineTellsEntry | v4/eventlog/eventlog.go:66-90 | a line tells its entry, and shows a repeat count exactly if it is not 1 |
| EventLog.NewestCoalesced | v4/eventlog/eventlog.go:41-64 | forgetting old entries before or after an event makes no difference |
| EventLog.RingRefinesLog | v4/eventlog/eventlog.go:41-90 | after any history the ring holds the newest entries of the unbounded coalesced log |
| EventLog.History | v4/eventlog/eventlog.go:41-64 | a log of any size limit from 1 on, after any history of Adds, contains the newest entries of the unbounded coalesced log |
| EventLog.LogIsRunLengthCode | v4/eventlog/eventlog.go:41-64 | that log is the run-length code of the history: it spells out all messages, adjacent entries differ, and the newest has the message and timestamp of the newest event |
| EventLog.RunIsDatedByItsLast | v4/eventlog/eventlog.go:41-64 | every entry of it carries the message and the timestamp of the last event of the run it stands for |
| InboundHandshake.StepKeeps | v4/mux/h2mux/connect.go:90-121 | every step of every caller keeps the invariant |
| InboundHandshake.RunKeeps | v4/mux/h3mux/connect.go:236-266 | the invariant holds after every run |
| InboundHandshake.RunKeepsResults | v4/mux/h3mux/connect.go:236-266 | in every run the body's result is nowhere yet, with the caller about to publish it, or in the fields |
| InboundHandshake.BodyRunsAtMostOnce | v4/mux/h2mux/connect.go:90-109 | the handshake body runs at most once, by one caller |
| InboundHandshake.HandshakeOnce | v4/mux/h2mux/connect.go:90-121 | once any call has returned, the body has run and finished exactly once, and the call reports what it produced: its error to every caller, the session it established to delegate, success to Handshake, although the flag and the result are read without the lock |
| InboundHandshake.CallsGoOn | v4/mux/h2mux/connect.go:90-121 | a call that has not returned has a step or waits for a lock whose holder has one, and every step brings it nearer to its return |
| InboundHandshake.NoLockOnceDone | v4/mux/h2mux/connect.go:90-95 | a call that starts after the handshake is done never takes the lock |
| HandshakeFraming.FramingIsExact | v4/mux/h3mux/handshake.go:23-61 | a read yields a body and a rest if and only if the input is that body's frame followed by that rest and the body is at most 4096 bytes |
| HandshakeFraming.BadFramesAreRefused | v4/mux/h3mux/handshake.go:43-61 | a frame cut short or announcing more than 4096 bytes is refused with the error that says so |
| HandshakeFraming.ReadFramesInverts | v4/mux/h3mux/handshake.go:23-61 | repeated reads return exactly the framed bodies and consume nothing more |
| HandshakeFraming.Endpoint.WriteHandshake | v4/mux/h3mux/handshake.go:23-40 | one frame is sent exactly when the message encodes within the bound and both writes succeed; otherwise the error of the failing stage, and what had been sent by then |
| HandshakeFraming.Endpoint.ReadHandshake | v4/mux/h3mux/handshake.go:43-61 | one frame is consumed and decoded, with the error of each failing stage |
| HandshakeFraming.Endpoint.DoClientHandshake | v4/mux/h3mux/handshake.go:66-78 | the error of sending its own message if that fails, else what reading the peer's message yields |
| HandshakeFraming.Endpoint.DoServerHandshake | v4/mux/h3mux/handshake.go:83-95 | the error of reading the peer's message if that fails, else the error of sending its own, else the peer's message; nothing is sent unless the peer's message was received |
| HandshakeFraming.Exchange | v4/mux/h3mux/handshake.go:66-95 | with the server receiving what the client sends and the other way round: each side ends with exactly the other's message and early data stays unread, if both messages fit the bound; otherwise the client fails, and the server too if it is its message that does not fit |

## Left out

- The four concurrent protocols and the inbound handshake are step systems over values, not classes: updates in place and aliasing of their objects are not captured, interleavings are.
- `recvControlLoop` and `clientSession` (`dialStreamForServer`, `Open`): the peer is modelled as able to deliver any stream with any id at any time, which covers them.
- Streams left in the accept queue when the session closes: the queue counts as their place; it need not become empty.
- `muxServer.Stream` appears only as the deliveries with an arbitrary request id that it makes.
- Forwarder: what is copied, and the conns given to `Start` are taken to be distinct; the two closes under `closeOnce` are one step; `count` and `numHalfOpen` are unbounded integers; `connCopy` recovers panics, callbacks and copies are taken to return or not to.
- TunnelSessions: idle timing, `stale`, `idleEvicted`, `lastChanged`, tags and `redialSig` are not state; `checkIdle`, `run`'s deferred close and the group's closer are the step in which a session closes. Only tunnels with a dial address are dialled. That a tunnel always reconnects is not claimed. `numSessionsCreated` and `numSessionsFinalized` are unbounded.
- Flushed byte totals are counted per session, not added up; `Server.Stats` as a snapshot and the h3mux stream counters are not modelled.
- Reload: the skip check and the restart of the mux and API listeners are not modelled, so nothing is claimed of a skipped reload; map iteration order is arbitrary; Go's growth formula for slices is replaced by doubling; `Stop` of a tunnel is one call here and is modelled in TunnelSessions.
- Reload.Server.Append: the new capacity is not that of Go's runtime.
- Reload.Server.OpenListeners: bind and launch outcomes depend on the identity only, so two attempts under one name in one call are not distinguished; the code makes only one.
- Deadline branches of `grpcStream`: a send or receive that timed out may still complete, so the byte stream is claimed for runs without deadlines.
- GrpcStream.Stream.Read: waiting in RecvMsg is an outcome, Blocked, not a wait.
- GrpcStream.Stream.Write: the lock that serialises writers is not modelled.
- Reference counts of transport buffers, and copying into pooled memory: buffers are their contents.
- Wire: the decoder of the protobuf library is modelled from the wire format and the rules that package's Go implementation documents; the library is not part of this model.
- BufferPool: buffer contents are not modelled; a buffer is its identity, capacity and length. Which pooled buffer `sync.Pool` hands out is a parameter.
- EventLog.Recent.Add: with a size limit of 0 the original fails on the first Add; the method asks for at least 1.
- EventLog.Recent.Format: the text of a line is abstract, a line is its timestamp, message and repeat count.
- HandshakeFraming: JSON is an abstract codec, and `Exchange` takes it to give back what it encoded.
- HandshakeFraming.Exchange: when the client's own message cannot be sent, what the server sees is whatever follows on the stream, so nothing is claimed of the server.
- gRPC, quic-go, TLS, sockets, the HTTP API, configuration clamps, backoff, `contextMgr`, latency percentiles, the mux limiter, logging, and the v2 and v3 trees.
