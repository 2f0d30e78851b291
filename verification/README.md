# Verified model of the rstream Go client

This project models the stateful cores of the rstream Go client and proves what they guarantee over every run. It is
written in Dafny 4.11; `dafny verify dfyconfig.toml` checks all of it.

The cores are protocols: each guarantee spans several functions and any interleaving of their callers, and for the
upload journal also a crash of the process between any two durable steps.

**Durable uploads** (`filesystem/`). `UploadProtocol` is a transition system over the disk: files with inode numbers,
the one pending record, the terminal receipts, and a history of what became visible. `UploadGuarantees` proves the
promises over all its runs. `UploadJournal` is the code itself, as methods over the disk it changes; every primitive may
succeed, fail or crash, and a ghost field records that the states of the disk form a run of the protocol, so the
guarantees hold of the code. `UploadLimits` is about the size of the records: which requests leave records behind that
the journal can read back, with the length of their JSON text from `JsonText`. `UploadStream` is the copy of the body
into the staging file, `JournalFile` the crash-atomic file replacement and its two-phase read, `Preconditions` the
evaluation of If-Match and If-None-Match, `Content` the revisions.

**Control channel** (`client.go`, `tunnel.go`, `net.go`). `Framing` covers length-prefixed messages, the buffered writer
with its sticky error, and the write side of the channel; `ControlLock` is the cancellable lock around those writes, with
any number of writers; `TunnelRequests` matches responses to callers of CreateTunnel; `ProxyPipeline` is the worker
pipeline for proxy requests and the order of its responses relative to CloseTunnelReq; `DrainingTransport` is the
reference-counted transport.

**Transports** (`auto_transport.go`, `quic_transport.go`). `AutoTransport` is the single-flight selection with its
generation counter, `AutoSelection` one selection and its cleanup, `QuicTransport` the ownership of the QUIC connection
and of the datagram channels.

**Route racing** (`dial_routes.go`). `DialRoutes` has the index arithmetic and the race of two attempts at a time.

**Packet listener** (`net.go`). `PacketListener` is the packet socket over an admitting listener.

The concurrent cores have the same shape. The fields that a mutex guards form a value; each mutex-held region is a
function on it; a program counter says where every caller stands; a step of the state machine is one region or one
channel operation of one caller. `Inv` is proved of every state of every run. Beside the machine stands a class with the
source's fields, whose methods are the regions written imperatively. A ghost field holds the run of the machine so far,
`Valid` says that its last state has the object's fields, and every method appends its own step; what the run guarantees
is then stated of the object.

Assumptions: SHA-256 is injective. A rename that reports an error was not applied. Inode numbers of files that exist at
the same time differ, and are otherwise reused freely; so a journal file has another identity than the one it replaces.
Staging names are unique and not reachable by requests. Every writer of the namespace holds its lock. The engine answers
only requests that reached it.

Where the code and its promise differ:

- `writeJournalFile` accepts records that `readJournalFile` refuses (`WriteThenRead` has the exact limit). An upload
  whose record is too long can therefore block recovery, and with it every later mutation, for good. `LegibleIffFits` has
  the exact condition, computable from the request; `LongPathGetsStuck` has an ordinary path for which it fails.
- A receipt lookup beside a live writer can be refused although the upload was admitted. `RefusedExactlyWhen` has the
  exact condition, and `AdmittedLookupRefused` a run; it is never answered as missing (`LookupNeverMisses`).
- Recovery that is itself interrupted may turn `interrupted` into `uncertain`. `RecoveryIsExact` has the exact condition,
  and shows that `committed` is exact all the same; `InterruptedBecomesUncertain` has a run.

## Model

| member | source | states |
|---|---|---|
| Content.RevisionIdentifiesContent | filesystem/revision.go:35-66 | two contents have the same revision exactly when they are equal |
| Content.HexInjective | filesystem/revision.go:66-66 | the hexadecimal digest text determines the digest |
| Preconditions.ParserSound | filesystem/preconditions.go:233-270 | whatever the loop accepts is a list of well-formed entity tags separated by commas and blanks, and the tags found are those of the list |
| Preconditions.ParserComplete | filesystem/preconditions.go:233-270 | every list of the grammar is accepted, with exactly its tags |
| Preconditions.ParserDecidesGrammar | filesystem/preconditions.go:233-270 | for every string, the loop yields a list of tags if and only if the string denotes that list |
| Preconditions.MatchRevision | filesystem/preconditions.go:233-270 | for every header value the loop ends with the specified verdict: `*` means existence; otherwise validity is membership in the grammar and the match is list membership under strong or weak comparison |
| Preconditions.ValidateConditions | filesystem/preconditions.go:187-196 | all conditions are valid, and a revision is needed exactly when some condition compares tags |
| Preconditions.CheckRevisionConditions | filesystem/preconditions.go:186-226 | the lazy evaluation returns the status of the eager one for every pair of headers, and loads the revision at most once and only if a comparison needs it |
| Preconditions.UnusedInBoth | filesystem/preconditions.go:197-206 | conditions that compare no tag, or an absent file, do not depend on the revision |
| Preconditions.ConditionsMean | filesystem/preconditions.go:207-225 | status 0 means that the file exists and a tag of If-Match names it, and that no tag of If-None-Match does |
| Preconditions.StarIsNoList | filesystem/preconditions.go:234-237 | the two readings of a header, `*` and a list, exclude each other |
| JournalFile.Root.WriteJournalFile | filesystem/journal.go:172-187 | at every point of the call, and after a crash at any of them, a reader finds the old file or the whole new one, and never the old one again; on success the new one, which is another file than all before |
| JournalFile.ReadBesideWriter | filesystem/journal.go:152-170 | a reader that looks and opens at any two points of a replacement gets the whole old file or the whole new one; it finds none exactly if there was none when it looked, and is refused exactly if what it looked at is over 16 KiB or was replaced in between |
| JournalFile.ReadAcrossWrite | filesystem/journal.go:152-187 | looking before a write and opening after it is always refused |
| JournalFile.WriteThenRead | filesystem/journal.go:152-187 | what was written is read back if and only if it is at most 16 KiB long |
| UploadProtocol.EffectKeepsInv | filesystem/atomic_upload.go:203-225 | every durable effect keeps the invariant: at most one rename per id, a record for every id that was renamed, truthful receipts, and a pending record from which recovery can tell what happened |
| UploadProtocol.RunKeepsInv | filesystem/preconditions.go:18-129 | the invariant holds in every state of every run, whatever crashed in between |
| UploadLimits.LongestBounds | filesystem/receipts.go:33-51 | no record of an upload is encoded longer than its committed receipt with the longest times and file identity |
| UploadLimits.RunKeepsShape | filesystem/receipts.go:106-112 | every record on disk, in every state of every run, is one to which that bound applies |
| UploadLimits.FittingIsLegible | filesystem/receipts.go:195-219 | if the longest record of the pending request fits 16 KiB, recovery can read all it needs, at every point of every run |
| UploadLimits.TooLongGetsStuck | filesystem/receipts.go:106-112 | for every request whose longest record does not fit and whose conditions hold of what was there, some run ends with a receipt, of the file that was staged, which recovery cannot read, and the slot not freed |
| UploadLimits.LegibleIffFits | filesystem/receipts.go:195-202 | what an upload leaves behind can be read by recovery in every state of every run if and only if its longest record fits, which the request determines |
| UploadLimits.LongPathDoesNotFit | filesystem/journal.go:152-159 | a path of four components of 250 ampersands, 1003 characters, does not fit, whatever the rest of the request; neither does its record with the staging name |
| UploadLimits.LongPathGetsStuck | filesystem/journal.go:152-159 | for that path, whatever the id and the content and whatever was there before, if the conditions hold of it: a run in which the pending record cannot be read any more once the staging name is noted |
| UploadGuarantees.EffectKeeps | filesystem/receipts.go:177-213 | no effect changes or removes a receipt or forgets an admitted id |
| UploadGuarantees.RunKeeps | filesystem/receipts.go:177-213 | terminal receipts are write-once over whole runs, and history only grows |
| UploadGuarantees.UploadHappensOnce | filesystem/preconditions.go:40-88 | an Upload-Id causes at most one rename in any run; once it has, its pending record or receipt exists at every later point, and nothing is admitted under it again |
| UploadGuarantees.ReceiptsTellTheTruth | filesystem/receipts.go:195-277 | a receipt says `committed` exactly when the rename happened, then and at every later point, and names the destination, length and digest of what was renamed |
| UploadGuarantees.ReceiptsBounded | filesystem/receipts.go:114-152 | never more than 4096 receipts, those written by recovery included |
| UploadGuarantees.LookupNeverMisses | filesystem/receipts.go:325-338 | reading terminal, pending and terminal again, each in two halves at any times beside a live writer, an id admitted when the lookup began is never reported missing, and a terminal answer is true |
| UploadGuarantees.RefusedExactlyWhen | filesystem/receipts.go:325-342 | the lookup is refused if and only if a file it looks at is over the read limit or the pending file was replaced between the two halves of its read |
| UploadGuarantees.FittingLookup | filesystem/journal.go:152-170 | for requests that fit the limit only that replacement refuses it |
| UploadGuarantees.AdmittedLookupRefused | filesystem/journal.go:166-169 | for every request that fits there is a run in which the lookup of its admitted id is refused: the staging name is noted between the two halves of the read |
| UploadGuarantees.PendingIsOpen | filesystem/receipts.go:177-190 | the pending slot never holds a terminal record |
| UploadGuarantees.RunKeepsHistory | filesystem/preconditions.go:90-111 | the visible files are always the result of the recorded changes, each of which replaced what the earlier ones had left |
| UploadGuarantees.NoLostUpdate | filesystem/preconditions.go:90-111 | every published write with If-Match replaced, at the moment of its rename, content whose revision its tags name |
| UploadGuarantees.GuardedWritesChain | filesystem/preconditions.go:23-39 | consecutive guarded writes to a path form a chain: the second names the revision the first produced, so of two writers with the same tag only one changes the content |
| UploadGuarantees.RecoveryIsExact | filesystem/receipts.go:216-276 | in every reachable state recovery says `committed` if and only if the rename happened, also when an earlier recovery was cut short; its verdict is unchanged by that if and only if no prepared staging file was there |
| UploadGuarantees.InterruptedBecomesUncertain | filesystem/receipts.go:225-236 | from an empty disk, for every upload, a run that ends prepared with the verdict 408 `interrupted`, which a recovery cut short turns into 503 `uncertain` |
| UploadStream.WholeBodyIsConcat | filesystem/atomic_upload.go:55-69 | the body is the concatenation of the reads up to end of file, and there is none if a read fails first |
| UploadStream.UploadBody.Read | filesystem/atomic_upload.go:55-69 | size, hash and completion follow the data read; an error or a cancellation is remembered |
| UploadStream.UploadBody.Validate | filesystem/atomic_upload.go:71-93 | accepts exactly the complete body of the announced size and digest, with the status of the first reason that fails |
| UploadStream.AtomicUpload.Write | filesystem/atomic_upload.go:158-166 | appends what the file took, and remembers an error or a short write |
| UploadStream.AtomicUpload.CloseChecks | filesystem/atomic_upload.go:173-184 | a first close goes on exactly if no write failed and the body is acceptable |
| UploadStream.CopyBody | filesystem/atomic_upload.go:169-171 | for every split into reads and writes, the staging file holds what was hashed unless a write failed, and a complete body is the whole body |
| UploadStream.Receive | filesystem/atomic_upload.go:55-184 | the staged file passes exactly if it is the whole body with the announced length and digest, given no failed write and no cancellation; it never passes otherwise |
| UploadJournal.RecoverableIffLegible | filesystem/receipts.go:195-219 | recovery refuses what the code itself left behind if and only if it cannot read it for its size |
| UploadJournal.Local.WritePending | filesystem/receipts.go:106-112 | the pending record is replaced, or on failure possibly not; nothing else changes |
| UploadJournal.Local.WriteReceipt | filesystem/receipts.go:106-112 | a terminal receipt is added, or on failure possibly not; nothing else changes |
| UploadJournal.Local.PublishPrepared | filesystem/atomic_upload.go:211-215 | the rename is applied, or nothing changed; after an error nothing changed |
| UploadJournal.Local.CompleteReceipt | filesystem/receipts.go:177-190 | the receipt with the given state is on disk before the pending slot is freed; on success both happened |
| UploadJournal.Local.RecoverReceipt | filesystem/receipts.go:195-277 | publishes nothing; on success the slot is free and the earlier attempt has the receipt that the recovery verdict says; on a faultless disk it succeeds if and only if it can read what was left, and otherwise it always fails and changes nothing |
| UploadJournal.Local.SettleEarlier | filesystem/receipts.go:216-277 | an attempt without a receipt gets the one that the recovery verdict on the disk before says, and nothing visible changes |
| UploadJournal.Local.InspectPrepared | filesystem/receipts.go:225-272 | the verdict on a prepared attempt: `committed` exactly on evidence of the rename |
| UploadJournal.Local.BeginReceipt | filesystem/receipts.go:114-152 | the record is pending exactly on success; never beyond the limit; always below it on a faultless disk |
| UploadJournal.Local.CheckConditions | filesystem/preconditions.go:172-184 | status 0 exactly if the conditions hold of the current file, on a faultless disk; 412 only if they do not; 403 and 503 only with a fault |
| UploadJournal.Local.OpenUpload | filesystem/atomic_upload.go:128-145 | a fresh staging file exists and the pending record names it before any content is written |
| UploadJournal.Local.PrepareUpload | filesystem/atomic_upload.go:185-210 | the record of what is about to be renamed is durable before the rename; a failure leaves the attempt pending and unpublished |
| UploadJournal.Local.CommitUpload | filesystem/atomic_upload.go:185-227 | prepare, rename, settle: history grows by at most this rename of the staged file; success means renamed, settled and slot free |
| UploadJournal.Local.PutUpload | filesystem/atomic_upload.go:97-227 | what became visible, if anything, is the whole body of announced length and digest; a good body on a faultless disk is committed |
| UploadJournal.Local.AdmitPut | filesystem/preconditions.go:40-86 | a known id is never admitted; it is answered from its true receipt if the request is the same, with 409 if not and with 503 if the receipt is over the read limit; nothing is admitted or changed while recovery cannot read what was left |
| UploadJournal.Local.FinishPut | filesystem/preconditions.go:90-128 | the answer is the receipt on disk and says `committed` exactly if this upload was renamed |
| UploadJournal.Local.ServeDurablePut | filesystem/preconditions.go:18-129 | a whole durable PUT, with failures and crashes anywhere: no second effect for a known id, truthful answers, whole bodies only, conditions met at the rename; a good request on a faultless disk that recovery can read is committed; on one it cannot read every request gets 503 and changes nothing |
| UploadJournal.Local.ServePlainPut | filesystem/preconditions.go:18-129 | a PUT without id publishes only the whole announced body over a file that met the conditions; 201 means it did; a good one on a faultless disk that recovery can read gets 201, and none ever does while it cannot |
| UploadJournal.Local.PutPlain | filesystem/atomic_upload.go:97-215 | the same from the open of the staging file to the rename |
| UploadJournal.Local.ServeOther | filesystem/preconditions.go:90-111 | any other mutation changes files, also when it fails half-way, only after recovery and only if its conditions hold; while recovery cannot read what was left it changes nothing |
| UploadJournal.Local.ServeReceipt | filesystem/receipts.go:318-346 | with the lock free, a known id is answered with its true receipt under its own path, with 404 under another path and with 503 if the receipt is over the read limit; 404 otherwise only for an id never admitted |
| UploadJournal.Local.Serve | filesystem/preconditions.go:18-129 | all states of the disk under any sequence of requests form one run of the protocol; once recovery cannot read what was left, no sequence of requests ever changes anything |
| Framing.Uint32RoundTrip | net.go:534-551 | the four length bytes decode to the length |
| Framing.ReadMessage | net.go:529-543 | for every stream: the first message and the rest, or which of end, truncation and oversize stopped it; a stream that begins with a written frame gives that message and leaves what follows |
| Framing.FrameRoundTrip | net.go:529-559 | reading a written message returns it and leaves the rest |
| Framing.WireRoundTrip | net.go:529-559 | whole frames followed by a cut frame parse to exactly the messages of the whole frames |
| Framing.BufWriter.Write | net.go:552-557 | what was accepted is on the wire or buffered, in order; after an error the wire is a prefix of that and never grows again |
| Framing.BufWriter.Flush | net.go:558-558 | empties the buffer onto the wire, or fails for good with a prefix of it sent |
| Framing.WriteMessage | net.go:545-559 | one whole frame, or a cut one and a failure that stays; too long a message sends nothing |
| Framing.ControlWriter.WriteContext | client.go:1885-1938 | keeps the wire at whole frames followed by at most one cut frame, under cancellations before and during the write and write errors; without faults the message is sent |
| Framing.PeerReadsWhatWasSent | client.go:1885-1938 | the peer reads exactly the messages sent, in the order of the writes, and at most the one whose write failed besides |
| ControlLock.RunKeepsInv | client.go:636-668 | token, turns and wire are right in every state, whatever the interleaving of locking, cancellation, partial writes, failures and unlocking |
| ControlLock.OneToken | client.go:653-668 | from the first Lock on, tokens in the channel plus holders are one: no two writers hold the lock, and putting it back never finds the channel full |
| ControlLock.FramesInLockOrder | client.go:1885-1938 | the wire holds whole frames in the order in which the lock was taken, followed by nothing or by a part of one more, of a later turn: that of the write that failed, or, if none did, that of the lock holder |
| ControlLock.PeerReadsInLockOrder | client.go:1885-1938 | the peer reads exactly the messages written in full, in lock order, and at most one besides, whoever writes concurrently: the one whose write failed or is not over although its whole frame went out |
| ControlLock.ContextMutex.Prepare | client.go:653-657 | however often it runs, there is one token, in the channel or with a holder |
| ControlLock.ContextMutex.Lock | client.go:658-664 | a caller with the lock is its only holder; one without it was cancelled |
| ControlLock.ContextMutex.Release | client.go:666-668 | never blocks: the channel is empty before, and nobody holds the lock after |
| TunnelRequests.RunKeepsInv | client.go:1027-1092 | in every reachable state every request is open or settled in exactly one way |
| TunnelRequests.OneOutcomePerRequest | client.go:1058-1092 | a response channel is sent to or closed at most once in all, never sent to after a close; a waiter always has a value, a closed channel, a cleanup about to close it, or an open request |
| TunnelRequests.TunnelsReachTheirCreators | client.go:1313-1368 | a registered tunnel is with its creator, on its way to it, or its creator is about to fail the channel |
| TunnelRequests.OutcomesTellTheTruth | client.go:1077-1099 | a caller gets the tunnel opened for it; after an error, a cancellation or a closed channel none was opened; after a failed write one was only if the channel is closed |
| TunnelRequests.OutcomesAreFinal | client.go:1077-1099 | a caller's outcome never changes |
| TunnelRequests.ControlChannel.BeginCreate | client.go:1031-1049 | one step of the machine; on success the request is open, with nothing sent to it or closed; after a refusal, which means a closed or closing channel, no tunnel was opened for it |
| TunnelRequests.ControlChannel.WithdrawRequest | client.go:1082-1088 | one step of the machine; it succeeds exactly if nothing was sent to the request or closed, and its withdrawal is then the only outcome; otherwise it has its one outcome, or the cleanup is about to close it |
| TunnelRequests.ControlChannel.OpenTunnelResult | client.go:1328-1368 | a tunnel is registered exactly if the response has an id that is new and the channel is neither closed nor closing |
| TunnelRequests.ControlChannel.HandleOpenTunnelRsp | client.go:1313-1326 | one step of the machine; an open request gets the only value ever sent to it, and an opened tunnel is registered for it; any other response changes nothing |
| TunnelRequests.ControlChannel.DetachCleanup | client.go:1949-1986 | one step of the machine; closes the channel and hands exactly the open requests, to which nothing was sent, to the cleanup |
| TunnelRequests.CancelledCreate | client.go:1058-1099 | a create that is cancelled while its response arrives, in either order: the cancellation takes the request back and the response opens nothing, or the result is there for the caller to receive |
| ProxyPipeline.LimitsFor | client.go:1449-1462 | every limit is positive, configured or not |
| ProxyPipeline.RunKeepsInv | client.go:1396-1566 | the accounting, slot, wire and order invariants hold in every reachable state |
| ProxyPipeline.PendingCountsOpenRequests | tunnel.go:157-173 | `proxyPending` is the number of the tunnel's requests queued, in work or awaiting write, plus dropped ones, of which there are none unless the channel was cancelled or a write failed; the drain channel is open exactly while it is positive |
| ProxyPipeline.OneResponsePerRequest | client.go:1540-1566 | each request taken up yields at most one ProxyConnRsp, exactly one once completed, and none if it was not taken up |
| ProxyPipeline.CloseFollowsResponses | tunnel.go:97-137 | CloseTunnelReq is on the wire at most once per tunnel, after the responses of all requests of the snapshot |
| ProxyPipeline.CloseWaitsForEarlierRequests | tunnel.go:97-137 | every request taken up for a tunnel before its first Close began has its response on the wire before the CloseTunnelReq |
| ProxyPipeline.PipelineIsBounded | client.go:1442-1501 | the queues stay within their limits, and no worker and no response loop ever holds two requests |
| ProxyPipeline.BytestreamTunnel.AddProxyResponse | tunnel.go:157-162 | one step of the machine; the request is counted, `proxyPending` is the number of the tunnel's requests not completed, and a Close from now on has an open drain channel to wait for |
| ProxyPipeline.BytestreamTunnel.CompleteProxyResponse | tunnel.go:164-173 | one step of the machine; the guard against a zero count never applies; a drain channel is closed exactly when no request is left, and then every response of the tunnel is on the wire |
| ProxyPipeline.BytestreamTunnel.BeginClose | tunnel.go:98-110 | one step of the machine; only the first Close of an open tunnel sends, for the snapshot of all its requests, and nothing was sent before; one that need not wait finds every response written |
| ProxyPipeline.BytestreamTunnel.OnError | tunnel.go:210-227 | one step of the machine; the tunnel is closed while the count remains that of the requests not completed, under the same drain channel |
| ProxyPipeline.CloseDuringResponse | tunnel.go:97-137 | a Close that begins with a response outstanding waits for the channel that the end of the response closes, and its CloseTunnelReq follows that response on the wire |
| DrainingTransport.RunKeepsInv | client.go:741-835 | the reference count and the reasons for closing are right in every reachable state |
| DrainingTransport.ActiveCountsReferences | client.go:758-823 | `active` is the number of dials in flight and unreleased connections, and a release always finds it positive |
| DrainingTransport.ClosedAtMostOnce | client.go:785-827 | the underlying transport is closed at most once, and without an explicit Close only when detached with nothing active |
| DrainingTransport.LastReleaseCloses | client.go:785-827 | once nobody is about to close it, it is closed if and only if there was an explicit Close or it is detached with nothing active |
| DrainingTransport.DetachedOnlyDrains | client.go:758-796 | after detachment no new reference is ever taken |
| DrainingTransport.Draining.BeginDial | client.go:762-768 | one step of the machine; the dial becomes a holder of a reference exactly if admitted, and `active` is the number of holders |
| DrainingTransport.Draining.CloseUnderlying | client.go:825-827 | whoever gets here has a reason, an explicit Close or a detached transport without holders, and afterwards the transport was closed once |
| DrainingTransport.Draining.ReleaseRef | client.go:810-823 | the caller is one of the holders and the count positive; afterwards it is not, and a detached transport without holders has been closed once |
| DrainingTransport.Draining.Detach | client.go:785-796 | no holder changes; without any the transport has been closed once, with any this call does not close it |
| DrainingTransport.Draining.Close | client.go:798-808 | the transport has been closed once, whoever still holds a reference |
| AutoTransport.TakeKeeps | auto_transport.go:56-195 | every step of Dial and Close keeps the shared state sound, leaves every other caller what it relies on and establishes what its own caller relies on next |
| AutoTransport.RunKeepsInv | auto_transport.go:56-195 | the invariant holds in every reachable state |
| AutoTransport.SelectionIsExclusive | auto_transport.go:73-111 | at most one selection runs, exactly while `selecting` is set; then nothing is pinned and no cleanup is pending; the waiter count is right |
| AutoTransport.PinnedOncePerGeneration | auto_transport.go:135-146 | within a generation, what is pinned stays pinned |
| AutoTransport.StaleSelectionsNeverPin | auto_transport.go:117-138 | over runs: a selection that was running when a Close raised the generation pins nothing at any later step, and when it ends every connection it ever held was closed and none returned |
| AutoTransport.CloseOutlivesEarlierSelections | auto_transport.go:165-195 | when Close returns, every selection and every cleanup goroutine that ran when it began is over; what runs then belongs to later generations |
| AutoTransport.NobodyWaitsInVain | auto_transport.go:73-104 | whoever waits, waits for a channel that is closed or that a running selection or cleanup is going to close |
| AutoTransport.DialsUseTheirGeneration | auto_transport.go:61-72 | a Dial on a pinned transport uses the one its own generation pinned |
| AutoTransport.ConnectionsConserved | auto_transport.go:117-146 | a connection opened by a selection is returned or closed, never both and never lost |
| AutoTransport.Auto.EnterDial | auto_transport.go:60-112 | one step of the machine; a selection starts only if nobody selects and no cleanup runs; a pinned transport is that of the caller's own generation |
| AutoTransport.Auto.StopWaiting | auto_transport.go:79-86 | one step of the machine; the count stays the number of threads that wait |
| AutoTransport.Auto.Forget | auto_transport.go:97-101 | one step of the machine; only a cleanup that has ended is forgotten, and one that runs stays recorded |
| AutoTransport.Auto.FinishSelection | auto_transport.go:117-145 | one step of the machine; a stale selection changes nothing yet; after any other nobody selects, and its transport and cleanup are recorded |
| AutoTransport.Auto.FinishStale | auto_transport.go:128-132 | one step of the machine; nobody selects any more, nothing is pinned, no cleanup runs, and the waiters' channel is closed |
| AutoTransport.Auto.BeginClose | auto_transport.go:166-175 | one step of the machine; it captures the running selection and the running cleanup, whichever there is, and the selection is of an older generation from now on |
| AutoTransport.OverlappedDial | auto_transport.go:105-146 | a Dial whose selection a Close overlaps, from call to return: nothing is pinned, its cleanup is over, its connection closed, and the Close can go on |
| AutoSelection.Selection.SelectTransport | auto_transport.go:204-270 | the first success wins and is the only connection held; both failed with their own errors otherwise, or the caller cancelled; `leftover` attempts are outstanding |
| AutoSelection.Selection.StartTls | auto_transport.go:233-240 | TLS starts at most once |
| AutoSelection.Selection.Cleanup | auto_transport.go:304-314 | every leftover attempt is received and its connection closed, and a QUIC transport that did not win is closed exactly if its attempt was left over |
| AutoSelection.Select | auto_transport.go:204-314 | without cancellation a selection succeeds if and only if one of the two transports can be dialed; in the end only the winner's connection is open and every other was closed once |
| QuicTransport.TakeKeeps | quic_transport.go:157-326 | every step keeps the shared state sound and leaves every other caller what it relies on |
| QuicTransport.RunKeepsInv | quic_transport.go:157-421 | the invariant holds in every reachable state |
| QuicTransport.ConnectionsConserved | quic_transport.go:157-326 | every connection dialed is with its connect, installed, in the hands of the one thread that is about to close it, or was closed exactly once; its handles likewise |
| QuicTransport.ConnectIsExclusive | quic_transport.go:160-204 | at most one connect runs, and only while nothing is installed; the waiter count is right |
| QuicTransport.CallersGetTheirOrigin | quic_transport.go:169-178 | a caller only gets a connection dialed for its own origin |
| QuicTransport.OnlyCurrentConnectsInstall | quic_transport.go:218-226 | nothing but a connect of the current generation installs a connection, and it installs its own |
| QuicTransport.OverlappedConnectsNeverInstall | quic_transport.go:214-236 | a connect that overlapped a Close or an invalidation is not installed; its thread closes the connection |
| QuicTransport.CloseTearsDown | quic_transport.go:268-305 | when Close returns, the connection installed when it began has been closed once, its handles too, and its read loop has ended |
| QuicTransport.ChannelsBelongToConnection | quic_transport.go:334-361 | the registered datagram channels belong to the installed connection; without one there are none |
| QuicTransport.ChannelsReturnByRegistering | quic_transport.go:334-369 | over runs: a channel that was out of the registry, taken out by itself or with its connection, comes back only by a registration in between, for the connection installed at that moment, which has been installed ever since: none is carried over from one connection to the next |
| QuicTransport.RegisteredSince | quic_transport.go:334-369 | over runs: a channel registered under an id under which it was not before was registered under it in between, and has stayed there without a break, on one and the same connection |
| QuicTransport.OldLoopsDetachNothing | quic_transport.go:371-411 | a read loop that lost its connection changes nothing, so it never detaches a newer connection's channels |
| QuicTransport.OneLoopPerConnection | quic_transport.go:347-360 | a connection has at most one read loop |
| QuicTransport.Quic.EnterConnection | quic_transport.go:161-204 | one step of the machine; a connection handed out is open and was dialed for the caller's origin in its own generation; a connect starts only if nobody connects and nothing is installed |
| QuicTransport.Quic.StopWaiting | quic_transport.go:184-198 | one step of the machine; the count stays the number of threads that wait |
| QuicTransport.Quic.FinishConnect | quic_transport.go:213-226 | one step of the machine; nobody connects any more; the connection is installed with its handles, and neither closed nor about to be, exactly if no Close or invalidation came between; otherwise it is left to this thread to close |
| QuicTransport.Quic.BeginClose | quic_transport.go:268-284 | one step of the machine; it captures the installed connection with its own handles and all channels; the connection was open and is from now on this thread's alone to close |
| QuicTransport.Quic.BeginInvalidate | quic_transport.go:307-322 | one step of the machine; the same exactly if the given connection is the installed one, and nothing otherwise |
| QuicTransport.Quic.RegisterDatagramChannel | quic_transport.go:334-356 | one step of the machine; registers exactly if a connection is installed and the id free, for that connection, and starts a read loop exactly if it has none |
| QuicTransport.Quic.UnregisterDatagramChannel | quic_transport.go:363-369 | one step of the machine; only that channel leaves that id, so one that took the id over stays; the channel is then out of the registry if and only if it had no other id |
| QuicTransport.Quic.CloseDatagramChannelsForConn | quic_transport.go:396-411 | one step of the machine; by the time a read loop gets here its connection is gone, and it detaches nothing |
| QuicTransport.OverlappedConnect | quic_transport.go:199-236 | a connect that a Close overlaps, from call to return: nothing is installed, and the connection and its handles are closed once |
| DialRoutes.PositionThenIndex | dial_routes.go:46-50 | the pair tried at an index determines the index |
| DialRoutes.IndexThenPosition | dial_routes.go:46-50 | every pair of positions is tried at some index below the count |
| DialRoutes.RoutesEnumerateAllPairs | dial_routes.go:44-50 | the indices below the count enumerate all pairs of positions, each once |
| DialRoutes.Race.Start | dial_routes.go:121-137 | indices start in order and once, at most two outstanding; the divisor of the time budget is positive |
| DialRoutes.Race.Send | dial_routes.go:132-136 | a result never finds the channel full |
| DialRoutes.Race.Receive | dial_routes.go:162-175 | the first error received is the one remembered |
| DialRoutes.Race.Drain | dial_routes.go:141-150 | every outstanding attempt is received and what it opened is closed; nothing else is touched |
| DialRoutes.Race.NextAfterFailure | dial_routes.go:176-181 | after a failure the next route starts at once, if there is one |
| DialRoutes.Race.Finish | dial_routes.go:164-171 | after a success everything else is drained, and the winner is closed exactly if the caller has gone |
| DialRoutes.Race.Run | dial_routes.go:138-185 | the select loop ends, in any order of events, with nothing outstanding and only the winner open |
| DialRoutes.RaceIndexed | dial_routes.go:111-186 | at return every attempt is over; each opened connection is the one returned or was closed once; failure without cancellation means every index was tried and failed |
| DialRoutes.RaceDialRoutes | dial_routes.go:111-186 | without cancellation the race succeeds if and only if some pair of target and proxy can be dialed |
| PacketListener.RunKeepsInv | net.go:282-471 | the invariant holds in every reachable state |
| PacketListener.DoneExactlyWhenEnded | net.go:423-462 | `done` is closed, once, if and only if shutdown was started or admission has stopped with no path registered |
| PacketListener.PathsStayRegistered | net.go:326-343 | over runs: a registered path is still registered at every later point at which its reader is not gone, nothing was accepted under its name and shutdown has not begun; a late reader of a replaced path never removes its replacement |
| PacketListener.ActivePathsAreRegistered | net.go:306-312 | a path whose packets are delivered is registered, and a registered path still has its reader |
| PacketListener.UniquePeersNeverReplace | net.go:300-312 | with unique peers no path ever replaces another |
| PacketListener.CloseWaitsForReaders | net.go:415-421 | when Close returns, shutdown has begun, the listener was closed once and no reader is reading |
| PacketListener.NilRegistryStaysEmpty | net.go:294-313 | over runs: after shutdown the registry is empty at every later point, and no path was accepted since |
| PacketListener.Wrapper.Register | net.go:294-314 | one step of the machine; unless the socket has ended the path is registered and active, and the one it replaces is not active any more; with unique peers it replaces none |
| PacketListener.Wrapper.Unregister | net.go:331-342 | one step of the machine; the reader's own path is gone and every other stays; the socket is closed exactly if it has ended |
| PacketListener.Wrapper.ReaderDone | net.go:326-330 | one step of the machine; the count stays the number of readers that read |
| PacketListener.Wrapper.StopAdmitting | net.go:446-462 | one step of the machine; registered paths stay, and `done` has been closed, once, exactly if there are none or it was before |
| PacketListener.Wrapper.InitiateShutdown | net.go:423-444 | one step of the machine; hands back all registered paths; no path is active from then on, and both channels have been closed once, whoever came first |
| PacketListener.LastPathEndsSocket | net.go:326-343 | with a path registered the end of admission does not close the socket; the end of that path's reader does, once |

## Left out

- Real system calls, `os.Root`, symlinks, flock, the WebDAV handler and HTTP plumbing: abstract steps that may fail or crash.
- Loss of power: the journal is modelled for crashes of the process, with a rename that is atomic.
- Path policy, prefixes, `validUploadID`, the parsing of Content-Digest and Upload-Length: parameters of the model are already parsed; refusals that only depend on them are left out.
- The resolution of symlinks: the target of an upload is the path of its request.
- The text of times and file identities: a record has the length of each, within the bounds of their formats.
- Journal files that are not regular files, or whose JSON another program changed.
- Header strings are sequences of code points; byte sequences that are not valid UTF-8 are not represented.
- The revision of directories (filesystem/preconditions.go:228-231), which have no content digest.
- The order within the two proxy queues: a request has a stage, not a position in the queue.
- ProxyPipeline.OneResponsePerRequest: does not say that every request is eventually answered, because a cancelled channel drops requests.
- AutoTransport: the dial on an already pinned transport runs outside the lock and may outlive Close, so nothing is claimed of it; closing the pinned transport itself is not modelled.
- The connection handed to Accept of a tunnel: the deliverer may close it late, so nothing is claimed of its ownership.
- Real time: timers and deadlines are events that may happen at any point; budgets and backoff values are not modelled.
- Counters that wrap after 2^64 steps (generations, peer numbers) are unbounded.
- TLS, QUIC, ECH, DNS lookup, SOCKS5, HTTP proxies and MASQUE: dials are steps that succeed or fail.
- Nil receivers and a nil dialer of the draining transport.
- Delivery of packets and deadlines of the packet socket, beyond which paths may deliver.
- WebTTY, cryptography, configuration, the control plane client, doctor, CORS, TURN, protobuf, keychain and PKCS#11 code.
