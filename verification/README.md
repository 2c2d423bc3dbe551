# Claworc control plane: verified models

Claworc runs OpenClaw agents in containers and gives people a desktop, a terminal, a browser and
shared folders on them through one control plane. Most of that control plane is HTTP, SQL and
container calls; this project models the small state machines, stream transformers and step
protocols inside it and proves what they promise, with Dafny 4.11
(`dafny verify dfyconfig.toml`).

| module | what it models |
|---|---|
| `RfbMessages`, `RfbFilter` | the incremental filter on a viewer's RFB byte stream (section 7.5 of RFC 6143 and SetDesktopSize, type 251) |
| `DesktopViewers`, `ViewerHandover` | the viewer registry with its one primary, and its race with the filter goroutines |
| `KeyRotation` | rotation of the SSH key pair over many instances, with a crash or failure at any step |
| `StreamRewriter` | the reader that rewrites codex event lines in a chunked response |
| `Base64`, `ShellCommands`, `RemoteFiles` | commands quoted at two shell levels, and the file writer built on them |
| `Rings` | the terminal scrollback ring and the per-instance event rings |
| `DockerStream` | decoding Docker's multiplexed output streams |
| `HostKeys`, `BrowserClients` | trust on first use of browser host keys, and the cache of SSH clients |
| `SpawnBridge` | the single-flight spawn of browser sessions |
| `SharedFolders` | which instances mount a folder and which restart when it is updated |
| `UsageStats` | the four usage breakdowns computed from one scan |
| `TokenBucket` | the terminal's rate limiter |
| `SourceText` | the comment stripper and bracket extractor of the model-catalog script |

Code that changes state in place is modelled by classes and loops, each proved equal to a function
or to the property itself; the theorems are about those functions. Concurrent code is modelled by
atomic steps, each of which looks at or changes shared state once (a critical section, a channel
operation, a status query, a row write, a remote command, a file operation), and proved over every
list of enabled steps, so a run may stop anywhere.

## Where a promise does not hold as stated

- A viewer's latest size at promotion is not always forwarded or replayed: a newer one may be
  recorded before the replay reads (`ViewerHandover.OvertakenSizeIsLost`).
  `FateOfTheSizeAtPromotion` gives the exact condition; the size that is latest once things are
  quiet is never lost (`LatestSizeIsNeverLost`).
- Key rotation can lock an instance out. The comment at control-plane/internal/sshkeys/rotation.go:239
  says the old key is still present when the final rewrite fails, but that rewrite
  (control-plane/internal/orchestrator/common.go:26-29) truncates `authorized_keys` before it writes.
  Lock-out is exactly that case (`KeyRotation.LockedOutIffEmptied`), and full success may still be
  reported (`FullSuccessCanLockOut`).
- A failed `WriteFile` leaves a prefix of the data, but of whole chunks exactly when the broken
  command did all of its work or none of it (`RemoteFiles.FailureLeavesPrefix`, with a run that
  leaves part of a chunk in `PartialChunkIsLeft`). Its comment promises a pipe into `cat` for small
  files; the code always sends base64 chunks.
- Restarts match mount changes for instances with a team. Team 0 stands for "no team" where mounts
  are computed but is an ordinary value where restarts are; `SharedFolders.RestartsAreExactIff` says
  for which updates that shows.
- `stripDockerLogHeaders` is exact only when stream types are 0 to 2 and no frame but the last is
  empty (`DockerStream.StripIsExactIffStrippable`).
- `EnsureSession` can return nil after a spawn that failed, without anyone having seen the session
  run since the entry it waits on was made. There are two sources: an old row that says running
  (`SpawnBridge.FailedSpawnCanAnswerNil`), and a fast path that saw the session running before the
  entry was made and writes its row late (`LateRefreshCanAnswerNil`). `SuccessIsWitnessed` and
  `MisledIffStale` prove that there are no others and that either one suffices.
- The token bucket drops the fraction of a token at each call, so an empty bucket polled at short
  intervals never recovers (`TokenBucket.EmptyBucketRecoversIff`).

## Model

| member | source | states |
|---|---|---|
| RfbMessages.PeekMeasuresEncoding | control-plane/internal/handlers/desktop_filter.go:108-148 | in front of any bytes, the length peeked for an encoded client message is the length of its encoding, and the type byte is 251 exactly for SetDesktopSize |
| RfbMessages.WireForms | control-plane/internal/handlers/desktop_filter.go:86-148 | type bytes 0, 2, 3, 4, 5, 6 and 251, the layout and the length of every message, byte by byte |
| RfbMessages.DecodeInverse | control-plane/internal/handlers/desktop_filter.go:70-81 | every complete message at the head of a buffer is the encoding of a valid message, so nothing but messages is cut off |
| RfbMessages.PeekIsStable | control-plane/internal/handlers/desktop_filter.go:108-148 | a verdict on the head of a buffer does not change when more bytes arrive |
| RfbMessages.UnfinishedIffStalled | control-plane/internal/handlers/desktop_filter.go:57-69 | the loop stops to wait exactly on proper prefixes of valid messages |
| RfbFilter.RfbClientFilter.Process | control-plane/internal/handlers/desktop_filter.go:38-84 | output, handshake counter, buffer, bypass flag, recorded resize and readings of the flag after a chunk are those of the one-shot function on state and chunk, also when the promotion comes during the call |
| RfbFilter.ChunkingIsIrrelevant | control-plane/internal/handlers/desktop_filter.go:38-84 | any cutting of a stream into chunks gives the output and final state of the whole stream fed at once, whichever reading of the flag is the first to see the promotion |
| RfbFilter.FilterMeetsSpecification | control-plane/internal/handlers/desktop_filter.go:38-84 | for every chunking of handshake, messages and rest, and every moment of promotion: out come the 14 handshake bytes, the messages in order without the resizes read before the promotion, then everything from the first unknown type on; an unfinished message stays buffered and the last resize is remembered |
| RfbFilter.EveryStreamParses | control-plane/internal/handlers/desktop_filter.go:56-83 | every byte sequence is valid messages followed by an unknown type or an unfinished message, so the specification covers all streams |
| RfbFilter.HandshakeIsForwarded | control-plane/internal/handlers/desktop_filter.go:43-54 | a stream that ends within the handshake is forwarded as it is |
| RfbFilter.PrimaryLosesNothing | control-plane/internal/handlers/desktop_filter.go:38-84 | for a primary, output plus buffer is the input, for every stream and chunking |
| RfbFilter.PromotionSplitsTheStream | control-plane/internal/handlers/desktop_filter.go:71-80 | promotion before, within or after any call, or never: resizes read before it are dropped, later ones forwarded, all else untouched, and the last one of all is remembered |
| RfbFilter.EveryPromotionSplits | control-plane/internal/handlers/desktop_filter.go:71-80 | every message list splits at the promotion as that theorem needs, whenever it comes |
| RfbFilter.LastResizeIs | control-plane/internal/handlers/desktop_filter.go:72 | the size remembered is the encoding of the last resize in the stream, whatever follows it |
| DesktopViewers.ViewerSession.ReplaySetDesktopSize | control-plane/internal/handlers/desktop_viewers.go:33-42 | if a size is recorded, the inject function is set and fewer than 4 messages are queued, exactly the recorded message is appended to the queue; otherwise the queue is unchanged |
| DesktopViewers.ViewerRegistry.Join | control-plane/internal/handlers/desktop_viewers.go:53-65 | the new session is appended to its instance's list, is primary exactly when the list was empty, and lists stay in join order with exactly their heads primary |
| DesktopViewers.ViewerRegistry.Leave | control-plane/internal/handlers/desktop_viewers.go:67-95 | the session is removed, the next one is promoted exactly when a head left and its recorded message is then appended to its queue under those conditions, every other session is untouched, and exactly the heads are primary again |
| ViewerHandover.HeadIsThePrimary | control-plane/internal/handlers/desktop_viewers.go:53-95 | in every interleaving each list is non-empty, in join order, and exactly its head is primary |
| ViewerHandover.NoReplayIsDropped | control-plane/internal/handlers/desktop_websockify.go:123-132 | in every interleaving a session gets at most one replay, so the inject queue never drops one |
| ViewerHandover.LatestSizeIsNeverLost | control-plane/internal/handlers/desktop_filter.go:71-75 | once the filter and the replays of a primary are quiet, its latest size has been forwarded or replayed |
| ViewerHandover.FateOfTheSizeAtPromotion | control-plane/internal/handlers/desktop_viewers.go:84-94 | the size that was latest at the promoting Leave is delivered if and only if its own check was still ahead then or no size was recorded between that Leave and the replay's reading; otherwise a newer size was delivered |
| ViewerHandover.PromotedOnce | control-plane/internal/handlers/desktop_viewers.go:76-90 | in every run at most one Leave promotes a session |
| ViewerHandover.RecordedBetween | control-plane/internal/handlers/desktop_filter.go:71-72 | between two points of a run the last recorded size is the same if and only if the filter recorded nothing in between |
| ViewerHandover.ReplayStepsReplay | control-plane/internal/handlers/desktop_viewers.go:33-42 | from every state, the steps that finish a replay change the session's queue as its replay method does |
| ViewerHandover.OvertakenSizeIsLost | control-plane/internal/handlers/desktop_viewers.go:33-42 | a run in which the size at promotion is neither forwarded nor replayed, but a newer one is |
| KeyRotation.LockedOutIffEmptied | control-plane/internal/sshkeys/rotation.go:168-271 | at every point of every run, an instance that accepted the old key accepts no key held in ssh_key or ssh_key.old if and only if the final rewrite has emptied its authorized_keys |
| KeyRotation.NobodyIsLockedOut | control-plane/internal/sshkeys/rotation.go:168-271 | when no final rewrite breaks half-way, such an instance always accepts a key on disk, except while that rewrite is between truncating and writing |
| KeyRotation.OldKeyIsKeptUntilAllPass | control-plane/internal/sshkeys/rotation.go:185-206 | the old private key is in ssh_key or ssh_key.old until every instance has passed, and the new key is in use only once it is in ssh_key |
| KeyRotation.ResultTellsTheTruth | control-plane/internal/sshkeys/rotation.go:242-273 | full success is reported exactly when every instance passed; both key files hold the new pair; passed instances accept the new key unless their rewrite broke, failed ones keep the old key, and both backups stay on partial success |
| KeyRotation.FailureIsHarmless | control-plane/internal/sshkeys/rotation.go:189-203 | after an error return the old key is loaded, on disk and accepted wherever it was, and the old public key is in its file or its backup |
| KeyRotation.OldKeyIsTakenAway | control-plane/internal/sshkeys/rotation.go:236-245 | for every run and instance: once its final rewrite is written it accepts the new key and nothing else; an instance that passed accepts another key if and only if its rewrite was skipped and it accepted such a key at the start |
| KeyRotation.AppendAddsTheNewKey | control-plane/internal/sshkeys/rotation.go:168-183 | until its final rewrite an instance accepts what it accepted before, and the new key exactly when an append has landed or it did already |
| KeyRotation.RewriteNeedsTest | control-plane/internal/sshkeys/rotation.go:209-240 | an instance's file is rewritten only after its append was reported done, its address was found and the new key's test succeeded |
| KeyRotation.RemovalsRemove | control-plane/internal/sshkeys/rotation.go:192-201 | which backup a successful removal drops, in every phase that removes one |
| KeyRotation.OnlyAbortsWipe | control-plane/internal/orchestrator/common.go:26-35 | an instance ends up wiped only through a final rewrite that broke after truncating |
| KeyRotation.FullSuccessCanLockOut | control-plane/internal/sshkeys/rotation.go:236-245 | a run that reports full success, removes the backups and has locked its instance out |
| KeyRotation.InvariantHolds | control-plane/internal/sshkeys/rotation.go:139-324 | every step, also each half of copying, saving and restoring files, keeps what each phase needs of the disk, the signer and every instance |
| StreamRewriter.CodexEventRewriter.Consume | control-plane/internal/llmgateway/stream_rewriter.go:65-76 | complete lines of pending bytes plus chunk are rewritten into the ready buffer, the rest stays pending |
| StreamRewriter.CodexEventRewriter.Read | control-plane/internal/llmgateway/stream_rewriter.go:36-61 | one call of the loop changes state and returns bytes and error as its functional specification does |
| StreamRewriter.SplitLinesOwes | control-plane/internal/llmgateway/stream_rewriter.go:65-76 | rewriting complete lines now and the rest later gives the rewriting of the whole, whatever follows |
| StreamRewriter.FillKeepsOwed | control-plane/internal/llmgateway/stream_rewriter.go:37-59 | the fill loop never changes what the reader still owes and ends with ready bytes or with nothing owed |
| StreamRewriter.ReadDelivers | control-plane/internal/llmgateway/stream_rewriter.go:36-61 | a read returns the next bytes owed; it fails exactly when none are, with the source's own error; a non-empty buffer makes progress |
| StreamRewriter.ReadAllDelivers | control-plane/internal/llmgateway/stream_rewriter.go:36-61 | from any valid state, any sequence of reads returns a prefix of what is owed and an error only after all of it |
| StreamRewriter.ReaderMeetsSpecification | control-plane/internal/llmgateway/stream_rewriter.go:36-76 | for every chunking of a source and every sequence of buffer sizes the bytes are a prefix of the rewritten stream, the source's error comes after all of it, and enough non-empty buffers get there |
| StreamRewriter.DoneEventIsRead | control-plane/internal/llmgateway/stream_rewriter.go:36-106 | a source that sends `event: response.done` and a newline in any pieces is read as `event: response.completed` and a newline, then the source's error |
| StreamRewriter.RewriteKeepsLine | control-plane/internal/llmgateway/stream_rewriter.go:81-106 | rewriting keeps the line terminator, makes one line of one line, and adds no newline |
| StreamRewriter.DoneLineIsRenamed | control-plane/internal/llmgateway/stream_rewriter.go:94-105 | `event:`, any white space, `response.done`, any white space and a terminator becomes `event: response.completed` with that terminator |
| StreamRewriter.OnlyDoneLinesChange | control-plane/internal/llmgateway/stream_rewriter.go:94-101 | every line not of that form is returned unchanged |
| StreamRewriter.AsciiSpaces | control-plane/internal/llmgateway/stream_rewriter.go:98 | of the bytes below 128 exactly tab, newline, vertical tab, form feed, carriage return and space are white space |
| StreamRewriter.RewriteLineIdempotent | control-plane/internal/llmgateway/stream_rewriter.go:81-106 | rewriting a line twice is rewriting it once |
| StreamRewriter.RewriteStreamIsPerLine | control-plane/internal/llmgateway/stream_rewriter.go:65-76 | the rewritten stream is its lines rewritten one by one, then its last partial line rewritten |
| StreamRewriter.EveryStreamIsLines | control-plane/internal/llmgateway/stream_rewriter.go:65-76 | every stream is a list of newline-terminated lines and a partial one |
| StreamRewriter.RewriteStreamIdempotent | control-plane/internal/llmgateway/stream_rewriter.go:36-106 | rewriting a whole stream twice is rewriting it once |
| Base64.RoundTrip | control-plane/internal/sshproxy/files.go:239-240 | decoding the encoding of any bytes, as in section 4 of RFC 4648, gives them back |
| Base64.EncodedCharacters | control-plane/internal/sshproxy/files.go:239-240 | encodings consist of the alphabet and the padding character |
| Base64.KnownEncodings | control-plane/internal/sshproxy/files.go:239 | encodings given in section 10 of RFC 4648, and ones that use the ends of the alphabet |
| ShellCommands.QuotedScansBack | control-plane/internal/sshproxy/instance.go:22-24 | a POSIX shell reads a quoted string back as part of one word with exactly its characters, before any further text |
| ShellCommands.ExecOpenclaw | control-plane/internal/sshproxy/instance.go:37-50 | more than 65535 arguments are refused; otherwise the loop builds the quoted command |
| ShellCommands.JoinedWordsScanBack | control-plane/internal/sshproxy/instance.go:43-48 | quoted words joined by spaces are read back as exactly those words |
| ShellCommands.OpenclawArgumentsSurvive | control-plane/internal/sshproxy/instance.go:37-50 | for every argument list the outer shell reads su, -, claworc, -c and one word, and a shell reading that word gets openclaw and the original arguments |
| RemoteFiles.SanitizePath | control-plane/internal/sshproxy/files.go:173-182 | the loop drops exactly the control characters |
| RemoteFiles.WrappedRuns | control-plane/internal/sshproxy/files.go:166-168 | a command wrapped for the claworc user is what the inner shell runs, whatever quotes it holds |
| RemoteFiles.TruncateRuns | control-plane/internal/sshproxy/files.go:226 | the first command empties exactly the named file |
| RemoteFiles.AppendRuns | control-plane/internal/sshproxy/files.go:239-241 | a chunk's command appends exactly the chunk's bytes to exactly the named file, or the first of them when it breaks |
| RemoteFiles.EncodedIsUnescaped | control-plane/internal/sshproxy/files.go:240 | base64 text needs no escaping between single quotes |
| RemoteFiles.EchoedChunkDecodes | control-plane/internal/sshproxy/files.go:239-240 | the newline that echo adds does not change what is decoded |
| RemoteFiles.WriteFile | control-plane/internal/sshproxy/files.go:218-252 | for every way the commands go, the remote files and the answer are those determined by the first command that breaks |
| RemoteFiles.WriteSucceedsIff | control-plane/internal/sshproxy/files.go:218-252 | a write succeeds if and only if the truncation and every chunk's command complete; then the file holds exactly the data |
| RemoteFiles.FailureLeavesPrefix | control-plane/internal/sshproxy/files.go:234-248 | when a chunk's command is the first to break, the file holds the earlier chunks and what that command appended, no other file changes, and the file ends at a chunk boundary if and only if that command did nothing or all of its work |
| RemoteFiles.PartialChunkIsLeft | control-plane/internal/sshproxy/files.go:234-248 | a run that leaves part of a chunk |
| Rings.ScrollbackBuffer.constructor | control-plane/internal/sshterminal/scrollback.go:25-35 | the ring starts empty with 120 bytes per line and at least 1024 bytes |
| Rings.ScrollbackBuffer.Write | control-plane/internal/sshterminal/scrollback.go:37-50 | after a write of any length the ring stands for everything written before, then the new bytes |
| Rings.ScrollbackBuffer.Bytes | control-plane/internal/sshterminal/scrollback.go:53-68 | a fresh copy of exactly the last bytes of everything written, up to the ring's size |
| Rings.ScrollbackBuffer.Len | control-plane/internal/sshterminal/scrollback.go:71-79 | the number of those bytes |
| Rings.RingStep | control-plane/internal/sshterminal/scrollback.go:37-50 | copying one piece at the write position, wrapping at the end, drops exactly the oldest bytes in reading order |
| Rings.EventBuffer.Record | control-plane/internal/sshproxy/events.go:36-42 | the ring then stands for one more event |
| Rings.EventBuffer.History | control-plane/internal/sshproxy/events.go:45-59 | the last 100 recorded events, oldest first |
| Rings.EventLog.RecordEvent | control-plane/internal/sshproxy/events.go:94-106 | the event joins its own instance's history; all other histories are unaffected |
| Rings.EventLog.GetEvents | control-plane/internal/sshproxy/events.go:109-118 | the last 100 events of that instance |
| Rings.EventLog.Remove | control-plane/internal/sshproxy/events.go:135-139 | forgets one instance's events and no other's |
| DockerStream.DemuxDockerStream | control-plane/internal/orchestrator/docker.go:733-761 | the loop over header and payload reads writes what the one-shot function on the whole stream gives, with its error |
| DockerStream.DemuxOfEncoding | control-plane/internal/orchestrator/docker.go:733-761 | for every frame list, type-2 payloads go to stderr and all others to stdout, in order and without error |
| DockerStream.DemuxBytes | control-plane/internal/orchestrator/docker.go:736-759 | any eight header bytes whose last four give the payload's size, most significant first: the payload goes to stderr when the first byte is 2, else to stdout, and decoding goes on behind it |
| DockerStream.TruncationIsReported | control-plane/internal/orchestrator/docker.go:737-758 | a stream cut inside a frame delivers all before it, the part of its payload that arrived, and an error |
| DockerStream.StripDockerLogHeaders | control-plane/internal/orchestrator/docker.go:642-663 | the loop returns what its recursive description gives and shrinks the data each round |
| DockerStream.RawDataStays | control-plane/internal/orchestrator/docker.go:657-660 | data shorter than a header, or whose first byte is above 2, is returned unchanged |
| DockerStream.StripBytes | control-plane/internal/orchestrator/docker.go:647-656 | a header goes and its payload stays; with a size of 0 or beyond the data, everything behind the header is returned |
| DockerStream.StripIsExactIffStrippable | control-plane/internal/orchestrator/docker.go:642-663 | stripping yields all payloads in order if and only if types are 0 to 2 and no frame but the last is empty; otherwise the output is longer |
| HostKeys.ActStep | control-plane/internal/browserprov/local.go:58-95 | a first look, a second look or a clear keeps the recorded key equal to the first key presented since the last clear, and all verdicts true to it |
| HostKeys.OneKeyHolds | control-plane/internal/browserprov/local.go:58-95 | in every interleaving of callbacks and clears, the callbacks of an instance that decide between two clears accept exactly one key, the first presented, which stays the recorded one until the next clear |
| BrowserClients.LocalProvider.LookUpClient | control-plane/internal/browserprov/local.go:420-432 | a cached client that answers its keepalive is returned and nothing changes; one that does not is taken out of the cache together with its host key; without a cached client nothing changes |
| BrowserClients.LocalProvider.PublishClient | control-plane/internal/browserprov/local.go:476-484 | an already cached client wins and the dialed one is to be closed; otherwise the dialed one is cached; the returned client is the cached one |
| BrowserClients.LocalProvider.CloseBrowserClient | control-plane/internal/browserprov/local.go:486-496 | the cached client is taken out and handed over for closing, others stay |
| BrowserClients.LocalProvider.FirstLook | control-plane/internal/browserprov/local.go:60-62 | decides exactly when a key is recorded |
| BrowserClients.LocalProvider.SecondLook | control-plane/internal/browserprov/local.go:64-78 | under the write lock an absent key is recorded and accepted, a present one compared |
| BrowserClients.MoveKeeps | control-plane/internal/browserprov/local.go:419-496 | creating, caching, uncaching or closing a client keeps every client in exactly one place |
| BrowserClients.OpenClientsAreAccounted | control-plane/internal/browserprov/local.go:419-496 | in every interleaving the open clients are the cached ones and those held by one thread each, disjointly, and no client is closed twice |
| BrowserClients.NothingLeaks | control-plane/internal/browserprov/local.go:419-496 | when no thread is at work exactly the cached clients are open, one per instance |
| BrowserClients.JustifiedStep | control-plane/internal/browserprov/local.go:476-484 | a client newly handed out is the cached one for its instance right before or after that step, or the one its losing dial had chosen |
| BrowserClients.ReturnedWasCached | control-plane/internal/browserprov/local.go:419-484 | in every run a returned client was the cached one for its instance, and open, at the very step that chose it |
| BrowserClients.NobodyIsStuck | control-plane/internal/browserprov/local.go:420-432 | a thread can always go on, or waits for a lock whose holder can |
| BrowserClients.RunsTrustOneKey | control-plane/internal/browserprov/local.go:58-95 | the one-key-between-clears property in every run of dials, stale drops, stops and deletions |
| BrowserClients.LookUpGoesByKeepalive | control-plane/internal/browserprov/local.go:421-426 | in every run a look-up hands out the cached client exactly when it answered its keepalive, and drops it exactly when it did not |
| BrowserClients.DroppedWasDead | control-plane/internal/browserprov/local.go:421-427 | in every run a client is being dropped as stale only after a keepalive of the same thread that it did not answer, while it was cached |
| BrowserClients.StaleDropForgets | control-plane/internal/browserprov/local.go:426-431 | the steps of a stale drop together do what the look-up's critical section does: cache entry, client and host key go |
| BrowserClients.RejectionEndsTheDial | control-plane/internal/browserprov/local.go:460-474 | a rejected host key ends the dial without a client |
| BrowserClients.ClientsComeFromTrust | control-plane/internal/browserprov/local.go:460-474 | in every run a client is created only by a thread whose dial's host key was accepted for its instance |
| SpawnBridge.NeverTwoSpawns | control-plane/internal/browserprov/bridge.go:118-153 | in every interleaving an instance has an entry exactly when it has an unsettled spawn, never two of them, and each channel is closed once, by settling |
| SpawnBridge.NoWaiterIsOrphaned | control-plane/internal/browserprov/bridge.go:120-166 | a waiting caller can read its answer, or the spawn it waits for has an enabled step |
| SpawnBridge.SuccessIsWitnessed | control-plane/internal/browserprov/bridge.go:394-406 | in every interleaving a waiter is told of success only if the session was seen running after its entry was made, or when it was made the row said running or an earlier fast path was still to write that |
| SpawnBridge.MisledIffStale | control-plane/internal/browserprov/bridge.go:104-167 | from any reachable state, a call that makes a new entry can be told of success without the session being seen running any more, its own spawn failing, if and only if at its entry the row says running or a fast path is still to write that |
| SpawnBridge.FailedSpawnCanAnswerNil | control-plane/internal/browserprov/bridge.go:276-296 | a run in which the spawn fails its checks and the caller still gets nil because of an old row |
| SpawnBridge.LateRefreshCanAnswerNil | control-plane/internal/browserprov/bridge.go:106-113 | a run in which no row says running at the entry, the spawn fails, and a fast path that looked earlier writes its row in time for the answer to be nil |
| SpawnBridge.BrowserBridge.Join | control-plane/internal/browserprov/bridge.go:119-131 | an existing entry is shared; otherwise one new channel and entry are made |
| SpawnBridge.BrowserBridge.DoSpawn | control-plane/internal/browserprov/bridge.go:276-343 | when the row says running afterwards, for every combination of failing checks, provider, probe and row writes |
| SpawnBridge.SpawnStepsSpawn | control-plane/internal/browserprov/bridge.go:276-343 | from every state, the steps of a spawn, however it fares, leave the rows and the result of the spawn's body |
| SpawnBridge.BrowserBridge.EnsureSession | control-plane/internal/browserprov/bridge.go:104-167 | a lone call leaves no entry and closes its one channel; with working row writes it returns nil if and only if a session runs, or the spawn failed its checks while the old row said running |
| SharedFolders.GetSharedFoldersForInstance | control-plane/internal/database/database.go:475-508 | exactly the folders that list the instance or its non-zero team |
| SharedFolders.ExpandFolderEffectiveInstances | control-plane/internal/handlers/shared_folders.go:306-332 | without duplicates, exactly the listed instances and the rows whose team is listed |
| SharedFolders.SymmetricDiff | control-plane/internal/handlers/shared_folders.go:376-398 | without duplicates, exactly the elements of one list and not the other |
| SharedFolders.MergeSets | control-plane/internal/handlers/shared_folders.go:400-413 | without duplicates, exactly the elements of either list |
| SharedFolders.ComputeFolderUpdateRestartTargets | control-plane/internal/handlers/shared_folders.go:350-373 | each target once: all mapped before or after if the path changes, else those whose mapping changes; titled by whether they are still mapped |
| SharedFolders.Database.UpdateSharedFolder | control-plane/internal/handlers/shared_folders.go:188-300 | when each answer is given; a refused request changes nothing; otherwise exactly the fields the request carries are replaced in that row, a live instance with a team restarts if and only if its set of mounts has changed, and none restarts twice |
| SharedFolders.ValidMountPathIs | control-plane/internal/handlers/shared_folders.go:20-37 | a mount path is absolute and neither one of the three reserved directories nor below one |
| SharedFolders.MountsDifferIff | control-plane/internal/database/database.go:475-508 | replacing one folder changes an instance's set of (folder, path) mounts if and only if the path changed and it is covered before or after, or its coverage changed |
| SharedFolders.EffectiveIsCoverage | control-plane/internal/handlers/shared_folders.go:306-332 | for a live instance with a team, being in the expanded list and being covered in the mount computation are the same |
| SharedFolders.RestartsAreExactIff | control-plane/internal/handlers/shared_folders.go:243-297 | over all instances, teamless ones included, restarts match mount changes if and only if team 0 is in neither team list, or in both with path and explicit instances unchanged |
| UsageStats.Add | control-plane/internal/handlers/providers.go:1064-1070 | adding a row keeps every group's entry equal to the sums over its rows |
| UsageStats.Aggregate | control-plane/internal/handlers/providers.go:1072-1107 | one scan gives, in each of the four maps, an entry per occurring key that equals the sums over that key's rows |
| UsageStats.List | control-plane/internal/handlers/providers.go:1134-1151 | in whatever order a map is ranged over, each group is listed once and the running totals are the sums over all rows |
| UsageStats.GroupsSumToAll | control-plane/internal/handlers/providers.go:1134-1199 | whatever the grouping, the listed groups add up to the sums over the rows |
| UsageStats.ListedGroupsHaveColumns | control-plane/internal/handlers/providers.go:1064-1070 | every column of every listed group is the sum of that field over the rows of the group |
| UsageStats.GetUsageStats | control-plane/internal/handlers/providers.go:1056-1199 | the sums over the four breakdowns, the reported totals and the sums over the rows are all equal, column by column |
| TokenBucket.Limiter.Allow | control-plane/internal/handlers/terminal.go:122-138 | answer and new bucket are those of refilling by whole tokens, capping and spending one |
| TokenBucket.StaysValid | control-plane/internal/handlers/terminal.go:122-138 | over every run the tokens stay between 0 and the maximum |
| TokenBucket.SpendingIsBounded | control-plane/internal/handlers/terminal.go:122-138 | tokens spent and left are at most those at the start plus those earned by the elapsed time |
| TokenBucket.WindowIsBounded | control-plane/internal/handlers/terminal.go:122-138 | in every window between two calls of a run at most the maximum plus the rate times the window's length in seconds is allowed |
| TokenBucket.EmptyBucketRecoversIff | control-plane/internal/handlers/terminal.go:122-138 | once empty, some later call is allowed if and only if a single gap between calls earns a whole token |
| TokenBucket.SpacedCallsPass | control-plane/internal/handlers/terminal.go:122-138 | calls that are each a whole token apart are all allowed |
| TokenBucket.BurstPasses | control-plane/internal/handlers/terminal.go:122-138 | as many calls in a row as there are tokens are allowed, however close together |
| SourceText.StripComments | scripts/extract_models.py:43-79 | the scanning loop returns the text with literals and plain characters kept, block comments replaced by a space and line comments dropped |
| SourceText.LexOfStrip | scripts/extract_models.py:43-79 | the tokens of the stripped text are exactly the tokens that stripping keeps, in order |
| SourceText.StripIsClean | scripts/extract_models.py:43-79 | for every text the result has no comment, has the same string literals in the same order, and is unchanged by stripping again |
| SourceText.LineCommentGoes | scripts/extract_models.py:73-75 | `//` and the text up to the next newline go, the newline stays, and what follows is stripped on its own |
| SourceText.BlockCommentGoes | scripts/extract_models.py:66-71 | a block comment becomes a space, up to the first end mark behind its beginning |
| SourceText.OpenBlockCommentGoes | scripts/extract_models.py:66-71 | without an end mark it reaches to the end of the text |
| SourceText.ClosedLiteralStays | scripts/extract_models.py:51-64 | a literal in any of the three quotes, with escapes of its own quote in it, stays as it is, and what follows is stripped on its own |
| SourceText.PlainCharacterStays | scripts/extract_models.py:76-78 | every other character stays unless it begins a comment |
| SourceText.BalancedExtract | scripts/extract_models.py:82-109 | the result is the shortest slice from the start that begins with the opening bracket and ends with the bracket that closes it; None exactly when there is none |
| SourceText.ExtractOfExtract | scripts/extract_models.py:82-109 | an extracted slice is its own extraction at index 0 and has no shorter balanced prefix |
| SourceText.DepthInside | scripts/extract_models.py:93-108 | strictly inside an extracted slice the depth is positive, so its last bracket closes its first |
| SourceText.QuotedBracketsDoNotCount | scripts/extract_models.py:92-101 | a closed literal leaves the scan as it was, whatever brackets it holds |
| SourceText.BracketsCount | scripts/extract_models.py:102-107 | outside literals an opening bracket adds one to the depth, a closing one takes one away, and nothing else changes it |

## Left out

- HTTP, WebSocket, JSON, SQL and container calls: access checks, rows, chunks, verdicts of remote
  commands, clocks and connection errors are parameters or nondeterministic steps.
- Steps are atomic: critical sections, single remote commands and single file operations. In
  `KeyRotation` copying and saving a file are two steps each (truncated, then written).
- KeyRotation.InvariantHolds: does not cover two rotations in a row, because a second run overwrites
  `ssh_key.old`; nor the text form of `authorized_keys`.
- ViewerHandover.LatestSizeIsNeverLost: says "not lost", not which size wins upstream when a replay
  is queued behind a newer forwarded message.
- RfbFilter.RfbClientFilter.Process: stands for the readings of the primary flag by how many come
  before the promotion; who promotes, and when, is the subject of `ViewerHandover`.
- ShellCommands.OpenclawArgumentsSurvive: the lexer covers quoting and the operators used here;
  expansions cannot occur because it refuses every other unquoted character. NUL bytes and invalid
  UTF-8 in arguments are not modelled.
- RemoteFiles.WriteFile: a broken command gets some number of bytes far; the remote file system has
  no other writers, limits or permissions.
- BrowserClients.ReturnedWasCached: does not say the client is still cached when the caller uses it;
  another thread may close it at any time.
- SpawnBridge.NeverTwoSpawns: assumes what the task manager provides (a started task runs its body
  once, also after a panic); the idle reaper's overlap with a spawn and the touch map are not modelled.
- SpawnBridge.BrowserBridge.EnsureSession: is one call with nothing else going on; sharing, waiting,
  cancellation and interference are in the step model of the same module.
- SharedFolders.Database.UpdateSharedFolder: database errors, concurrent updates and the order in
  which restarts start. Deleting a folder restarts only the explicitly listed instances and is not
  modelled.
- UsageStats.GetUsageStats: costs are reals and counts unbounded, so floating-point rounding and int64
  overflow are left out, as are names, filters and the sorting of the lists.
- TokenBucket.Limiter.Allow: the product of seconds and rate is exact, not a float64.
- SourceText.DepthInside: for opening brackets that are not quotes, the only ones the script passes.
- Rings.EventBuffer.History: locking, timestamps and the copying of all histories at once.
- Default lookups, settings, login sessions, field copying and all other handlers are not modelled.
- Cryptography, OAuth, WebAuthn, cron parsing, the frontend, the website and the end-to-end tests are
  not modelled.
