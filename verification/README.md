# A verified model of the Ootle Go SDK

The SDK is a thin host over a Rust core: it reads the indexer's event streams, resolves a
transaction's inputs, seals through the core, submits, and waits for finality. This project models
the parts of the Go code that hold protocol, ownership, parsing or arithmetic of their own, and proves
what they promise for every input, every server, every core and every interleaving.

`dafny verify dfyconfig.toml` checks everything.

## How the files follow the program

| file | models |
|---|---|
| `Sse.dfy`, `SseLaws.dfy` | `transport/sse.go`: the stream opener, the reader's line machine, its channels; the laws of the parser |
| `Watch.dfy`, `WatchLaws.dfy` | `ootle/events.go`: the reconnecting watch; what it delivers against which servers |
| `Fetching.dfy` | chunked fetches (`transport/transport.go`), want lists and resolutions (`ootle/driver.go`) |
| `Resolution.dfy` | the bounded resolution loops, as functions of what the core and the transport answer |
| `Cffi.dfy` | `internal/cffi/cffi.go`: who owns which core handle |
| `Drivers.dfy` | the public, generic and stealth drivers |
| `Cosign.dfy` | `ootle/cosign.go`: `PrepareCosign` and the sealer |
| `Finalization.dfy` | `ootle/finalization.go`: subscribe, submit, wait, poll |
| `Epochs.dfy`, `StealthBuilder.dfy` | epoch settling; the stealth builder's sums, guards and positional split |
| `Instructions.dfy`, `Hex.dfy` | typed arguments, instructions and intents as JSON trees; hex |
| `Results.dfy` | the search of a diff, enumeration by exclusion, transaction outcomes |
| `Prelude.dfy` | options, results, 64-bit sums, first-seen deduplication |

## Reading the model

- A `char` is one byte of a stream; a JSON document is a tree, or the fields the code reads from it.
- A server, a transport and the core are arbitrary functions, so a theorem about them speaks of all of
  them. A finite run of something endless (a watch, a poll) is any finite prefix of it.
- Loops over mutable state are methods, each proved equal to a function of its inputs; the laws are
  lemmas about those functions. Histories are snoc lists (`Then(earlier, last)`).
- The C side grants a new ownership token with every handle it returns, even if the pointer is the
  one it was given, so that use of a consumed handle is visible. The header's safety clauses are the
  preconditions of the C functions; `Cffi.LegalIffLinear` shows that keeping them is the same as
  giving every token a linear life.
- A method's `rest` parameter is a ghost: what the host owns besides the handle in question.

## Where the code and what is said of it differ

The model follows the code. For each of these a lemma gives the exact condition, and a lemma or the
same one names an input that shows it.

- The first connect of a watch seeded with an after-id does not carry the `after_id` parameter
  (`ootle/events.go:177-189`), although the comments say it is sent only then: the seed already
  fills `Last-Event-ID`. The parameter is sent exactly after a last decoded frame without an id, and
  the watch then starts over from the seed (`WatchLaws.AfterIdSentIff`).
- The frames of a body's prefix, without the flush at its end, are not always a prefix of the frames
  of the whole body: a last line of nothing but CRs counts as blank, and so closes a frame that more
  bytes could still have extended. `SseLaws.PrefixSafe` gives the condition both ways,
  `SseLaws.EarlyPart` the shortest such body.
- `StealthTransferBuilder.Fee` has no effect: an intent carries the fee last set exactly when `Intent`
  is given it again (`StealthIntents.FeesAreIgnored`, `FeeIsLost`).
- The builder's revealed-output guard compares sums modulo 2^64, so it also accepts totals that differ
  by a multiple of it (`StealthIntents.MismatchAccepted`, `GuardWraps`).
- A dry run is submitted for real exactly by the stealth driver
  (`Drivers.DryRunIsSubmittedIff`, `StealthDryRunIsSubmitted`).
- "Exactly one field is set after unmarshalling" a transaction outcome holds for a fresh receiver, and
  for a reused one exactly when it held nothing else (`Results.OneFieldIff`, `StaleReject`).

## Model

| member | source | states |
|---|---|---|
| Sse.SplitField | transport/sse.go:265-276 | the name is what precedes the first colon, and at most one leading space of the value is dropped |
| Sse.ReadString | transport/sse.go:212 | the text up to and including the next LF, or the rest together with a failure |
| Sse.Accumulators.Dispatch | transport/sse.go:197-209 | sends the pending frame if it has a data line, drops it otherwise, resets the rest; stops exactly when the context wins the send |
| Sse.Accumulators.Line | transport/sse.go:218-241 | one step of the line machine: blank, comment, known or unknown field |
| Sse.ReadStream | transport/sse.go:181-259 | for every body, read ending and consumer, the channel operations are those of the body's blocks of lines: the frames in order, the flush at EOF only, at most one error, then errs, out and body closed |
| Sse.ReadIsBlocks | transport/sse.go:187-241 | the four accumulators always hold the last event, last id and joined data of the open block, and what was sent is the closed blocks' frames |
| Sse.FailureDone | transport/sse.go:121-128 | a failed open, in this order, leaves one error in errs and both channels closed, and out is never closed before a receive from errs would return |
| Sse.OpenStream | transport/sse.go:116-155 | a cursor header is sent only when there is a cursor; a failed open gives one error and no frame, an open one the frames the consumer takes and then one error naming how reading ended, unless the context was cancelled; both channels are closed |
| Sse.ChannelsAreDisciplined | transport/sse.go:121-128 | over every opening, body, ending and consumer: no send on and no second close of a closed channel, every channel closed, the frames taken, and at most one error, which is the one that occurred |
| Sse.ReceiveReturns | transport/sse.go:181-184 | at every moment of such a stream, once out is closed errs is closed or filled, so a receive after the range loop returns |
| SseLaws.CrlfInsensitive | transport/sse.go:216-217 | replacing every LF by CRLF changes no frame, for any body |
| SseLaws.CommentInsensitive | transport/sse.go:223-224 | a comment line between any two lines changes no frame |
| SseLaws.UnknownFieldInsensitive | transport/sse.go:226-239 | a non-empty line whose text before its first colon is not `event`, `id` or `data` changes no frame between any two lines |
| SseLaws.LineMeans | transport/sse.go:218-241 | what each line does to what is pending: `event` and `id` lines set theirs, `data` lines join theirs with LF, a blank line sends what has data and resets; with or without a space after the colon, or with no colon |
| SseLaws.FlushedAtEof | transport/sse.go:243-254 | a frame still lacking its blank line is sent when the body ends with EOF, and not when reading breaks or is cancelled |
| SseLaws.RoundTrip | transport/sse.go:211-276 | reading the printed form of any printable frames returns exactly them and leaves nothing to flush |
| SseLaws.TruncationSafe | transport/sse.go:197-258 | cutting printed frames anywhere, then flushing and decoding, yields a prefix of the whole stream's events when no proper prefix of a body decodes |
| SseLaws.CutFrames | transport/sse.go:197-258 | what a cut at any byte of printed frames leaves, however reading then ends: whole frames, and at EOF perhaps the next with a cut body |
| SseLaws.BrokenIsPrefix | transport/sse.go:243-258 | after a read error the frames of a cut body are a prefix of the frames printed |
| SseLaws.PrefixSafe | transport/sse.go:211-242 | for every prefix: its unflushed frames are a prefix of the whole's for every continuation if and only if its last line would not send early |
| SseLaws.EarlySend | transport/sse.go:216-222 | a concrete continuation that changes a frame already sent, whenever the last line would send early |
| SseLaws.EarlyPart | transport/sse.go:216-222 | the shortest such body: a data line followed by a lone CR |
| Watch.Displace | ootle/events.go:220-232 | against any consumer the 410 is in the buffer after at most two attempts, two only if an unread warning had to go |
| Watch.ReadConnection | ootle/events.go:193-208 | takes the decoded frames in order up to the one at which the context wins, and moves the cursor to the last one decoded |
| Watch.Turn | ootle/events.go:183-259 | one turn of the loop does to its variables what the turn function says; the watch goes on exactly after a connection without a 410 whose every send and whole wait were completed |
| Watch.Reconnect | ootle/events.go:183-259 | against every server the requests, deliveries, waits and warnings are those of the run the loop makes, and it stops at the first connection that was cancelled or refused with a 410, not before |
| Watch.WatchEvents | ootle/events.go:156-263 | without a streaming transport one error and nothing else; with one, the log of the run, which stops at the first connection cancelled during a send, after the stream or during the wait, or refused with a 410 |
| Watch.StopsWhen | ootle/events.go:203-253 | the stopping rule is exactly this: every connection but the last of an ended run was quiet, the last was not, and the end is Pruned if and only if its 410 came before any cancel took effect |
| Watch.CursorMeans | ootle/events.go:177-201 | the cursor variable is the id of the last frame decoded over the whole run, or the seed |
| Watch.BackoffMeans | ootle/events.go:243-258 | the backoff variable and every wait follow the closed form: 1 second after a productive connection, min(2^(u-1), 5) after u unproductive ones |
| Watch.RequestsMean | ootle/events.go:183-191 | every request carries one cursor, that of the run before it |
| Watch.DeliveredMeans | ootle/events.go:193-208 | what is delivered is what each connection's frames decode to, in order |
| Watch.WarningsMean | ootle/events.go:218-241 | the errors that become warnings are exactly a 410 and those that find the buffer empty or emptied |
| Watch.WarningsAre | ootle/events.go:213-241 | the warnings are, in order, the errors of exactly those connections that were not cancelled first and whose error is a 410 or finds every earlier error read |
| Watch.UnreadIff | ootle/events.go:236-241 | an error is dropped exactly when an earlier connection failed and the consumer has not read since |
| Watch.WarningsAreErrors | ootle/events.go:236-241 | every warning is an error of some connection, none twice |
| Watch.PrunedIsLast | ootle/events.go:218-232 | a watch that a 410 ends has it as its last warning |
| Watch.NoWarningLost | ootle/events.go:236-241 | a consumer that keeps the buffer empty sees every error |
| WatchLaws.WaitsAreBounded | ootle/events.go:243-258 | every wait of every run is between one and five seconds |
| WatchLaws.WaitAfter | ootle/events.go:243-258 | the wait after any connection of any run is 1, 1, 2, 4 or 5 seconds, after 0, 1, 2, 3 or more connections in a row that delivered nothing |
| WatchLaws.RequestAt | ootle/events.go:183-191 | every request is recorded, and the n-th connection is what the server answers to the n-th |
| WatchLaws.RequestAfter | ootle/events.go:177-191 | a request carries the id of the last frame decoded, or the seed before any, and the after-id exactly when that is empty |
| WatchLaws.ResumeIsExact | ootle/events.go:174-208 | with increasing ids on every frame and a server that replays strictly after the cursor and cuts anywhere, any number of reconnects decode exactly the decodable events after the start up to the cursor, in order, once each |
| WatchLaws.DeliveredIsExact | ootle/events.go:193-208 | the consumer is handed exactly those events, or the first of them when a cancel cuts a send off, and then exactly as many of the last connection as it took |
| WatchLaws.ResumeNeverSkips | ootle/events.go:174-208 | if replays may overlap, what a run decodes still never steps over a decodable event |
| WatchLaws.DeliveredNeverSkips | ootle/events.go:193-208 | nor does what the consumer is handed, which starts no later than the first event after the seed |
| WatchLaws.CutCarries | transport/sse.go:197-258 | a server that prints its log from a position and is cut at any byte carries a segment of it, however reading ends: the cut the two theorems suppose |
| WatchLaws.NothingBetween | ootle/events.go:174-208 | between any two delivered events every decodable event of the log has been delivered |
| WatchLaws.CursorIsLastDecoded | ootle/events.go:194-202 | the cursor is the id of the last frame decoded, even an empty one |
| WatchLaws.AfterIdSentIff | ootle/events.go:177-189 | a seeded watch sends after_id exactly when the last frame it decoded had no id, never on the first connect |
| Fetching.TakeChunk | transport/transport.go:264-275 | the n-th record is the id, version and value of the n-th id of the chunk that the response has, repetitions kept |
| Fetching.ChunksAreFull | transport/transport.go:245-250 | every chunk is non-empty, at most 20 long, and only the last is shorter |
| Fetching.ChunksConcat | transport/transport.go:245-250 | the chunks put together are the ids covered |
| Fetching.MergedIsOneLookup | transport/transport.go:243-278 | merging the responses of a fixed server map is one order-preserving lookup over the ids covered |
| Fetching.FetchSubstates | transport/transport.go:243-278 | requests are full chunks up to the first failure, whose reason is the error, with no partial result; otherwise ceil(n/20) of them, and for whatever map the server serves the records are the id, version and value it has for each requested id it knows, in order, repetitions kept |
| Fetching.IdCollector.Add | ootle/driver.go:378-387 | adds a non-empty id at its first sight and nothing otherwise |
| Fetching.CollectFetchIds | ootle/driver.go:371-409 | the first-seen deduplication of the wants' seeds, for every want list, or the decoding error |
| Fetching.SeedsByKind | ootle/driver.go:388-406 | which of its two addresses a want of each kind seeds, the component before the substate, blanks dropped |
| Fetching.AllSeedsInOrder | ootle/driver.go:388-406 | a want list is worked through in its order |
| Fetching.CollectedExactly | ootle/driver.go:371-409 | the ids have no repetition, none empty, none missing, and deduplicating them again changes nothing |
| Fetching.ParseResolution | ootle/driver.go:435-458 | errors exactly on undecodable JSON or an unknown status, each with its own code; on need_more the re-wrapped want list collects to what the core's did |
| Prelude.FirstSeenHasSameElements | ootle/driver.go:376-387 | deduplication keeps every element once |
| Prelude.FirstSeenKeepsOrder | ootle/driver.go:376-387 | the i-th element kept is at its first occurrence, and the earlier ones are those kept before it |
| Resolving.LoopsAgree | ootle/stealth.go:361-414 | for every core script and every transport whose empty fetch is empty, both loops make the same non-empty fetches, apply the same batches and end alike |
| Resolving.LoopMeans | ootle/driver.go:294-345 | every run of either loop, round by round: at most three, the first for the given ids, each later one for the ids the core listed or else the first-seen seeds of its want list; each batch is the answer to its fetch; and it ends with the first failed fetch, refusal, missing handle, bad answer or resolution, or after the third apply |
| Resolving.ReachSettles | ootle/driver.go:299-345 | once a discovery step reaches nothing new no later one does |
| Resolving.ResolvesIffThreeLevels | ootle/driver.go:294-345 | with a core that asks for what it discovered and lacks and a transport that serves it, the loop resolves if and only if nothing lies more than two steps from the seeds, having then applied everything; otherwise it gives up after exactly three applies |
| Resolving.StealthResolvesIffThreeLevels | ootle/stealth.go:361-414 | the stealth loop resolves under the same condition |
| Epochs.CheckWindowIsNonEmpty | ootle/epoch.go:85-96 | a pinned window passes exactly when it can be sequenced in |
| Epochs.SettleMaxEpoch | ootle/epoch.go:47-79 | a result is never 0 nor below the minimum; unpinned it is min(2^64-1, max(current, min) + 10); every error case |
| Cffi.LegalLife | internal/cffi/lib/ootle_sdk.h:253-288 | under the header's clauses each token is got once, borrowed only then, ended at most once and never used after; the ledger holds exactly those not ended |
| Cffi.LinearLivesAreLegal | internal/cffi/lib/ootle_sdk.h:399-413 | a history in which every token's life is linear keeps every clause |
| Cffi.LegalIffLinear | internal/cffi/lib/ootle_sdk.h:253-288 | the two readings of the ownership contract are the same |
| Cffi.NothingLeaks | internal/cffi/lib/ootle_sdk.h:253-288 | a run that keeps the clauses and ends owning what it owned has consumed or freed exactly once every token it got |
| Cffi.Core.EnsureAbi | internal/cffi/cffi.go:80-83 | one comparison, whose outcome never changes again, so no check fails after a build has succeeded |
| Cffi.BuildHandle | internal/cffi/cffi.go:160-219 | a fresh owned handle of the entry's kind and the very want list the core built, or the core's code or an internal error and no ownership |
| Cffi.ApplyFetched | internal/cffi/cffi.go:226-247 | a live handle is spent whatever the outcome and a new one owned only on success; nil and spent handles never reach the core |
| Cffi.SealAndEncode | internal/cffi/cffi.go:251-268 | a live handle is spent whatever the outcome; nil and spent handles never reach the core |
| Cffi.UnsignedRecord | internal/cffi/cffi.go:820-835 | borrows: ownership is as before |
| Cffi.FreeHandle | internal/cffi/cffi.go:130-136 | null-safe, idempotent, and frees what it was given exactly once |
| Drivers.Round | ootle/driver.go:299-337 | one round of either loop is the round function, and the handle kept is the live one holding what was applied |
| Drivers.Resolve | ootle/driver.go:294-345 | the loop's fetches, batches and outcome are those of the loop function, and at most the one live handle is owned beside what was owned before |
| Drivers.DriversResolveAlike | ootle/stealth.go:361-414 | given the same answers the public and the stealth resolution agree and conclude alike |
| Drivers.Dispatch | ootle/driver.go:191-250 | nothing is sent of what does not decode; a dry run uses its own endpoint; the result is the core's typing of the raw answer, or the code, decoding or transport error that stands in its way |
| Drivers.Complete | ootle/driver.go:176-203 | with a failure at any step the host owns what it owned before the build |
| Drivers.Checked | ootle/driver.go:156-173 | a driver builds for its configured network, in a window with a non-zero maximum at or above its minimum, exactly when its checks pass; a valid pin is kept |
| Drivers.SendPublicTransfer | ootle/driver.go:155-204 | refused before the core is called, or run as specified; the ledger ends as it began |
| Drivers.CheckedGeneric | ootle/driver_generic.go:34-74 | passes exactly when the network is known, no inputs are given, the window settles and the intent marshals |
| Drivers.SendInstructions | ootle/driver_generic.go:33-102 | two build paths, one lifetime; the caller's faucet claim is not among what changes |
| Drivers.CheckedStealth | ootle/stealth.go:320-351 | passes exactly when the network is known, the window settles, every memo marshals and every input has a UTXO id |
| Drivers.SendStealthTransfer | ootle/stealth.go:319-435 | refused before the core is called, or run as specified; the ledger ends as it began; the intent's dry-run flag goes no further |
| Drivers.SubmitsOnce | ootle/driver.go:182-203 | a driver submits exactly once if the loop resolved and the seal decodes, the very envelope sealed, and otherwise not at all |
| Drivers.DriverActs | ootle/driver.go:176-251 | from what the core and transport answer alone: a refused build sends nothing; else the first fetch is of the ids the build's want list names in first-seen order, the rounds follow, then one submission of the envelope sealed and its polls, or one evaluation; the caller gets the core's typing of the result or the first error |
| Drivers.DryRunIsSubmittedIff | ootle/stealth.go:426-435 | for every script, world, entry and run, a driver asked for a dry run submits for real if and only if it is the stealth driver and the seal decodes |
| Drivers.StealthDryRunIsSubmitted | ootle/stealth.go:426-435 | a concrete intent asking for a dry run that passes the checks and is submitted |
| Cosigning.PrepareCosign | ootle/cosign.go:69-111 | on success exactly the sealer's token is owned in addition, on failure nothing is; no submission |
| Cosigning.CosignSealer.SetMainSigner | ootle/cosign.go:120-124 | changes the signer only |
| Cosigning.CosignSealer.UnsignedRecord | ootle/cosign.go:131-140 | one record call on the held token with the current signer, or none at all once ended |
| Cosigning.CosignSealer.SealWithAuth | ootle/cosign.go:148-174 | one seal call on the held token with the current signer, which ends it, or none at all once ended |
| Cosigning.CosignSealer.Close | ootle/cosign.go:178-184 | frees the held token, or does nothing |
| Cosigning.HeldUntilEnded | ootle/cosign.go:120-184 | over every sequence of calls the token is held until the first seal or close, and the signer is the last one set |
| Cosigning.ReleasedOnce | ootle/cosign.go:120-184 | over every sequence the clauses are kept, and the token is released exactly once if any seal or close occurs, else not |
| Cosigning.NothingAfterTheEnd | ootle/cosign.go:120-184 | no call after a seal or close reaches the core |
| Cosigning.SameSigner | ootle/cosign.go:120-172 | a record and a later seal with no SetMainSigner between carry the same token and signer |
| Finalizing.PendingIff | transport/transport.go:393-396 | a result is pending exactly when it is the pending marker with nothing but white space around it |
| Finalizing.AwaitFinalized | ootle/finalization.go:107-142 | the first wake that ends the wait decides the gate; it opens exactly on a matching frame, and other frames are skipped |
| Finalizing.WaitResult | ootle/driver.go:257-278 | the loop ends with the first reply that is not pending, or the context, and polls no further |
| Finalizing.WaitMeans | ootle/driver.go:257-278 | a final result is the reply last polled and is not pending; every reply before it was; a wait the context ends has seen only pending ones |
| Finalizing.WaitAndParse | ootle/finalization.go:93-97 | the first reply that is not pending decides: typed by the core, its code when it refuses, a decoding error when it cannot be read, a transport error when the poll failed; if all are pending, the context's end |
| Finalizing.SubmitAndWait | ootle/finalization.go:59-98 | subscribe before submit, one submit, the stream released before the polls; the result is the core's typing of the first raw reply that is not pending, the reason of a refused submit or failed poll, or the end of the context |
| Finalizing.EveryRunIsAScript | ootle/finalization.go:59-142 | every interleaving of client and server that ends is one script to the client, on which submitAndWait does and returns the same |
| Finalizing.StreamNeverChangesTheAnswer | ootle/finalization.go:86-97 | over every interleaving a final answer is the server's for that submit's id, streaming or polling; after an open gate one poll is the last |
| Finalizing.NoMissedBroadcast | ootle/finalization.go:74-88 | in every reachable state of a subscribed client whose accepted transaction is final, even before the submit has returned, its frame is still ahead in the stream |
| Finalizing.RunStands | ootle/finalization.go:74-88 | a streaming client is subscribed from before its submit until its gate opens |
| Finalizing.TheGateOpens | ootle/finalization.go:107-142 | from such a state, receiving what is on the way opens the gate |
| Results.ContainsString | ootle/result.go:294-301 | membership |
| Results.FirstUp | ootle/result.go:262-277 | the first created id with the prefix that is not excluded, for every diff |
| Results.CandidatesAre | ootle/result.go:262-277 | the ids searched are those of the diff that start with the prefix |
| Results.NextDistinct | ootle/result.go:290-292 | excluding the first k distinct ids finds the next in order of first occurrence, and none after the last |
| Results.ScanRecipientOutput | examples/stealth/to_stealth/main.go:84-109 | the distinct `utxo_` ids are visited once each in first-occurrence order up to the first hit or failure, with at most one search more |
| Results.ReasonRoundTrip | ootle/result.go:148-159 | a reason's omitted empty codes come back empty |
| Results.ReasonOnTheWire | ootle/result.go:148-159 | the keys of a reason, the two optional codes left out when empty |
| Results.OutcomeOnTheWire | ootle/result.go:132-143 | the three shapes of an outcome; of several fields set a fee-only commit is written before a rejection, that before a commit |
| Results.OutcomeReads | ootle/result.go:98-129 | exactly which JSON reads as an outcome, nulls included |
| Results.OutcomeRoundTrip | ootle/result.go:98-143 | an outcome with one field set comes back as it was; it marshals exactly when one is set at all |
| Results.OneFieldIff | ootle/result.go:74-81 | exactly one field is set after unmarshalling if and only if the receiver held no other |
| Results.StaleReject | ootle/result.go:97-106 | a reused receiver reports a commit and a rejection at once |
| StealthIntents.StealthTransferBuilder.SpendRevealedInput | ootle/stealth_builder.go:95-98 | adds to the running sum modulo 2^64 |
| StealthIntents.StealthTransferBuilder.SpendUtxo | ootle/stealth_builder.go:104-112 | appends one spend |
| StealthIntents.StealthTransferBuilder.ToRevealedOutput | ootle/stealth_builder.go:131-134 | adds to the declared total modulo 2^64 |
| StealthIntents.StealthTransferBuilder.ToStealthOutput | ootle/stealth_builder.go:116-118 | appends an output of the builder's own resource with nothing revealed |
| StealthIntents.StealthTransferBuilder.Intent | ootle/stealth_builder.go:171-206 | the intent of the calls made: account and resource, mathematical sums modulo 2^64, lists in call order; both guards fail as validation errors |
| StealthIntents.SumRevealed | ootle/stealth_builder.go:172-175 | the wrapped loop sum is the mathematical sum modulo 2^64 |
| StealthIntents.TotalsIgnoreOrder | ootle/stealth_builder.go:95-134 | two histories with the same calls in any order have the same totals |
| StealthIntents.MismatchAccepted | ootle/stealth_builder.go:172-184 | differing totals get past the guard if and only if the sums overflow a different number of times |
| StealthIntents.GuardsAreExact | ootle/stealth_builder.go:171-190 | when the sums fit, an intent is returned exactly when the totals agree and someone signs the fee, and its totals are the mathematical ones |
| StealthIntents.GuardWraps | ootle/stealth_builder.go:172-184 | outputs that deposit 2^64 with nothing declared are accepted |
| StealthIntents.FeesAreIgnored | ootle/stealth_builder.go:88-91 | no Fee call changes an intent, which carries the fee last set exactly when Intent is given it again |
| StealthIntents.FeeIsLost | ootle/stealth_builder.go:88-91 | a builder told a fee of 5 pays 7 when that is Intent's argument |
| StealthIntents.WireInputs | ootle/stealth.go:212-231 | the n-th wire input is the n-th input's commitment and owner key |
| StealthIntents.SpendSecrets | ootle/stealth.go:237-243 | the n-th secret is the n-th input's |
| StealthIntents.UtxoSubstateIds | ootle/stealth.go:250-262 | the n-th id is the n-th input's, or an error exactly when one is blank |
| StealthIntents.NthSpend | ootle/stealth_builder.go:104-112 | the n-th SpendUTXO call is the intent's n-th input |
| StealthIntents.IntentFields | ootle/stealth_builder.go:192-206 | an intent has the account and resource the builder was started for, the fee given, the epochs last set, a flag exactly when it was ever set, and the n-th output added as its n-th |
| Hex.DecodeEncode | ootle/driver.go:463-469 | decoding an encoding gives the bytes back |
| Hex.EncodedAt | ootle/driver.go:463-469 | each byte is two lower-case digits, the high one first |
| Hex.DecodedAt | ootle/driver.go:463-469 | each byte decoded is that of two digits of either case |
| Hex.DecodesIff | ootle/driver.go:463-467 | hex decodes exactly when its length is even and every character a hex digit |
| Instructing.RoundTrip | ootle/instructions.go:132-162 | whatever argument marshals, at any nesting, is recovered up to what the constructors normalise |
| Instructing.BuiltRoundTrip | ootle/instructions.go:42-162 | an argument built by the constructors is recovered as it was |
| Instructing.Injective | ootle/instructions.go:132-162 | arguments that encode alike are alike |
| Instructing.MarshalsIff | ootle/instructions.go:132-162 | an argument marshals exactly when every node of it has a variant set |
| Instructing.ConstructorsBuild | ootle/instructions.go:69-122 | nil bytes, maps and lists come out of the constructors as empty ones |
| Instructing.ListIsNeverNull | ootle/instructions.go:149-150 | no list anywhere in an encoding is null |
| Instructing.ScalarsOnTheWire | ootle/instructions.go:42-149 | each scalar constructor's value is one object with its own tag |
| Instructing.ListOnTheWire | ootle/instructions.go:149-150 | a list is an array of its items' encodings in order, nil an empty one |
| Instructing.MetadataOnTheWire | ootle/instructions.go:157-158 | metadata is an object of its entries' encodings under the same keys |
| Instructing.WrappersOnTheWire | ootle/instructions.go:152-156 | bytes are written in hex, nil ones as none; an absent optional is null, a present one its value's encoding |
| Instructing.FirstSetIsPicked | ootle/instructions.go:133-149 | of several scalars set, which one is written |
| Instructing.NestedIsPicked | ootle/instructions.go:150-160 | with no scalar set, whether the list, the optional, the bytes or the metadata is |
| Instructing.RefRoundTrip | ootle/instructions.go:183-192 | component references are recovered |
| Instructing.RuleRoundTrip | ootle/instructions.go:224-235 | owner rules are recovered, and an unset one is the only error |
| Instructing.FeeRoundTrip | ootle/instructions.go:422-433 | fee sources are recovered |
| Instructing.ArgsRoundTrip | ootle/instructions.go:348-353 | an args list is an array, nil included, from which the arguments are recovered |
| Instructing.PartsOnTheWire | ootle/instructions.go:183-433 | the tags of component references, owner rules and fee sources |
| Instructing.CallsOnTheWire | ootle/instructions.go:348-375 | calls of a function, of a method and of a method on a workspace component, with their target, name and arguments under their keys |
| Instructing.InstructionsOnTheWire | ootle/instructions.go:358-375 | the other instructions, an absent optional as null |
| Instructing.InstructionRoundTrip | ootle/instructions.go:358-375 | every instruction that marshals is recovered, absent optionals as absent |
| Instructing.BuiltInstruction | ootle/instructions.go:277-345 | an instruction from any constructor, with constructed arguments, marshals and is recovered as it was |
| Instructing.InstructionMarshalsIff | ootle/instructions.go:358-375 | an instruction marshals exactly when it, its reference, its rule and its arguments have a variant set |
| Instructing.IntentMarshalsIff | ootle/instructions.go:507-527 | an intent marshals exactly when its fee source and all its instructions do |
| Instructing.InputRoundTrip | ootle/ootle.go:99-115 | an explicit input is recovered, its absent is_write as a write |
| Instructing.InputsOnTheWire | ootle/ootle.go:88-114 | only a read says so; an is_write of true reads as a write |
| Instructing.IntentRoundTrip | ootle/instructions.go:507-527 | fee, fee source, instructions and blobs are recovered in their places, lists as arrays, nil included |
| Instructing.IntentWindowRoundTrip | ootle/instructions.go:507-527 | so are inputs, extra inputs, epochs and the dry-run flag |

## Left out

- The Rust core (signing, proofs, CBOR, want derivation, result typing): not in the repository; only its documented ownership and status contract is used, and a typed result is its raw text here.
- HTTP, URLs, authorization, real time and goroutine scheduling below the channels: what they come to is an arbitrary script.
- JSON text: a document is a tree, or the fields that are read; Go's case-insensitive matching of field names on decoding is not modelled. Strings are taken to be valid UTF-8: Go replaces other bytes when it encodes them, so recovery and injectivity hold for valid ones only.
- Finalizing.PendingIff: white space is ASCII's; a JSON value has no other around it.
- StealthIntents.StealthTransferBuilder.ToOutput: an output's view key, tag and minimum value promise are not modelled.
- Panics: a driver's deferred guard is modelled on its returns; a panic leaves through the same guard.
- The C strings of the wrappers, `consume`, and `RouteStealthHandleToPublicApply`, a deliberate misroute for tests.
- Nil receivers of `CosignSealer` and `StealthTransferBuilder`, and the chaining of builder methods.
- Watch.WatchEvents: a watch is seen for a given number of connections.
- Cffi.BuildHandle: takes from an intent only its window, not the amounts and addresses the core alone reads; the keys and spend secrets passed to later calls are left out likewise.
- Instructing.InstructionRoundTrip: does not model that `MarshalJSON` stores the empty list into a shared instruction in place of nil; the faucet builder is left out too.
- Finalizing.NoMissedBroadcast: supposes, as the code does, that a transaction is final only after it is accepted; one that was final before is found by the polls.
- Finalizing.SubmitAndWait: the first reply to a poll is taken as given, and a context that ends before it shows as that reply's failure.
- `FeeCost`, `DownSubstate` and `EventPayload` tuples, `account.go`, `balances.go`, `substate.go`, `encoded.go`, the scan functions and the remaining example programs: they marshal, call and unmarshal.
- `TransferBuilder` and `TransactionBuilder`: setters.
