# Verification of the relay and its MLS binding

This project models five parts of the relay and of the MLS binding beside it, and proves what each of them is for.

- **The live fanout hub.** A registry of subscribers and principals under two locks. Fanout queues a frame for every
  subscriber of a group, holds handshakes back while a subscriber replays, owes a downgrade notice to a subscriber whose
  queue was full, and evicts one that misses a handshake. One step of the model is one lock section, or one thing a
  connection's own task does to its outbound channel; a run is any sequence of steps. `HubState` is the state machine
  and `LiveHub.Hub` the class whose methods do what its steps say. `HubService` and `HubSettle` say what one call does
  to everyone, from the state before to the state after; `HubRegistry`, `HubIdentity`, `HubLoss`, `HubOrder` and
  `HubBounds` are about every run, with the arithmetic of seqs in `SeqOrder`.
- **Deterministic CBOR and what is written in it.** Two codecs that share no code, `agent_cbor.rs` and `cbor.rs`, as
  readers over the bytes ahead and as cursor classes; the four signed agent payloads and the handshake record on the
  first; the 25 frames on the second. The standard behind both is section 4.2.1 of RFC 8949, with heads as in section 3.
  Texts are byte sequences that are well-formed UTF-8. `WireBytes`, `FrameBytes` and `PayloadWire` write every frame and
  payload out byte by byte, apart from the codecs, and the codecs are proved to write that.
- **The accept transaction and the ingress budget.** `Accept` interleaves any number of `accept` calls, one statement at
  a time, over rows that transactions lock, and `AcceptAnswers` is about what each call is told and why. `GroupIngress`
  is a lazily reset, swept counter against plain sums.
- **Crash and retry protocols.** The reserve, commit, send and mark sequence over any runs and crashes, the two-phase
  tag directory, and schema migration by contending processes.
- **Connection deadlines.** The clock, and the loop that asks it.

Where the code and its comments differ the model follows the code:

- `cbor.rs:160-163` says a failed read leaves the cursor in place. A narrowing read of an integer that is too wide has
  already moved (`cbor.rs:256-269`; `RelayReader.WideIntegerMovesTheCursor` at the bytes 19 01 00). A failed read has
  moved if and only if it is a narrowing one and what is ahead is an integer at or above its limit:
  `RelayReader.Reader.Narrow`, and every other read of the class states that it puts the offset back.
- `cbor.rs:232-237` says a major type the subset does not carry is named apart from one in the wrong place. Text is
  carried, but `mismatch` counts it as not carried (`cbor.rs:238-244`). A carried item is called unsupported by a read
  it does not suit if and only if it is text: `RelayCbor.OnlyTextIsCalledUnsupported`.
- `accept.rs:16-18` and `accept.rs:155-157` say a rollback leaves a gap in `seq`. The counter is advanced inside the
  transaction that rolls back, so it does not: `Accept.NoGaps`.
- `recovery.rs:348-351` calls `prepare` idempotent on its target. It compares with the pending target only, so a prepare
  that arrives after its own activate opens the slot again (`TagDirectory.LatePrepareReopens`). A prepare changes
  nothing if and only if its commit is the pending one: `TagDirectory.RetriesChangeNothing`.

Three promises are false of the code as they stand, and the project says exactly when each holds:

- *Every handshake once and in order* across replay, hold and release. A handshake is stored before it is fanned out,
  with no lock across the two, so a replay can send one whose own fanout then sends it again
  (`HubOrder.ReplayAheadRepeats`), two publishers can take the lock in the other order and the release leaves the lower
  one out (`HubOrder.InvertedIsSkipped`), and a resend is fanned out again under its old seq (`HubOrder.ResentRepeats`).
  `HubOrder.HandshakesOnceInOrder` gives what is sent in every run, whatever the order of the fanouts. After a replay
  that sent each seq below its end it is each handshake once and in order if and only if every seq held from that end on
  came behind all those between, and those since the release go on from the highest one by one. Where fanouts are in seq
  order that is, by `HubOrder.HandshakesInOrder`, that the replay ended between the seq next at registration and the seq
  next at release.
- *A missed envelope is always declared.* A subscriber whose channel is closed misses it without a notice
  (`HubOrder.ClosedLossIsUndeclared`); that is the only case (`HubOrder.FanoutReachesEveryone`).
- *The app's epoch is the group's.* The column holds a signed 64-bit number and the code writes -1 for a wider epoch
  (`CrashVictim.EpochTooWide`); they agree if and only if the epoch fits (`CrashVictim.CrashAgreement`).

Things outside the model are parameters: BLAKE3 and Unicode lowercasing of a card, the rule for a ringer url, an
envelope's validity, a migration's fingerprint, whether a message merges and to which epoch, the clock, and the order in
which a hash map yields its keys.

## Model

| member | source | states |
|---|---|---|
| `HubRegistry.RegistryAlways` | backend/wealdrelay/src/hub.rs:156-322 | in every run there is at most one entry per connection per group and per principal, and no empty key |
| `HubRegistry.RegistryStep` | backend/wealdrelay/src/hub.rs:156-322 | every lock section and every channel step keeps that registry |
| `HubRegistry.EvictEnds` | backend/wealdrelay/src/hub.rs:274-322 | an undisturbed `evict` unlists the principal, removes exactly its connections' entries from every group and principal, flags exactly their senders and moves no other channel |
| `HubRegistry.DisconnectStrips` | backend/wealdrelay/src/hub.rs:307-322 | `disconnect` removes exactly one connection's entries, everywhere |
| `HubRegistry.WithoutKeeps` | backend/wealdrelay/src/hub.rs:307-316 | `retain` leaves no entry of the connection, keeps every other and repeats none |
| `HubRegistry.WithoutOne` | backend/wealdrelay/src/hub.rs:307-316 | `retain` goes entry by entry and keeps the order |
| `HubIdentity.IdentifyAddsOne` | backend/wealdrelay/src/hub.rs:260-267 | `identify` keeps every listing and adds exactly one |
| `HubIdentity.ListingsAreHistory` | backend/wealdrelay/src/hub.rs:260-322 | in every run a connection is listed under a principal iff it identified as it and neither was disconnected nor the principal evicted since |
| `HubIdentity.EvictEndsTheIdentified` | backend/wealdrelay/src/hub.rs:274-322 | after any run an undisturbed `evict` flags, and strips everywhere, every connection that identified and is not gone since, and leaves every other alone |
| `HubRoom.TryQueueMeans` | backend/wealdrelay/src/ws.rs:257-275 | `try_queue` queues iff the payload and its overhead fit the 8 MiB left, someone reads and one of 256 slots is free, and answers closed iff only the reader is missing |
| `HubService.FanoutServes` | backend/wealdrelay/src/hub.rs:419-572 | one fanout: each subscriber is served on the entry and queue it had, nobody else's moves, outcomes come in registration order, `gone` lists those gone, and the counters grow by the frames shed and the debts taken |
| `HubService.TurnServes` | backend/wealdrelay/src/hub.rs:453-564 | one subscriber's service for every kind of frame: passed over, not spoken, held or ended, or offered behind the notice owed |
| `HubService.EphemeralsAreTried` | backend/wealdrelay/src/hub.rs:514-531 | a LIVE or CALL frame is queued, behind the notice owed, iff there is room; it never becomes a debt, is reported shed iff room is what is missing, and gone iff the reader is |
| `HubService.ReleaseServes` | backend/wealdrelay/src/hub.rs:207-239 | one release: the hold ends, the frames kept are queued while they fit, and nobody else's entry or queue moves; without a hold nothing happens |
| `HubService.TasksServe` | backend/wealdrelay/src/ws.rs:168-275 | a session's frame, a ping and a revocation's close are queued iff there is room for each |
| `HubService.TasksLeaveOthers` | backend/wealdrelay/src/ws.rs:168-275 | what a connection's own task does moves no other queue, no entry and no listing |
| `HubService.WriterTakesTheFirst` | backend/wealdrelay/src/ws.rs:300-324 | the writer takes the queue from the front |
| `HubSettle.GroupSettles` | backend/wealdrelay/src/hub.rs:372-380 | in one group a connection is paid iff it is owed and there is room, and is owed afterwards iff it was and there was none |
| `HubSettle.OrderSettles` | backend/wealdrelay/src/hub.rs:368-383 | over groups in any order, a queue gains exactly the notices of the debts that went, in that order, and a debt that stays has no room even then |
| `HubSettle.SettleCounts` | backend/wealdrelay/src/hub.rs:368-383 | the notices queued are as many as the debts that went |
| `HubBounds.SettlementPays` | backend/wealdrelay/src/hub.rs:368-383 | the three together after any run, and that no entry moves but for a flag cleared |
| `HubBounds.QueuesAreBounded` | backend/wealdrelay/src/ws.rs:87-100 | in every run every queue holds at most 256 items and at most 8 MiB of them |
| `HubLoss.SoundAlways` | backend/wealdrelay/src/hub.rs:156-572 | in every run the owed flags are what the history says is owed, queues hold what the history put on them, endings left their flag, and the counter counts the debts taken |
| `HubLoss.LossIsDeclared` | backend/wealdrelay/src/hub.rs:486-564 | a subscriber still registered since it missed a durable frame is owed a notice or was queued one after the miss |
| `HubLoss.NothingOverDebt` | backend/wealdrelay/src/hub.rs:486-513 | between a miss and a frame fanout queues for the same subscriber lies the notice of the miss, or the subscriber had left |
| `HubLoss.DowngradesConserved` | backend/wealdrelay/src/hub.rs:368-383 | `downgrades` is, modulo 2^64, notices queued plus notices owed plus debts disconnects took away |
| `HubLoss.DebtsBalance` | backend/wealdrelay/src/hub.rs:542-557 | the same balance for any orderly history |
| `HubLoss.MissedHandshakesEvict` | backend/wealdrelay/src/hub.rs:461-541 | in every run a handshake that met a full queue or a full hold left the evict flag set, and a frame lost otherwise met a closed channel |
| `HubLoss.QueuesHoldTheHistory` | backend/wealdrelay/src/ws.rs:257-275 | a channel accepted exactly the notices, frames and signals the history says were put on it, in that order |
| `HubLoss.TurnShape` | backend/wealdrelay/src/hub.rs:453-564 | every way one subscriber's turn in the fanout loop can end: what it queues, whether it owes, and which flag it raises |
| `HubLoss.StepIsSound` | backend/wealdrelay/src/hub.rs:156-572 | every step keeps the history truthful and orderly |
| `HubLoss.DrainIsAccounted` | backend/wealdrelay/src/hub.rs:217-235 | draining a hold pays and takes no debt, and stops only by evicting |
| `HubOrder.HandshakesOnceInOrder` | backend/wealdrelay/src/hub.rs:180-239 | in every run, the very frames a released subscriber was queued: its session's replay, then those kept of what was fanned out meanwhile, then everything since; after a full replay each seq comes once and in order iff every seq held from the replay's end on came behind all those between and the rest go on from the highest, and then nothing fanned out to it is missing |
| `HubOrder.HandshakesInOrder` | backend/wealdrelay/src/hub.rs:180-239 | where the group is fanned out in seq order, that is iff the replay ended between the seq next at registration and the seq next at release |
| `HubOrder.NothingLiveDuringReplay` | backend/wealdrelay/src/hub.rs:461-473 | in every run, while the hold lasts only what the session itself queued has reached the queue |
| `HubOrder.ReplayAheadRepeats` | backend/wealdrelay/src/sync.rs:429-451 | a run in which a stored handshake is replayed before its own fanout sends it twice |
| `HubOrder.InvertedIsSkipped` | backend/wealdrelay/src/ws.rs:1289-1311 | a run in which two publishers fan out against their stored order leaves the lower handshake unsent, with no eviction |
| `HubOrder.ResentRepeats` | backend/wealdrelay/src/handshake/store.rs:43-62 | a run in which a resend is fanned out under its old seq sends it twice |
| `HubOrder.RunWatched` | backend/wealdrelay/src/hub.rs:180-541 | in every run the hold is what was fanned out since registration, in lock order, and the queue what the session and the fanouts put there, unless the connection is lost |
| `SeqOrder.OnceInOrder` | backend/wealdrelay/src/hub.rs:217-235 | replay, records of any hold, and what came since are one gap-free run iff the hold covers the replay's end and the rest goes on from its top |
| `SeqOrder.RecordsAreGapFree` | backend/wealdrelay/src/hub.rs:217-235 | a release queues everything from the replay's end to the highest seq held iff each held seq came behind all those between |
| `SeqOrder.KeptOrSkipped` | backend/wealdrelay/src/hub.rs:217-235 | a held seq is queued iff it is at or above the replay's end and stands somewhere above all ahead of it |
| `SeqOrder.InOrder` | backend/wealdrelay/src/hub.rs:217-235 | for seqs held and sent on in order, the three stretches join iff the replay's end lies between the two marks |
| `HubDrain.DrainDelivers` | backend/wealdrelay/src/hub.rs:217-235 | draining any hold queues exactly the frames kept, as they were held, for as long as each fits behind the last, and stops by evicting iff one does not |
| `HubDrain.KeptNumbers` | backend/wealdrelay/src/hub.rs:217-235 | the seqs of the frames kept are the left-to-right records of the seqs held, from the replay's end on |
| `HubOrder.CommitTurn` | backend/wealdrelay/src/hub.rs:461-541 | a handshake's turn reaches the hold, or the queue, or ends the connection |
| `HubOrder.FanoutReachesEveryone` | backend/wealdrelay/src/hub.rs:453-564 | fanout skips no one else: a durable frame is queued behind the notice owed, or the subscriber is left owing iff it owed already or its queue was full; otherwise its channel is closed |
| `HubOrder.ClosedLossIsUndeclared` | backend/wealdrelay/src/hub.rs:558-561 | a run in which a push met a closed channel and nobody owes anything for it |
| `HubOrder.TurnAt` | backend/wealdrelay/src/hub.rs:453-564 | each subscriber's turn sees the entry and the queue it had when the lock was taken |
| `HubOrder.Bystander` | backend/wealdrelay/src/hub.rs:453-564 | a connection outside the group keeps its channel through a fanout |
| `LiveHub.Hub.constructor` | backend/wealdrelay/src/hub.rs:144-146 | a new hub is the empty state |
| `LiveHub.Hub.Subscribe` | backend/wealdrelay/src/hub.rs:156-199 | subscribing, with or without a hold, is the subscribe step |
| `LiveHub.Hub.Identify` | backend/wealdrelay/src/hub.rs:260-267 | identifying a connection is the identify step |
| `LiveHub.Hub.TryQueue` | backend/wealdrelay/src/ws.rs:257-275 | budget first, then whether anyone reads, then a slot; the frame is accepted exactly on `Sent` |
| `LiveHub.Hub.EvictSender` | backend/wealdrelay/src/ws.rs:192-199 | evicting a sender sets its flag and nothing else |
| `LiveHub.Hub.Forward` | backend/wealdrelay/src/hub.rs:514-563 | the turn of a subscriber that owes nothing |
| `LiveHub.Hub.PayFirst` | backend/wealdrelay/src/hub.rs:486-513 | the turn of a subscriber that owes a notice: the notice goes first |
| `LiveHub.Hub.Hold` | backend/wealdrelay/src/hub.rs:461-473 | the turn of a subscriber whose handshakes are held |
| `LiveHub.Hub.Turn` | backend/wealdrelay/src/hub.rs:453-564 | one iteration of the fanout loop is one turn of the state machine |
| `LiveHub.Hub.FanoutLocked` | backend/wealdrelay/src/hub.rs:448-565 | the loop over the subscribers is the fanout step: same state, same outcomes, same gone list |
| `LiveHub.Hub.FanoutFrame` | backend/wealdrelay/src/hub.rs:419-573 | `fanout_frame` is that step and then a disconnect of each connection in the gone list, in order |
| `LiveHub.Hub.ReleaseHandshakes` | backend/wealdrelay/src/hub.rs:207-239 | `release_handshakes` is the release step, and a disconnect when a held frame found no room |
| `LiveHub.Hub.ForgetSubscriptions` | backend/wealdrelay/src/hub.rs:308-316 | the first lock section of `disconnect` |
| `LiveHub.Hub.ForgetIdentity` | backend/wealdrelay/src/hub.rs:317-321 | the second lock section of `disconnect` |
| `LiveHub.Hub.Disconnect` | backend/wealdrelay/src/hub.rs:307-322 | `disconnect` is the two in order |
| `LiveHub.Hub.CloseSender` | backend/wealdrelay/src/ws.rs:181-199 | the evict signal and then the close, queued only where a slot is free |
| `LiveHub.Hub.Evict` | backend/wealdrelay/src/hub.rs:274-292 | `evict` ends each of the principal's connections in turn and counts them |
| `LiveHub.Hub.SettleGroup` | backend/wealdrelay/src/hub.rs:372-380 | one group's debts paid where there is room |
| `LiveHub.Hub.SettleOne` | backend/wealdrelay/src/hub.rs:373-380 | one subscriber's notice queued, and its debt cleared, iff it owes one and there is room |
| `LiveHub.Hub.SettleDowngrades` | backend/wealdrelay/src/hub.rs:368-383 | `settle_downgrades` visits every group once in some order, and its answer is the number of debts that went |
| `ValueTree.RawValueExact` | backend/weald-mls/src/agent_cbor.rs:366-418 | `raw_value` succeeds exactly when the input starts with the encoding of a tree no deeper than the cap, and takes exactly that encoding |
| `ValueTree.SkipFindsTree` | backend/weald-mls/src/agent_cbor.rs:370-407 | whatever a walk accepts is the encoding of such a tree |
| `ValueTree.SkipAccepts` | backend/weald-mls/src/agent_cbor.rs:370-407 | the encoding of every such tree is walked, and nothing behind it is |
| `ValueTree.HeadExact` | backend/weald-mls/src/agent_cbor.rs:157-276 | the head reader is exactly the inverse of the head writer |
| `ValueTree.EncodeIsPrefixFree` | backend/weald-mls/src/agent_cbor.rs:157-229 | no tree's encoding starts another's, so equal bytes are equal trees |
| `AgentCbor.WalkIsBounded` | backend/weald-mls/src/agent_cbor.rs:370-407 | a walk reads at most one head per remaining byte plus one, however large the announced counts |
| `SchemaMaps.SchemaMapExact` | backend/weald-mls/src/agent_cbor.rs:427-448 | `schema_map` accepts exactly the strictly ascending in-schema maps of such values |
| `SchemaMaps.Rebuilds` | backend/weald-mls/src/agent_cbor.rs:213-229 | encoding the slots that were read rebuilds the bytes that were read |
| `SchemaMaps.MapReads` | backend/weald-mls/src/agent_cbor.rs:427-448 | what `map` writes for distinct in-schema keys is read back, sorted |
| `SchemaMaps.MapIsInjective` | backend/weald-mls/src/agent_cbor.rs:213-229 | equal maps hold the same pairs |
| `SchemaMaps.SortIsSound` | backend/weald-mls/src/agent_cbor.rs:213-229 | sorting keeps the pairs and makes distinct keys ascend |
| `AgentReader.Reader.constructor` | backend/weald-mls/src/agent_cbor.rs:240-242 | a new cursor stands at the first byte |
| `AgentReader.Reader.Head` | backend/weald-mls/src/agent_cbor.rs:247-276 | the byte loop reads the head the specification reads |
| `AgentReader.Reader.Counted` | backend/weald-mls/src/agent_cbor.rs:280-293 | a count is never larger than the bytes that remain |
| `AgentReader.Reader.Uint` | backend/weald-mls/src/agent_cbor.rs:295-302 | an unsigned integer; a refusal does not move |
| `AgentReader.Reader.Bytes` | backend/weald-mls/src/agent_cbor.rs:304-309 | a byte string |
| `AgentReader.Reader.BytesExact` | backend/weald-mls/src/agent_cbor.rs:314-323 | a byte string of one width |
| `AgentReader.Reader.Text` | backend/weald-mls/src/agent_cbor.rs:325-331 | a text string, UTF-8 or refused |
| `AgentReader.Reader.ArrayCount` | backend/weald-mls/src/agent_cbor.rs:333-335 | an array head |
| `AgentReader.Reader.MapCount` | backend/weald-mls/src/agent_cbor.rs:337-339 | a map head |
| `AgentReader.Reader.RequireEnd` | backend/weald-mls/src/agent_cbor.rs:345-351 | nothing may follow |
| `AgentReader.Reader.SkipItemBounded` | backend/weald-mls/src/agent_cbor.rs:370-407 | the recursive walk ends where the specification ends, with as many heads read |
| `AgentReader.Reader.RawValue` | backend/weald-mls/src/agent_cbor.rs:414-418 | the raw bytes of one walked item |
| `AgentReader.Reader.SchemaMap` | backend/weald-mls/src/agent_cbor.rs:427-448 | the loop over entries reads the slots the specification reads |
| `AgentLists.TextList` | backend/weald-mls/src/agent_card.rs:738-747 | the loop of `text_list` reads the list the specification reads |
| `AgentLists.Scopes` | backend/weald-mls/src/agent_card.rs:528-535 | the loop over scopes, each of one width |
| `AgentLists.RequireCanonical` | backend/weald-mls/src/agent_card.rs:776-782 | comparing neighbours decides whether every earlier string precedes every later one |
| `AgentCapability.CapabilityNamed` | backend/weald-mls/src/agent_card.rs:107-131 | parsing a capability undoes naming it, both ways |
| `AgentCode.CodeExact` | backend/weald-mls/src/agent_card.rs:465-682 | a code block is accepted exactly when it is the encoding of a block within its bounds |
| `AgentCode.ReposExact` | backend/weald-mls/src/agent_card.rs:599-630 | the repository list is accepted exactly when it encodes valid repositories |
| `AgentCardExact.OrgReader` | backend/weald-mls/src/agent_card.rs:749-769 | the org block is accepted exactly when it encodes six fields with a 32-byte id |
| `AgentCardExact.CapabilitiesExact` | backend/weald-mls/src/agent_card.rs:520-526 | capabilities are accepted exactly when they are known names in strictly ascending order |
| `AgentCardExact.AliasesExact` | backend/weald-mls/src/agent_card.rs:509-518 | aliases are accepted exactly when they ascend, are not empty and are lowercased |
| `AgentCardExact.CodeSlotExact` | backend/weald-mls/src/agent_card.rs:548-559 | the code block is there exactly when `code.pullrequest` is, and never beside `ci.report` |
| `AgentCardExact.OrgExact` | backend/weald-mls/src/agent_card.rs:539-547 | the org block is there exactly when the host is an organization |
| `AgentCardExact.CardExact` | backend/weald-mls/src/agent_card.rs:394-587 | bytes decode to a card iff they are that valid card's one encoding, its recomputed hash included |
| `AgentInvoke.InvokeExact` | backend/weald-mls/src/agent_invoke.rs:196-326 | bytes decode to an invoke iff they are that valid invoke's one encoding |
| `AgentInvoke.HandoffExact` | backend/weald-mls/src/agent_invoke.rs:271-297 | the four handoff slots are there together or not at all |
| `AgentLifecycle.LifecycleExact` | backend/weald-mls/src/agent_lifecycle.rs:371-506 | bytes decode to a lifecycle record iff they are that valid record's one encoding |
| `AgentLifecycle.ReasonExact` | backend/weald-mls/src/agent_lifecycle.rs:408-452 | a reason is there exactly when the state requires one, known and legal for it |
| `AgentLifecycle.PhaseNamed` | backend/weald-mls/src/agent_lifecycle.rs:130-156 | parsing a phase undoes naming it, both ways |
| `AgentLease.LeaseExact` | backend/weald-mls/src/agent_lifecycle.rs:520-565 | bytes decode to a lease iff they are the one encoding of a lease whose window is not empty |
| `SignedBytes.SignatureCoversEverything` | backend/weald-mls/src/agent_lifecycle.rs:367-398 | two payloads of any of the four kinds sign the same bytes iff they are the same payload but for the signature |
| `SignedBytes.SameKind` | backend/weald-mls/src/agent_card.rs:401-461 | the items under keys 3 and 4 name the kind |
| `SignedBytes.CardSigned` | backend/weald-mls/src/agent_card.rs:383-491 | a card's signing input determines every field but the signature |
| `SignedBytes.InvokeSigned` | backend/weald-mls/src/agent_invoke.rs:191-242 | an invoke's signing input determines every field but the signature |
| `SignedBytes.LifecycleSigned` | backend/weald-mls/src/agent_lifecycle.rs:367-398 | a lifecycle record's signing input determines every field but the signature |
| `SignedBytes.LeaseSigned` | backend/weald-mls/src/agent_lifecycle.rs:520-539 | a lease's signing input determines every field but the signature |
| `HandshakeRecord.RecordExact` | backend/weald-mls/src/handshake_record.rs:91-120 | bytes decode to a record iff they are its encoding and an unknown kind's tag is above the four named ones |
| `HandshakeRecord.RecordRoundTrip` | backend/weald-mls/src/handshake_record.rs:91-120 | every record comes back under its tag's name, and as itself iff it was spelled by it |
| `HandshakeRecord.DecodeBytes` | backend/weald-mls/src/handshake_record.rs:98-120 | reading with the cursor is the decoder the two above speak of |
| `WireBytes.ItemBytes` | backend/wealdrelay/src/cbor.rs:53-125 | a number, a byte string, a text, a boolean and null are written, by both codecs, as the bytes RFC 8949 gives them |
| `PayloadWire.MapWritten` | backend/weald-mls/src/agent_cbor.rs:213-230 | a payload is a map of its present entries in key order, whatever order they were pushed in |
| `PayloadWire.LeaseWritten` | backend/weald-mls/src/agent_lifecycle.rs:519-539 | a lease's bytes and signing input, key by key |
| `PayloadWire.LifecycleWritten` | backend/weald-mls/src/agent_lifecycle.rs:367-397 | a lifecycle record's bytes and signing input, key by key, with the number of each state and the word of each phase |
| `PayloadWire.LifecycleRules` | backend/weald-mls/src/agent_lifecycle.rs:405-500 | which states carry a reason, a phase and a result, and which reasons belong to which |
| `PayloadWire.InvokeWritten` | backend/weald-mls/src/agent_invoke.rs:191-250 | an invoke's bytes and signing input, key by key, with the word of each capability |
| `PayloadWire.CardWritten` | backend/weald-mls/src/agent_card.rs:383-491 | a card's bytes and signing input, key by key, with its hash over the latter and its org and code blocks item by item |
| `PayloadWire.RecordWritten` | backend/weald-mls/src/handshake_record.rs:91-96 | a handshake record's bytes, with the tag of each kind |
| `PayloadRefusals.SchemaMapRefused` | backend/weald-mls/src/agent_cbor.rs:427-448 | behind any good entries, a key that does not rise is refused with its predecessor and one the schema does not name is refused as unknown |
| `PayloadRefusals.LeaseRefused` | backend/weald-mls/src/agent_lifecycle.rs:541-565 | a lease whose window is empty is refused with its two ends, and any other comes back |
| `PayloadRefusals.LifecycleRefused` | backend/weald-mls/src/agent_lifecycle.rs:399-500 | a lifecycle record comes back, or is refused for the first rule it breaks: vocabulary, presence and legality of the reason, phase, detail, result |
| `PayloadRefusals.CardRefused` | backend/weald-mls/src/agent_card.rs:496-587 | a card comes back, or is refused for the first rule it breaks: order and spelling of aliases, order of capabilities, org block, exclusive capabilities, code block |
| `CodecAgreement.ReadersAgree` | backend/wealdrelay/src/cbor.rs:202-437 | on integers, byte strings, texts and array heads the codecs accept the same bytes with the same value and remainder |
| `CodecAgreement.EncodersAgree` | backend/wealdrelay/src/cbor.rs:53-117 | the codecs write the same bytes |
| `CodecAgreement.HeadsAgree` | backend/wealdrelay/src/cbor.rs:202-230 | the two head readers accept the same heads |
| `CodecAgreement.NumberOrderIsByteOrder` | backend/weald-mls/src/agent_cbor.rs:213-229 | for all 64-bit keys, smaller is encoded smaller, bytewise, and conversely |
| `RelayCbor.GatherIsBigEndian` | backend/wealdrelay/src/cbor.rs:214-217 | bytes shifted in one at a time are the big-endian number, or the input ended |
| `RelayReader.Reader.constructor` | backend/wealdrelay/src/cbor.rs:170-172 | a new cursor stands at the first byte |
| `RelayReader.Reader.Head` | backend/wealdrelay/src/cbor.rs:202-230 | the byte loop reads the head the specification reads; a refusal does not move |
| `RelayReader.Reader.Uint` | backend/wealdrelay/src/cbor.rs:246-254 | an unsigned integer; a refusal puts the offset back |
| `RelayReader.Reader.Narrow` | backend/wealdrelay/src/cbor.rs:256-269 | an integer below a limit; a refusal has moved iff an integer at or above the limit is ahead, and then stands behind it |
| `RelayReader.WideIntegerMovesTheCursor` | backend/wealdrelay/src/cbor.rs:256-269 | a failed read of 256 as one byte leaves the cursor behind it |
| `RelayCbor.OnlyTextIsCalledUnsupported` | backend/wealdrelay/src/cbor.rs:238-244 | a carried item is called unsupported by the read it does not suit iff it is text |
| `RelayReader.Reader.Bytes` | backend/wealdrelay/src/cbor.rs:271-290 | a byte string; a refusal puts the offset back |
| `RelayReader.Reader.BytesOf` | backend/wealdrelay/src/cbor.rs:295-306 | a byte string of one width; a refusal puts the offset back |
| `RelayReader.Reader.Boolean` | backend/wealdrelay/src/cbor.rs:314-331 | a boolean; a refusal puts the offset back |
| `RelayReader.Reader.TextString` | backend/wealdrelay/src/cbor.rs:339-364 | a text string; a refusal puts the offset back |
| `RelayReader.Reader.OptionalBytes` | backend/wealdrelay/src/cbor.rs:367-381 | a byte string or null; a refusal puts the offset back |
| `RelayReader.Reader.ArrayHeader` | backend/wealdrelay/src/cbor.rs:406-422 | an array head; a refusal puts the offset back |
| `RelayReader.Reader.Array` | backend/wealdrelay/src/cbor.rs:425-436 | an array head of one count; a refusal puts the offset back |
| `RelayReader.Reader.Finish` | backend/wealdrelay/src/cbor.rs:189-195 | nothing may follow |
| `FrameLists.Groups` | backend/wealdrelay/src/frame.rs:1162-1166 | the loop over a `CONNECT` frame's groups reads the list the specification reads |
| `FrameLists.Packages` | backend/wealdrelay/src/frame.rs:1334-1338 | the loop over a `KEYS` frame's packages reads the list the specification reads |
| `FrameExact.FrameExact` | backend/wealdrelay/src/frame.rs:997-1469 | bytes decode to a frame iff they are the encoding of that frame, within its bounds and the two size limits, with an error frame spelled normally |
| `FrameExact.FrameRoundTrip` | backend/wealdrelay/src/frame.rs:997-1469 | every in-bounds frame comes back, up to an error frame's zero interval and empty detail becoming absent |
| `FrameBytes.FrameBytesWritten` | backend/wealdrelay/src/frame.rs:997-1131 | the bytes of each of the 25 frames, with literal tags and counts and the fields in order, the KEYS and WAKE forms and the error words included |
| `FrameBytes.WireExact` | backend/wealdrelay/src/frame.rs:997-1469 | bytes decode to a frame iff they are those literal bytes, within its size, of an in-bounds normal frame |
| `FrameBytes.CodeWords` | backend/wealdrelay/src/frame.rs:88-256 | the class and the word of every error code |
| `FrameBytes.FramesRefused` | backend/wealdrelay/src/frame.rs:1132-1147 | an oversize frame, an oversize WAKE and a number that names no frame are each refused as that |
| `FrameBytes.VersionsRefused` | backend/wealdrelay/src/frame.rs:1149-1190 | a CONNECT below the floor and a CONNECT_ACK outside the range are refused with the version they carry |
| `FrameBytes.TrailingRefused` | backend/wealdrelay/src/frame.rs:1466-1467 | a frame with anything behind it is refused for that many bytes |
| `FrameExact.BodyExact` | backend/wealdrelay/src/frame.rs:1146-1466 | for each of the 25 tags the body reader accepts exactly that tag's in-bounds bodies |
| `FrameExact.CodeFound` | backend/wealdrelay/src/frame.rs:1446-1459 | a code and its class are found in the registry iff they are that code's own two names |
| `FrameExact.KeysBody` | backend/wealdrelay/src/frame.rs:1329-1365 | the five `KEYS` forms are accepted exactly |
| `FrameExact.WakeBodyIs` | backend/wealdrelay/src/frame.rs:1366-1445 | the six `WAKE` forms are accepted exactly, and no frame over the kilobyte |
| `FrameFields.HeadExact` | backend/wealdrelay/src/cbor.rs:53-230 | the relay's head reader is exactly the inverse of its head writer |
| `FrameFields.ListExact` | backend/wealdrelay/src/cbor.rs:406-422 | an array read item by item accepts exactly the encodings of lists of acceptable items |
| `FrameFields.OptionalBytesExact` | backend/wealdrelay/src/cbor.rs:367-381 | an optional byte string accepts exactly null and the encodings of byte strings |
| `Accept.RetriesAreSafe` | backend/wealdrelay/src/accept.rs:129-192 | in every interleaving all numbers given out for one content address are the row's, at most one call is told it stored it, and the missing-row fallback is never answered |
| `Accept.NoGaps` | backend/wealdrelay/src/accept.rs:133-160 | a group's committed numbers are 1, 2, 3 and so on in commit order up to the counter, whatever was rolled back |
| `Accept.BudgetIsKept` | backend/wealdrelay/src/accept.rs:194-231 | a workspace's used bytes are the sum of what was committed against it and never pass the limit |
| `Accept.SoundAlways` | backend/wealdrelay/src/accept.rs:112-253 | in every interleaving locks are held by exactly the transactions that took them and the counter stands still under its holder |
| `Accept.ConflictIsDuplicate` | backend/wealdrelay/src/accept.rs:162-192 | an insert conflicts iff the content address is stored: the number a claim took is nobody's |
| `Accept.RereadIsSound` | backend/wealdrelay/src/accept.rs:178-192 | the row an insert conflicted with is there to be read |
| `Accept.CommitIsSound` | backend/wealdrelay/src/accept.rs:233-234 | a commit, heard or not, keeps every other call's answer and lock true |
| `Accept.HoldersDiffer` | backend/wealdrelay/src/accept.rs:194-203 | two transactions past their inserts are in different groups and different workspaces |
| `AcceptAnswers.AnswersHaveTheirCause` | backend/wealdrelay/src/accept.rs:112-234 | in every interleaving a call has an answer iff the one statement that gives it ran while its cause held: read only, invalid, unknown group, frozen, over the limit, failed, stored or duplicate |
| `AcceptAnswers.OnlyValidGetIn` | backend/wealdrelay/src/accept.rs:118-124 | in every interleaving what was charged for an envelope was valid, on a relay that takes writes, and stands in the log under its number, written by a call that carried it |
| `AcceptAnswers.FrozenStaysShut` | backend/wealdrelay/src/accept.rs:145-160 | nothing is stored in a group, nor its row taken, from the moment it is frozen until it is thawed, whoever was under way |
| `AcceptAnswers.AcceptAlone` | backend/wealdrelay/src/accept.rs:112-235 | a call with nothing else on its rows is told exactly what its causes say, in their order, and leaves its row, its number and its charge iff it was stored |
| `AcceptAnswers.OthersWrite` | backend/wealdrelay/src/handshake/store.rs:76-170 | a group appears, is frozen or thawed, and a handshake is charged iff it fits the budget |
| `GroupIngress.BudgetRefinesHistory` | backend/wealdrelay/src/group_ingress.rs:86-148 | for every pair of limits and any run with time not going back, each answer is the one plain sums of accepted bytes give |
| `GroupIngress.SpanIsBounded` | backend/wealdrelay/src/group_ingress.rs:104-148 | any sixty seconds accept at most twice each limit |
| `GroupIngress.WindowIsBounded` | backend/wealdrelay/src/group_ingress.rs:104-148 | one window accepts at most the limit |
| `GroupIngress.AgreesAlways` | backend/wealdrelay/src/group_ingress.rs:86-148 | a counter, a stale one or a missing one each say what was accepted in the window |
| `GroupIngress.RefusalsAreCounted` | backend/wealdrelay/src/group_ingress.rs:133-140 | `refused` is the number of refusals, modulo 2^64 |
| `GroupIngress.TrackedIsBounded` | backend/wealdrelay/src/group_ingress.rs:104-125 | over every run each counter is for a request of its window, and there are at most one past the cap of them or all are for requests of the last window |
| `GroupIngress.GroupIngressBudget.constructor` | backend/wealdrelay/src/group_ingress.rs:94-101 | a new budget has charged nothing |
| `GroupIngress.GroupIngressBudget.CurrentPair` | backend/wealdrelay/src/group_ingress.rs:86-91 | a pair's entry made if missing and reset if stale |
| `GroupIngress.GroupIngressBudget.CurrentWorkspace` | backend/wealdrelay/src/group_ingress.rs:86-91 | a workspace's entry made if missing and reset if stale |
| `GroupIngress.GroupIngressBudget.Charge` | backend/wealdrelay/src/group_ingress.rs:104-148 | sweep, reset, check both and charge both, in place, is the charge step |
| `CrashVictim.NoFork` | backend/weald-mls/harness/crash-victim.rs:244-332 | over any runs and crashes a link's outbox file is whole copies of the one envelope reserved for it, and a marked link has at least one |
| `CrashVictim.EnvelopesAreForGood` | backend/weald-mls/harness/crash-victim.rs:244-265 | a reserved envelope is the link's for good |
| `CrashVictim.ResumeFinishes` | backend/weald-mls/harness/crash-victim.rs:373-409 | a resume that gets through leaves nothing unsent |
| `CrashVictim.CrashAgreement` | backend/weald-mls/harness/crash-victim.rs:194-295 | the app's epoch is the group's iff it fits the column, links are exactly 1 to n, and there are as many documents |
| `CrashVictim.EpochTooWide` | backend/weald-mls/harness/crash-victim.rs:269-288 | a run after which the app's epoch is -1 and the group's is not |
| `CrashHistory.DiskIsItsHistory` | backend/weald-mls/harness/crash-victim.rs:194-332 | after any runs and crashes the links, names, bodies, epochs and marks are those of the runs that committed, in their order, and of no other |
| `CrashHistory.ResumeSendsTheLowest` | backend/weald-mls/harness/crash-victim.rs:373-409 | a resume marks a waiting link iff fewer than the sends it lived for waited below it |
| `CrashHistory.EnvelopeNamesItsLink` | backend/weald-mls/harness/crash-victim.rs:141-143 | two envelopes are equal iff their links are and their document, marker and body read alike |
| `CrashVictim.AlwaysConsistent` | backend/weald-mls/harness/crash-victim.rs:148-409 | every run, dying anywhere, keeps the database and the outbox consistent |
| `CrashVictim.Victim.constructor` | backend/weald-mls/harness/crash-victim.rs:116-133 | a fresh database has no links, documents or outbox |
| `CrashVictim.Victim.HighestLink` | backend/weald-mls/harness/crash-victim.rs:247-257 | the highest link, or zero |
| `CrashVictim.Victim.Send` | backend/weald-mls/harness/crash-victim.rs:314-332 | append, then mark |
| `CrashVictim.Victim.Process` | backend/weald-mls/harness/crash-victim.rs:148-306 | one transaction for the epoch, the reservation, the document and the app's epoch, then the send; before the commit a crash leaves nothing |
| `CrashVictim.Victim.ReadUnsent` | backend/weald-mls/harness/crash-victim.rs:374-403 | exactly the unmarked links, lowest first, with their reserved bytes |
| `CrashVictim.Victim.SendFirst` | backend/weald-mls/harness/crash-victim.rs:404-409 | the resend loop |
| `CrashVictim.Victim.Resume` | backend/weald-mls/harness/crash-victim.rs:341-409 | resend with the reserved bytes, dying after any send or in the middle of one |
| `Migrations.LedgerIsAPrefix` | backend/wealdrelay/src/db.rs:256-356 | over any contention and crashes the schema is a prefix of the longest list applied once each in order, the ledger says so, a finished process finds its list in it and none is refused |
| `Migrations.MigrateExtends` | backend/wealdrelay/src/db.rs:287-356 | running a build's list against a prefix goes through and adds exactly what is missing |
| `Migrations.PassIsExact` | backend/wealdrelay/src/db.rs:287-356 | over any list and any database a pass goes through iff no text differs from the one recorded under its name, and then the schema has gained the missing texts once each in order and the ledger their rows |
| `Migrations.EditedIsRefused` | backend/wealdrelay/src/db.rs:306-323 | the first text that differs from the one recorded under its name stops the pass, with nothing changed past it |
| `Migrations.Schema.constructor` | backend/wealdrelay/src/db.rs:287-293 | a new database has an empty ledger |
| `Migrations.Schema.ApplyAll` | backend/wealdrelay/src/db.rs:287-356 | the loop over the list does what the pass over it says |
| `Migrations.PrefixStanding` | backend/wealdrelay/src/db.rs:296-323 | the ledger of a prefix knows exactly the prefix |
| `TagDirectory.EntryIsItsLog` | backend/weald-mls/src/recovery.rs:333-401 | after any calls `current` and `fallback` are the last two activated tags, a candidate exists iff a target does, and `tags` is the candidate and then those two |
| `TagDirectory.ActivateAnswers` | backend/weald-mls/src/recovery.rs:367-387 | an activate is taken iff it names the pending commit or the last activated one, and changes the entry iff it names the pending one |
| `TagDirectory.RetriesChangeNothing` | backend/weald-mls/src/recovery.rs:352-387 | a prepare changes nothing iff its commit is pending; an activate is taken without changing anything iff its commit was activated last and is not pending again |
| `TagDirectory.LatePrepareReopens` | backend/weald-mls/src/recovery.rs:352-358 | a prepare after its own activate opens the slot again |
| `TagDirectory.GroupsAreApart` | backend/weald-mls/src/recovery.rs:416-427 | whatever other groups do, a group's entry is the one its own calls make |
| `TagDirectory.DirectoryEntry.constructor` | backend/weald-mls/src/recovery.rs:335-345 | a new entry has no tags |
| `TagDirectory.DirectoryEntry.Prepare` | backend/weald-mls/src/recovery.rs:352-358 | `prepare` in place is the prepare step |
| `TagDirectory.DirectoryEntry.Activate` | backend/weald-mls/src/recovery.rs:367-387 | `activate` in place is the activate step |
| `TagDirectory.Directory.constructor` | backend/weald-mls/src/recovery.rs:409-412 | a new directory is empty |
| `TagDirectory.Directory.EntryOf` | backend/weald-mls/src/recovery.rs:416-422 | the group's entry, pushed only when there was none, one per group |
| `TagDirectory.Directory.Get` | backend/weald-mls/src/recovery.rs:425-427 | the group's entry iff there is one |
| `TagDirectory.Directory.Update` | backend/weald-mls/src/recovery.rs:416-422 | a call through `entry` changes that group's entry and keeps one per group |
| `Deadline.HandshakeDeadlineHolds` | backend/wealdrelay/src/deadline.rs:231-237 | with a punctual loop an unauthenticated connection ends exactly at the handshake interval or when the message in hand then is done, and outlives the interval by no more than the longest handling |
| `Deadline.IdleDeadlineHolds` | backend/wealdrelay/src/deadline.rs:238-252 | an authenticated one is probed after a full idle silence or when the message in hand then is done, ends exactly a silent probe window later, and does not outlive that |
| `Deadline.WaitsAreLong` | backend/wealdrelay/src/deadline.rs:173-262 | a wait is never zero, and a probe's is iff the idle interval is |
| `Deadline.PlayIsOnTime` | backend/wealdrelay/src/ws.rs:446-514 | where a punctual loop stands against its deadlines after any run, messages taking any time to handle |
| `Deadline.Deadlines.constructor` | backend/wealdrelay/src/deadline.rs:173-186 | the probe window is clamped to the idle interval |
| `Deadline.Deadlines.Authenticate` | backend/wealdrelay/src/deadline.rs:195-202 | authenticating restarts the silence, once |
| `Deadline.Deadlines.Saw` | backend/wealdrelay/src/deadline.rs:208-211 | anything heard restarts the silence and clears the probe |
| `Deadline.Deadlines.RecordProbe` | backend/wealdrelay/src/deadline.rs:214-216 | a probe is recorded at its time |
| `Deadline.Deadlines.Ask` | backend/wealdrelay/src/ws.rs:446-463 | one turn of the connection loop: ask, and record a probe that is due |

## Left out

- Signature verification: Ed25519 is not modelled; `verify` and `decode_verified` only add it behind the decoders.
- Decoder bodies of the payloads and frames are functions of the bytes ahead and not of the cursor object; the cursor
  classes and the vector-filling loops are modelled and proved against the same functions.
- `admission_refusal`, `mls_message`, `is_terminal`, `is_retryable`, `qualified`, error texts and reason strings: each
  is settled by reading one branch.
- `Hub::fanout`, `holds`, `connections_for`, `subscribers`, `downgrades_owed` and the counter getters: reads of the
  state.
- `Hub::connect`: ids are taken as given, and a connection is its id; the relay makes one channel per id.
- Channel activity in the middle of a lock section: a section is one step, so the writer task takes items before or
  after it. The flag's wake-up and the socket behind a channel are not modelled.
- A connection that subscribes again after it was dropped: `HubOrder` follows one registration of a connection in a
  group. It takes from `publish_handshake` that a handshake is fanned out to the group it names, and nothing else of the
  callers.
- The store behind a replay: `HubOrder.HandshakesOnceInOrder` takes what the session queued as it comes, and its second
  half speaks of replays that queued each seq below their end.
- `RelayReader`: `optional_is_null` has no caller in the modelled frames.
- Accept.BudgetIsKept: one fixed limit for the whole run, and no deletion of rows; compaction is not modelled.
- Accept.NoGaps: no deletion of rows, and the database's 64-bit overflow of a counter is not modelled.
- The partial write of an outbox file: an append is one step, as the crash points of the source have it.
- Sealing of the directory, the group session, the store and everything that only calls into OpenMLS or SQLite.
- Deadline.HandshakeDeadlineHolds: a wait that the timer oversleeps is not modelled, for every run of `Deadline`.
- Configuration, backup, janitor, media, invites, key packages and the other services around these parts.
