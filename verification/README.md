# Subchannels over IPC channels, verified

This project models the multiplexing layer of an IPC library: many *subchannels* share one IPC
channel, and the sending ends of subchannels (*subsenders*) can be cloned, dropped, and sent in
messages on other subchannels to other processes. The model is written in Dafny 4.11 and
`dafny verify dfyconfig.toml` checks all of it.

The hardest question in that layer is when a subchannel is disconnected. Its receiver must not be
told so while a process still holds a subsender, while one is inside a message somewhere, or while
a message it was sent has not been received. It should be told so as soon as that is no longer the
case. The library decides by counting: a state machine per subchannel knows the *sources* that hold
subsenders and keeps one token per copy that is *in flight* on a carrier, and a handful of protocol
messages in the FIFO queue of the subchannel's home channel keep it up to date.

## How the model is built

Bottom up, each layer used by the next:

| module | what it is |
|---|---|
| `SubchannelLifecycle` | the state machine: a value with one function per event, and the class that updates its fields in place, with the loops of `poll`, proved against those functions |
| `Probes` | which probes count: what each call on a state machine means for the polls that follow |
| `Subchannel` | the life of one subchannel: the notes about it that wait in its home queue, its machine, every copy of its subsenders, and the *replay* invariant, which looks at the machine as it will be once the queue has been handled |
| `Demux` | what a demultiplexer does with a resolved message |
| `System`, `Copies`, `Delivery`, `Runs` | any number of channels and subchannels in one state; an event keeps the invariant exactly if it is safe, because each subchannel on its own goes through a life as in `Subchannel` |
| `Histories` | what each event adds to the histories of a subchannel: copies that leak, messages that are lost or handed out; what a `recv` can lose |
| `Ledger` | what each event does to the copies that are held and to what is sent, and who is told |
| `Guarantees` | what holds in every run of safe events: no premature disconnection, exact detection, order, conservation of copies, identity |
| `Progress` | queues can be emptied, and that closes a subchannel without subsenders |
| `Limits` | where the state machine works only under a condition, and exactly which |
| `SenderId`, `Wire`, `Dedup`, `Resolution` | messages as they are on the wire, where an IPC sender travels once and then only its identifier; lookups never fail; what happens on the wire agrees with `Demux` |
| `Demultiplexer`, `Multiplexing`, `Dropping`, `Answers`, `Receiver` | the demultiplexer and the receivers as classes with loops; which messages fail; subchannels as independent queues over a shared one; how a `recv` ends; dropping a receiver, and where the answers go |
| `Reception` | what a `recv` reports, as the whole system has it |
| `Sender`, `Farewell` | the sending end: responses, probes, and `send`; from a dropped receiver to the sends that fail |
| `OutOfBand`, `Contexts` | handles that travel beside the payload, and the round trip of whole messages |
| `ReceiverSet`, `SetRuns`, `Router`, `RouterRuns` | sets of subreceivers, merging, the machines that share a set's queue, the router loop, and that what a set passes on is what the loop counts on |

Names follow the library. A carrier is called `via`, the channel on which a subchannel was created
is its *home*, and a *source* is a process that holds subsenders: the one that created the
subchannel, the one behind a channel's receiver, or one that rebuilt a subsender from a transport
over a raw IPC channel.

## What is taken for granted

* Every method of the state machine is one step. The library locks its fields in different orders
  in `disconnect` (src/mux/subchannel_lifecycle.rs:165-167) and `poll`
  (src/mux/subchannel_lifecycle.rs:216-227); nothing is said about deadlock.
* Finding the queue empty and polling is one step (src/mux/demux.rs:717-719), and so is dropping
  the last reference to a tracker and enqueueing `Disconnect`
  (src/mux/subchannel_lifecycle.rs:39-46).
* In `System`, all subchannels exist from the start. Any reference in a message may turn out not
  to be resolved, as a channel may be closed or an identifier unknown; `Resolution` says when it is
  so, and `Dedup` when it never is. Runs consist of safe events. Only two kinds of event can be
  unsafe: not recording an announcement whose copy may yet arrive, and a poll that gives up a
  carrier on which copies are under way. `Runs.NextGoodIff` shows that an event keeps the whole
  system in order if and only if it is safe.
* Sending to a channel fails as soon as its receiving process is gone, and not before. In `System`
  nothing is announced, no transport begins or ends and no subsender is rebuilt on a dead channel;
  notices sent to it are lost without anybody minding, as in the library.
* A `recv` may be of another type than the message was sent with, so rebuilding a message may stop
  anywhere (src/mux/subchannel_endpoint.rs:258-261). That it ends well with a value of the other
  type is not considered.
* The wakeups of a router enter the queue of its set when they are sent, and nothing else is sent on
  its subchannel.
* In `Dedup`, one `send` at a time uses a source, a `send` that has begun goes through, and senders
  that come with a message can be connected to. Each of the three is shown to be needed.
* Identifiers that the library draws at random are fresh.
* `is_receiver_connected` says yes when no proxy is registered (src/mux/sender/mod.rs:137-144),
  in spite of the comment at src/mux/subchannel_router/select.rs:164-167. The code is followed.

## Where the code and its documentation differ

* PROTOCOL.md:261-263 promises a fallback to `Sending` when no keepalive channel can be created.
  The code returns the error (src/mux/sender/mod.rs:293).
* PROTOCOL.md:291-293 promises `ReceiveFailed` for every subsender in messages that a dropped
  receiver never gets. A message handled after the receiver has gone is discarded without
  (src/mux/demux.rs:264-296): its copies leak, and their subchannels are not found disconnected
  unless a poll makes up for them. `Histories.LeaksExactly`, `Guarantees.ExactDetection` and
  `Guarantees.PollRecovers` say precisely when.
* PROTOCOL.md says nothing of a data message in which one sender cannot be connected to. The code
  gives up the whole message (src/mux/demux.rs:228-260): its payload is lost, and all copies in it
  leak. `Histories.LeaksExactly` has it, and `Guarantees` speaks of what was sent but for what was
  lost.
* PROTOCOL.md:87-94 has `ReceiveFailed` for a subsender that could not be received. A `recv` that
  fails to rebuild a message, as the arrival of one of its subsenders cannot be reported, reports
  nothing of those behind it (src/mux/demux.rs:75-93, src/mux/demux.rs:591-604): their copies leak
  and the message is gone (`Histories.LeftBehind`).
* src/mux/demux.rs:466-470 says that it is no fatal error if a subreceiver has not been added to a
  set yet. That is so for its messages, but not for its end (src/mux/demux.rs:303-305): there is no
  queue for the marker, and `select` fails (`SetRuns.DisconnectFailsIff`).

## What turned out to need a condition

* Detection is exact if and only if the machine has been told of all that became of copies
  (`Subchannel.ClosedIffDeserted`); a poll makes up for exactly what leaked on the carriers whose
  probes fail (`Guarantees.PollRecovers`).
* Copies lost with a process or a transport are detected by a poll if and only if no source is
  orphaned and each carrier with a token has its probe (`Limits.LossDetectedIff`).
* A poll is harmless if and only if no copy is on a living carrier whose probe fails
  (`Subchannel.PollKeepsInvIff`). Raw transports of a subchannel share one probe, so it treats all of
  them like the last one (`Limits.SharedKey`), and can close a subchannel whose only copy is under
  way (`Limits.LiveTransportClosed`).
* A `Sending` whose carrier cannot be resolved is not recorded. That is harmless if and only if what
  follows can do without one token on the carrier (`Subchannel.ForgetKeepsInvIff`,
  `Limits.RefusedTimelyIff`); otherwise the subchannel may close early
  (`Limits.RefusedClosesEarly`).
* A sender in a message that cannot be connected to makes the target forget those behind it
  (`Dedup.FailureForgets`); a `send` that gives up halfway leaves identifiers behind that were
  never sent (`Dedup.AbortHarmlessIff`).
* A `recv` hands a message of the expected type to its caller if and only if the home channel of
  every subsender in it lives, and leaves no copy of a living subchannel behind if and only if in the
  message none follows one whose home channel is dead (`Histories.RecvLosesNothingIff`).
* A message fails under conditions that can be told before (`Multiplexing.FailsExactly`). A `recv`
  returns the error of handling any message it reads: it fails with nothing taken if and only if one
  fails before there is something for its own subchannel (`Multiplexing.ReceiveFailsIff`).
* A `select` on a set fails if and only if a message fails that is handled before there is something
  to report (`SetRuns.SelectNeverMisses`). The other messages of its batch are lost
  (`SetRuns.BatchFailsIff`), and a router stops, with all its routes (`Router.Router.Turn`,
  `RouterRuns.RunServesRouter`).
* A client whose `Connect` is queued is told that a receiver is gone if and only if no message before
  it fails (`Dropping.ClientIsToldIff`).
* A subreceiver that is added to a set after its machine has closed arms the machine again
  (`SetRuns.AddedLate`).

## Model

| member | source | states |
|---|---|---|
| SubchannelLifecycle.SubSenderStateMachine.constructor | src/mux/subchannel_lifecycle.rs:123-137 | a new machine knows its initial source and nothing in flight |
| SubchannelLifecycle.SubSenderStateMachine.Send | src/mux/subchannel_lifecycle.rs:139-141 | a message goes to the sender exactly if the machine still has it |
| SubchannelLifecycle.SubSenderStateMachine.ToBeSent | src/mux/subchannel_lifecycle.rs:144-147 | one more copy in flight on the carrier, whose probe is the latest one |
| SubchannelLifecycle.SubSenderStateMachine.Received | src/mux/subchannel_lifecycle.rs:151-155 | one copy less in flight, the receiving source is known, the carrier's probe is gone |
| SubchannelLifecycle.SubSenderStateMachine.Disconnect | src/mux/subchannel_lifecycle.rs:164-172 | the source is forgotten; the sender is handed out if neither a source nor a copy in flight is left |
| SubchannelLifecycle.SubSenderStateMachine.ReceiveFailed | src/mux/subchannel_lifecycle.rs:176-183 | one copy less in flight; the sender is handed out if neither a source nor a copy in flight is left |
| SubchannelLifecycle.SubSenderStateMachine.Poll | src/mux/subchannel_lifecycle.rs:188-232 | the loops over probes, copies in flight and carriers compute the new machine; a machine that has handed out its sender runs no probe, another runs each probe once |
| SubchannelLifecycle.SubSenderStateMachine.SwitchSender | src/mux/subchannel_lifecycle.rs:234-236 | the sender is replaced and nothing else |
| SubchannelLifecycle.PollExactly | src/mux/subchannel_lifecycle.rs:188-232 | carrier by carrier: all copies on carriers with a registered failing probe are given up with their probes, all else and all sources stay, and the sender is handed out exactly if nothing is left |
| Probes.ArrivalDisarms | src/mux/subchannel_lifecycle.rs:151-155 | an arrival takes the probe of its carrier away: whatever that would answer, the next poll spares the copies left there, and treats the others as it would have before |
| Probes.ArrivalSpares | src/mux/subchannel_lifecycle.rs:144-232 | that lasts through any calls until a copy is announced on the carrier again |
| Probes.FailureKeepsProbe | src/mux/subchannel_lifecycle.rs:176-183 | a failure leaves the probe, and a poll upon its failure still gives up what is left there |
| Probes.LatestProbeCounts | src/mux/subchannel_lifecycle.rs:144-232 | of the probes announced on a carrier the last one counts, through any calls until an arrival or its failure |
| Probes.RefusalArms | src/mux/demux.rs:325-331 | a carrier that cannot be reached adds no copy, but its failing probe makes the next poll give up those that were there |
| Subchannel.ClosedMeansDeserted | src/mux/subchannel_lifecycle.rs:164-183 | when a machine has given its sender away, no copy is held, announced, carried or transported, and every message that was not lost has been put into the local queue, and then one marker |
| Subchannel.ClosedIffDeserted | src/mux/subchannel_lifecycle.rs:139-232 | once every note is handled, the sender is given away if and only if nobody has a copy and the machine has been told of all that became of them, whoever died on the way |
| Subchannel.CloneKeepsInv | src/mux/sender/mod.rs:231-242 | cloning a subsender keeps the accounts of its subchannel in order |
| Subchannel.DropKeepsInv | src/mux/sender/mod.rs:196-209 | so does dropping one, with the message that follows the last one at a source unless that source knows that the receiver is gone |
| Subchannel.AnnounceKeepsInv | src/mux/sender/mod.rs:339-348 | so does announcing a copy, which finds the machine not empty when it is handled |
| Subchannel.ArriveKeepsInv | src/mux/demux.rs:228-260 | so does demultiplexing a message with a copy in it, which then holds a tracker |
| Subchannel.AcceptKeepsInv | src/mux/demux.rs:591-604 | so does deserializing a copy while its home channel lives; its arrival will find a token in flight |
| Subchannel.RefuseKeepsInv | src/mux/demux.rs:818-842 | so does reporting a copy as not received; the report will find a token in flight |
| Subchannel.ReleaseKeepsInv | src/mux/demux.rs:264-296 | so does discarding a copy without a report, but its token stays |
| Subchannel.StrandKeepsInv | src/mux/demux.rs:228-260 | so does losing a copy behind a reference that cannot be resolved, which never gets a tracker |
| Subchannel.HandleKeepsInv | src/mux/demux.rs:212-378 | so does handling a message, and the local queue gets what the shared one loses |
| Subchannel.LoseKeepsInv | src/mux/demux.rs:228-260 | so does losing a data message, which is then missing from what the receiver is given |
| Subchannel.ForgetKeepsInvIff | src/mux/demux.rs:325-331 | not recording an announcement does so if and only if at no point behind it its token would be the last for an arrival or all that keeps the machine open, and the carrier has a token to spare or is gone |
| Subchannel.PollKeepsInvIff | src/mux/demux.rs:751-774 | a poll upon an empty queue does so if and only if no copy is on a living carrier whose probe fails |
| Subchannel.GoDownKeepsInv | src/mux/subchannel_lifecycle.rs:194-221 | so does the death of the processes behind some carriers; the copies under way to them have leaked |
| Subchannel.EndTransportKeepsInv | src/mux/subchannel_endpoint.rs:298-346 | so does turning a transport over a raw IPC channel into a subsender again |
| Copies.CloneGood | src/mux/sender/mod.rs:231-242 | cloning a subsender keeps the whole system in order |
| Copies.DropGood | src/mux/sender/mod.rs:196-209 | dropping a subsender, with the `Disconnect` of the last one at a source that does not know the receiver to be gone, keeps the whole system in order |
| Copies.AnnounceGood | src/mux/sender/mod.rs:339-348 | announcing a copy about to be embedded keeps the whole system in order |
| Copies.AbandonGood | src/mux/sender/mod.rs:339-365 | so does giving up a `send` after its announcements |
| Copies.TransmitGood | src/mux/sender/mod.rs:356-365 | so does sending the data message, with all its announced copies inside |
| Copies.BeginTransportGood | src/mux/sender/mod.rs:291-308 | so does beginning a transport over a raw IPC channel, also while others are in progress |
| Copies.EndTransportGood | src/mux/subchannel_endpoint.rs:298-346 | so does ending it, with `Connect` and `Received` |
| Delivery.ActSubject | src/mux/demux.rs:212-378 | a message about a subchannel moves that subchannel's machine by the corresponding note, and puts into its own local queue what the note calls for |
| Delivery.ActOthers | src/mux/demux.rs:212-378 | no other subchannel's machine or local queue changes |
| Delivery.DeliverGoodIff | src/mux/demux.rs:212-378 | handling the head of any queue, with all references resolved or up to the first that is not, keeps the whole system in order; but for an announcement that is not recorded, where it does so if and only if the subchannel can do without |
| Delivery.RecvGood | src/mux/demux.rs:570-618 | receiving a message keeps the whole system in order: every copy in it becomes a live one; or rebuilding it stops, at a copy whose home channel is dead or elsewhere, those before are dropped again with what was rebuilt, and those behind are dropped without a report |
| Delivery.DropReceiverGood | src/mux/demux.rs:818-842 | dropping a receiver, every copy in whose local queue is reported, keeps the whole system in order |
| Runs.PollGoodIff | src/mux/demux.rs:751-774 | polling a subchannel keeps the whole system in order if and only if no copy is on a living carrier whose probe fails |
| Runs.CrashGood | src/mux/subchannel_lifecycle.rs:194-221 | the death of the process that receives on a channel keeps the rest of the system in order |
| Runs.NextGoodIff | src/mux/subchannel_lifecycle.rs:139-232 | an event of any kind keeps the whole system in order if and only if it is safe |
| Guarantees.NoPrematureDisconnection | src/mux/demux.rs:904-906 | in every run of safe events, crashes and lost messages included, when `recv` on a subchannel reports that it is disconnected, no subsender for it is left anywhere, not inside any message either, and every message ever sent to it has been taken by a `recv`, in order, but for those lost; whether it was handed to its caller is on record for each |
| Reception.RecvReportsEnd | src/mux/demux.rs:854-909 | `recv`, having read as far as it does, reports that its subchannel is disconnected if and only if the system says so |
| Reception.RecvIsNotPremature | src/mux/demux.rs:854-909 | so in every run, when `recv` reports it, no subsender is left anywhere |
| Guarantees.SubchannelIsFifo | src/mux/demux.rs:212-296 | what was taken and what waits in the local queue are together what was sent first, in order, but for lost messages, and a marker once the subchannel is closed; what is queued in the channel is what was sent then; for each item taken it is on record whether it was handed out, which by `Histories.LeaksExactly` it was if and only if it could be rebuilt |
| Guarantees.ExactDetection | src/mux/subchannel_lifecycle.rs:164-183 | in every run, once its messages are handled a subchannel is closed if and only if no copy is left and its machine has been told of all that became of them, and its local queue got every message that was not lost, and then exactly one marker |
| Guarantees.QuietDetection | src/mux/subchannel_lifecycle.rs:164-183 | in particular, if no process dies with copies of it, its receiver stays, every reference is resolved and its messages can be rebuilt, it is closed if and only if no copy is left and none has leaked, and all that was sent was handed out or waits in its local queue |
| Histories.LeaksExactly | src/mux/demux.rs:212-378 | each event adds to the histories of a subchannel exactly what `TollOf` says: copies leak in a message for a dropped receiver, in one with a reference that cannot be resolved, behind the place where rebuilding a message stops, in a `send` given up after announcing, in a transport whose process is gone and with the receiving process, and as many as there are; a message is lost if and only if it has such a reference or its receiver was dropped, and one that is taken is handed to the caller if and only if it can be rebuilt; an announcement is not recorded if and only if its carrier cannot be resolved |
| Ledger.LedgerExactly | src/mux/demux.rs:570-618 | each event does to the held copies of a subchannel, source by source, to what was sent to it and to its transports just what it should; a message that cannot be rebuilt leaves no copy held |
| Ledger.DropTells | src/mux/sender/mod.rs:196-209 | dropping a copy sends one `Disconnect` home if it was the last at its source and the source does not know that the receiver is gone, and nothing otherwise |
| Ledger.LearntIsSilent | src/mux/sender/mod.rs:196-209 | a source that has found out is silent from then on |
| Ledger.VanishIsSilent | src/mux/subchannel_lifecycle.rs:39-46 | a copy that goes with its process tells nobody |
| Ledger.AnnounceTells | src/mux/sender/mod.rs:339-348 | each copy is announced on the way of its own subchannel, under its carrier |
| Ledger.TransmitTells | src/mux/sender/mod.rs:356-365 | the data message has one reference for each announced copy, in order, to that copy's own channel |
| Ledger.RefusalShows | src/mux/demux.rs:325-331 | an announcement whose carrier cannot be reached leaves a failing probe with the machine, and no other trace |
| Ledger.ReceiverGoes | src/mux/demux.rs:786-842 | a receiver that is dropped is gone with its local queue, and no other is |
| Ledger.CrashTakes | src/mux/subchannel_lifecycle.rs:194-221 | a receiving process that dies takes along what was queued for it, and no other channel |
| Ledger.TransportsAreDistinct | src/mux/sender/mod.rs:291-308 | in every run each transport in progress has a number that no other ever had |
| Ledger.TransportTells | src/mux/subchannel_endpoint.rs:298-346 | a transport that ends connects, and then reports its arrival |
| Histories.RecvLosesNothingIff | src/mux/demux.rs:570-618 | a `recv` of a message of the expected type hands it out if and only if the home channel of every subsender in it lives, and no copy of a living subchannel leaks if and only if none follows one of a dead channel |
| Histories.LeftBehind | src/mux/demux.rs:75-93 | a message with a copy of a dead channel and a copy of a living one behind it can only fail to be rebuilt, and the second leaks |
| Histories.OnlyGoneDrops | src/mux/demux.rs:262-296 | with all references resolved, a data message finds its machine open, and is discarded exactly if its receiver has been dropped |
| Guarantees.PollRecovers | src/mux/subchannel_lifecycle.rs:206-227 | after a safe poll no token is left on the carriers whose probes failed, all others and the sources stay, and the subchannel is closed if and only if no copy is left, no source is orphaned and nothing has leaked on any other carrier |
| Guarantees.InFlightConservation | src/mux/sender/mod.rs:339-348 | in every run, once the queue is replayed, the tokens for a carrier are the copies announced on it, inside queued messages and inside demultiplexed ones, and those that leaked, less the announcements that were not recorded; never fewer than the copies |
| Guarantees.TimelyAt | src/mux/subchannel_lifecycle.rs:144-183 | every queued `Data`, `Sending` or `Received` will find the machine not empty, and every `Received` or `ReceiveFailed` its token |
| Guarantees.ForwardingKeepsIdentity | src/mux/demux.rs:576-618 | in every run, however often a subsender is forwarded, each copy held or under way refers to the channel its subchannel was created on, and messages are only ever put into their own subchannel's local queue |
| Progress.DeliverShrinks | src/mux/demux.rs:212-378 | handling a message takes more off its queue than the `Disconnect`s it makes be sent put on it |
| Progress.QueueDrains | src/mux/demux.rs:686-704 | so a queue can be emptied by handling its messages, which brings no copy of a deserted subchannel back |
| Progress.DetectionIsReached | src/mux/subchannel_lifecycle.rs:164-183 | in every run, once no copy is left and the machine has been told of all that became of them, handling what is queued closes the subchannel, and what its receiver has taken and what it finds are together every message that had not been lost by then, and one marker |
| Progress.CreatedIsStart | src/mux/subchannel_lifecycle.rs:123-137 | runs can start with any subchannels on any channels |
| Progress.DropIsNoticed | src/mux/sender/mod.rs:196-209 | when the one subsender of a new subchannel is dropped, a run leads to its receiver reporting that |
| Limits.SharedKey | src/mux/demux.rs:364-370 | of any number of raw transports, those before included, a poll keeps as many as are alive or more if and only if the last one is alive or none is, and exactly as many if and only if all fare like the last |
| Limits.LiveTransportClosed | src/mux/demux.rs:364-370 | so the failure of a later transport closes a subchannel whose only copy travels in an earlier one |
| Limits.LossDetectedIff | src/mux/subchannel_lifecycle.rs:188-232 | once the last copies are lost, on dead carriers or in transports, a poll can find that out if and only if no source is orphaned and each carrier with a token has its probe |
| Limits.RefusedTimelyIff | src/mux/demux.rs:325-331 | when a `Sending` is refused, everything queued behind it will be expected all the same if and only if it can do without one token on the carrier |
| Limits.TokensCounted | src/mux/subchannel_lifecycle.rs:144-183 | the tokens on a carrier can be told by counting announcements and arrivals in the queue |
| Limits.RefusedClosesEarly | src/mux/demux.rs:325-331 | the subchannel may then close before a copy that is alive arrives |
| SenderId.Source.Insert | src/mux/sender/sender_id.rs:77-79 | says whether the sender has been sent before, and records it |
| SenderId.Target.Add | src/mux/sender/sender_id.rs:104-107 | the first sender that comes with an identifier is kept |
| SenderId.Target.LookUp | src/mux/sender/sender_id.rs:113-115 | finds the sender associated with an identifier, if there is one |
| Dedup.PacketResolves | src/mux/demux.rs:388-416 | a message in which each lone identifier is known or has come before is resolved without an error, each subsender to a connection to its own channel, and the target learns exactly the identifiers that came |
| Dedup.TellKeeps | src/mux/sender/mod.rs:339-348 | an announcement carries an identifier alone only if its target will know it |
| Dedup.CollectKeeps | src/mux/sender/mod.rs:350-354 | a message in the making carries an identifier alone only if its target will know it or finds it earlier in the message |
| Dedup.EmbedKeeps | src/mux/sender/mod.rs:339-354 | both together, also when a subsender is sent on itself or on a sibling |
| Dedup.EndKeeps | src/mux/sender/mod.rs:356-365 | sending the message makes good what its source has recorded |
| Dedup.ExpireKeeps | src/mux/sender/sender_id.rs:31-34 | weak entries may expire at any time; the next reference then brings the sender again |
| Dedup.ReadKeeps | src/mux/demux.rs:388-416 | reading a message keeps both ends of the scheme coherent |
| Dedup.LookupsNeverFail | src/mux/demux.rs:401-414 | in every run of creating, sending, forwarding, expiring and reading, no lookup fails, and each subsender gets a connection to the channel its subchannel was created on |
| Dedup.ResolvedIffReachable | src/mux/sender/mod.rs:105-121 | a coherent message is resolved if and only if every sender in it can be connected to |
| Dedup.FailureForgets | src/mux/demux.rs:228-260 | if one cannot, the target has learnt what came before it and nothing behind it |
| Dedup.AbortHarmlessIff | src/mux/sender/mod.rs:339-365 | giving up a `send` halfway is harmless if and only if it has recorded no connection that is new to the target |
| Dedup.ConcurrentTellIff | src/mux/sender/mod.rs:368-389 | using the source of another `send` in progress is harmless if and only if the connection is new to the source or known to the target |
| Resolution.ActAgrees | src/mux/demux.rs:212-378 | with connections replaced by the channels they lead to, every resolved message is handled alike |
| Resolution.WireAgrees | src/mux/demux.rs:212-416 | any truthful message read off the wire is handled as `System` says: as if it named the channels if all its references can be resolved, and otherwise lost, with those before the first broken one dropped, or not recorded |
| Resolution.UnbrokenIff | src/mux/demux.rs:388-416 | all references of a message can be resolved if and only if identifiers come after their senders and no sender leads to a closed channel |
| Demultiplexer.Demuxer.IpcSenderFromSenderAndOrId | src/mux/demux.rs:388-416 | a sender is connected to and associated with its identifier, an identifier is looked up |
| Demultiplexer.Demuxer.ResolveSenders | src/mux/demux.rs:228-260 | references are resolved in order, up to the first that cannot be |
| Demultiplexer.Demuxer.HandleData | src/mux/demux.rs:219-297 | a data message goes to its local queue, or its subsenders are reported or discarded; either form, as a receiver and as a receiver set handles it |
| Demultiplexer.Demuxer.Handle | src/mux/demux.rs:212-378 | every message changes the tables, the target, the clients and the mail as specified, and nothing else |
| Demultiplexer.Demuxer.PollAllSubchannels | src/mux/demux.rs:495-519 | each subchannel is polled once and by itself, a marker follows where a machine gives its sender away, and the result says whether one did |
| Demultiplexer.PollAllExactly | src/mux/demux.rs:495-519 | polling everything gives up just the copies on carriers whose probe fails, carrier by carrier; a marker follows where a machine then gives its sender away, and the answer is whether one did |
| Multiplexing.AdvanceKeepsContents | src/mux/demux.rs:686-704 | reading a message without an error leaves the contents of every subchannel as they are |
| Multiplexing.FailsExactly | src/mux/demux.rs:212-493 | a message fails if and only if a reference in a data message cannot be resolved, or its subchannel is unknown or closed or, unless a set handles it, without its receiver, or it closes a subchannel without its receiver, or it is a name |
| Multiplexing.ReceiveTakesOwnHead | src/mux/demux.rs:854-909 | a `recv` that reads no failing message takes the head of its own subchannel's contents, if anything, to be rebuilt, and every other subchannel's contents are unchanged; one that does has taken nothing, and all contents are unchanged but for the message that failed |
| Multiplexing.ReceiveReadsShortestPrefix | src/mux/demux.rs:854-909 | it has read no more of the shared queue than it needed |
| Multiplexing.ReceiveFailsIff | src/mux/demux.rs:900-902 | a `recv` fails with nothing taken if and only if a message fails before there is something for its own subchannel |
| Multiplexing.ReceiveEndsIff | src/mux/demux.rs:854-909 | `recv` reads on exactly as long as its local queue is empty and its machine has its sender; it reports the end if and only if the marker is next or nothing is left and the machine is closed, and otherwise ends with the first message of the local queue |
| Multiplexing.ReceiveFindsMessage | src/mux/demux.rs:854-909 | if no message fails, it ends with a message if and only if there is one for its subchannel, in the local queue or the shared one, and it is the first |
| Multiplexing.ReceiveThrough | src/mux/demux.rs:854-909 | it does to the shared queue just what the messages it reads do, and takes its own item |
| Multiplexing.DrainThrough | src/mux/demux.rs:728-733 | draining does what the messages it reads do: all of them, or those up to the first that fails |
| Multiplexing.AdvanceShrinks | src/mux/demux.rs:728-733 | though handling a message can enqueue `Connect`s on the queue being drained, what is left to read gets less |
| Dropping.DrainFailsIff | src/mux/demux.rs:728-733 | draining fails if and only if a message does; it empties the queue otherwise, and leaves every subchannel's contents as they are but for the message that failed |
| Dropping.ClientIsToldIff | src/mux/demux.rs:787-811 | a client is told that a receiver is gone if and only if it had registered, or its `Connect` is read before any message fails |
| Dropping.QueuedClientIsToldIff | src/mux/demux.rs:787-811 | so one whose `Connect` is queued at any position is told if and only if no message before it fails |
| Dropping.DropAccountsForAll | src/mux/demux.rs:786-842 | whatever fails on the way, the subsenders in the contents of the dropped subchannel and in messages that arrive meanwhile are, as a multiset, those reported with their carrier, those in the messages that failed, and those still queued; of other contents nothing goes but messages that failed |
| Dropping.DropAnswersEverySubsender | src/mux/demux.rs:786-842 | if no message fails on the way, each of them gets one `ReceiveFailed` with its subchannel and carrier, in order, and no other subchannel's contents change |
| Answers.AnsweredOnOwnConnection | src/mux/demux.rs:818-842 | the i-th answer goes to the channel of the i-th held subsender's own connection |
| Answers.AnsweredAtHome | src/mux/demux.rs:818-842 | if what the receiver was sent is truthful, that is the channel on which the subchannel was created |
| Answers.AnswersArrive | src/mux/demux.rs:818-842 | an answer gets through if and only if its channel is open, and into the own queue if it is the own channel |
| Answers.NothingAfterDrop | src/mux/demux.rs:262-296 | a data message for a receiver that has been dropped fails and changes no table |
| Answers.OnlyUnknownIsAnswered | src/mux/demux.rs:262-296 | handling a message sends connections, and `ReceiveFailed` for each subsender, on its own connection, if and only if it is a data message for an unknown subchannel; subsenders are given up if and only if their message gets into no local queue |
| Answers.ClientsAreNew | src/mux/sender/mod.rs:105-121 | each connection made announces just its own client, and no two share theirs |
| Receiver.MultiReceiver.TryRecv | src/mux/demux.rs:686-704 | one message is read and handled, if there is one |
| Receiver.MultiReceiver.Drain | src/mux/demux.rs:728-733 | the loop reads until the queue is empty or a message fails, and it ends |
| Receiver.MultiReceiver.Broadcast | src/mux/demux.rs:795-811 | every registered client is told once, and no other |
| Receiver.MultiReceiver.DropSubReceiver | src/mux/demux.rs:787-842 | the phases of dropping a receiver: drain, tell the clients, drain again, report what is left |
| Receiver.SubChannelReceiver.Recv | src/mux/demux.rs:854-909 | the loop reads the shared queue until there is something for its own subchannel, an error, or nothing |
| Receiver.SubChannelReceiver.Drop | src/mux/demux.rs:786-842 | dropping a receiver as specified |
| Sender.MultiSender.DrainResponses | src/mux/sender/mod.rs:150-171 | all notifications are received, up to the first empty answer or failure; a failure is final; the proxies are as the record of what was received has them |
| Sender.MultiSender.Probe | src/mux/sender/mod.rs:87-89 | true exactly if the channel has never failed |
| Sender.MultiSender.IsReceiverConnected | src/mux/sender/mod.rs:137-144 | false exactly if the subreceiver's notification was received since its proxy was registered |
| Sender.CallAll | src/mux/sender/mod.rs:87-171 | for any calls in any order: once a probe fails all later ones do, and a subreceiver found gone stays gone until it is registered again |
| Sender.NoticesReachProxies | src/mux/sender/mod.rs:150-171 | notices are all received in one go, and just the registered proxies they name are disconnected |
| Sender.GoneStaysGone | src/mux/sender/mod.rs:137-144 | only a new registration makes a subreceiver count as present again |
| Sender.EveryCopyIsAnnounced | src/mux/sender/mod.rs:335-354 | every embedded subsender is announced once, in order, under the carrier it travels on, and referred to under its own identifier |
| Sender.SendSends | src/mux/sender/mod.rs:310-366 | a `send` sends nothing if the receiver is known to be gone; otherwise an announcement for each subsender up to the first whose channel is closed, and if there is none one data message, with the payload and a reference to each subsender in order |
| Sender.SentOnce | src/mux/sender/mod.rs:368-389 | a reference carries its sender if and only if its connection has not come up before for the source of the message |
| Sender.SendIsDedup | src/mux/sender/mod.rs:335-365 | the references in the data message and what the sources have recorded are those of module `Dedup` |
| Sender.FailedSendRecords | src/mux/sender/mod.rs:339-354 | a `send` that fails at an announcement has recorded that one as if it had been sent |
| Sender.IncludeIsDedup | src/mux/sender/mod.rs:339-354 | including a subsender is the step that module `Dedup` reasons about |
| Sender.SubChannelSender.Announce | src/mux/sender/mod.rs:335-354 | the loop that announces subsenders and collects references, up to the first failure |
| Sender.SubChannelSender.Send | src/mux/sender/mod.rs:310-366 | nothing is sent if the receiver is known to be gone; otherwise the announcements, and after them the message |
| Sender.SubChannelSender.Dropped | src/mux/sender/mod.rs:196-209 | `Disconnect` is sent unless the receiver is known to be gone |
| Farewell.ClientHears | src/mux/demux.rs:787-811 | a client is sent just one notice, of just the dropped receiver, if it had registered or its `Connect` is read before a message fails, and none otherwise |
| Farewell.DropThenSend | src/mux/sender/mod.rs:310-322 | when a receiver is dropped, a client is told and has a sender registered for the subchannel, every later `send` on it fails with `Disconnected` and nothing is sent |
| OutOfBand.EncodeSucceedsIff | src/mux/ipc_channel.rs:198-216 | serialization succeeds exactly if it finds every IPC receiver in its cell |
| OutOfBand.TakableIsOnce | src/mux/ipc_channel.rs:167-168 | that is, if each is there and none occurs twice |
| OutOfBand.LeafComesBack | src/mux/ipc_channel.rs:119-241 | each kind of handle, and a subsender, is rebuilt from its token and uses up its slot |
| OutOfBand.ValueComesBack | src/mux/demux.rs:570-618 | a message tree is rebuilt from its tokens, wherever it stands among other data |
| OutOfBand.RoundTrip | src/mux/sender/mod.rs:323-333 | whatever earlier messages left in the tables, decoding what `send` encodes gives the message back, the k-th subsender with the k-th connection; every slot and connection is used exactly once |
| Contexts.SerializationContext.Serialize | src/mux/ipc_channel.rs:119-132 | serialization in place fills the tables and empties the cells as specified |
| Contexts.DeserializationContext.Deserialize | src/mux/ipc_channel.rs:134-157 | deserialization in place takes each slot once and pairs subsenders from the front of the queue |
| ReceiverSet.SubReceiverSet.Gather | src/mux/subchannel_router/receiver_set.rs:151-189 | with one set in use, after any adds the receiver of every added channel is registered once in the current set; otherwise adding fails exactly if another set has taken the channel |
| ReceiverSet.SubReceiverSet.AddOpaque | src/mux/subchannel_router/receiver_set.rs:151-203 | an added subreceiver gets an id never used before, ids and receivers stay inverse, and its machine sends to the set from now on; a refused one keeps its sender |
| ReceiverSet.SubReceiverSet.Select | src/mux/subchannel_router/receiver_set.rs:209-251 | everything queued is reported in order under its id, after as many calls of the underlying set as it takes to have something; it fails exactly if such a call does first, with what was queued left for the next time, or if an id is missing; over all calls a closed id is reported once and nothing after it |
| ReceiverSet.OrderlyIsIdentified | src/mux/subchannel_router/receiver_set.rs:209-251 | no id is missing if items belong to subchannels with ids and nothing follows a marker |
| SetRuns.MessageMoves | src/mux/demux.rs:420-493 | whatever a demultiplexer handles, it puts into the set's queue nothing but a message or a marker for a subchannel whose machine sends there, and the marker when that machine gives its sender away |
| SetRuns.SelectNeverMisses | src/mux/subchannel_router/receiver_set.rs:190-251 | in every run of creating, adding and selecting, with any messages handled and probes run, and many machines sending to one queue, no id is missing, and a `select` fails if and only if one of its calls of the underlying set has a message handled that fails, and those before it brought nothing: a subchannel with an id sends to the set until its marker is queued, and nothing follows the marker |
| SetRuns.BatchFailsIff | src/mux/subchannel_router/select.rs:400-420 | messages that came in together are handled up to the first that fails: what those before it have queued stays, that one queues nothing, and nothing comes of those behind it |
| SetRuns.DisconnectFailsIff | src/mux/demux.rs:298-309 | that a subchannel loses its last source is a failure if and only if its subreceiver is not in the set and its machine still has its first sender |
| SetRuns.NewIsUnadded | src/mux/subchannel_router/select.rs:227-244 | so the end of a subchannel that is new fails until its subreceiver is added |
| SetRuns.AddedLate | src/mux/subchannel_router/receiver_set.rs:190-197 | a subreceiver added after its machine has closed has its end reported by the next poll |
| Router.Router.RequestRoute | src/mux/subchannel_router/mod.rs:92-118 | at any time, a request goes out with one wakeup, unless a shutdown has begun |
| Router.Router.BeginShutdown | src/mux/subchannel_router/mod.rs:182-193 | at any time, the wakeup of a shutdown goes out before its message |
| Router.PassKeepsOrder | src/mux/subchannel_router/mod.rs:361-365 | a message on a routed subchannel finds the handler registered for it |
| Router.WakeupHasRequest | src/mux/subchannel_router/mod.rs:334-341 | a wakeup finds a request, or the message of a shutdown in progress is about to come |
| Router.SelectKeepsOrder | src/mux/subchannel_router/mod.rs:320-328 | what a `select` reports is for the wakeup or for a routed subchannel with its handler on file |
| Router.Router.Grant | src/mux/subchannel_router/mod.rs:342-356 | a request that is served puts the subreceiver into the set under a new id and files its handler, unless another set has taken the channel; then only the request is gone |
| Router.Router.Turn | src/mux/subchannel_router/mod.rs:320-375 | with others asking for routes, shutting down and sending between any two results: the router stops if and only if `select` fails on a message or a shutdown is served; unless it stops, after each turn every message that had arrived on a routed subchannel when serving began has been passed to its handler, exactly once and in order; if it stops, what has been passed is the first of what arrived, and no more than before if `select` failed; and unless it stops, every request that waited when the turn began has been answered, the granted ones are routed to their handlers, and all are granted if no other set takes their channels |
| RouterRuns.HandleFeeds | src/mux/demux.rs:420-493 | what a message handled at any time puts into the queue belongs to a routed subchannel whose end is not queued, and keeps the router's messages, requests and handlers in order |
| RouterRuns.RouteFeeds | src/mux/subchannel_router/receiver_set.rs:190-203 | a route that is added is added to the set under the same id |
| RouterRuns.WakeupFeeds | src/mux/subchannel_router/mod.rs:101-108 | a wakeup can always be handled while the router listens, and is queued |
| RouterRuns.RunServesRouter | src/mux/subchannel_router/mod.rs:320-328 | in every run of a set, what a `select` has queued is what a turn of the router counts on, the turn sees just what that `select` reports, and the router ends without a shutdown if and only if a message fails first |

## Left out

- The operating system's IPC, one-shot servers, helper binaries and bootstrapping: an IPC channel is one FIFO queue that may close.
- The byte encoding of payloads, parsing and generation of UUIDs: a payload is a stream of tokens, identifiers are numbers.
- Timeouts, polling intervals, contention and lock-level interleaving: a `recv` either reads a message or finds the queue empty.
- Bytes channels, opaque and typed conversions and the thin endpoint wrappers: they have no state of their own.
- Threads, logging, tracing, error conversions and benchmarks.
- The contents of shared memory and unsafe access to it: a region is a handle.
- Detecting the crash of a process that has become a registered source: the code has no means for it. Such a source is recorded as orphaned, and the subchannel stays open.
- Reference counting of trackers: a tracker is held as long as a live copy or a demultiplexed one is.
- `MultiReceiverSet::select` as far as the operating system is concerned: which messages come together, how long it waits, and errors of its own; channels of a set that close.
- Handing a route that could not be added: the router acknowledges it all the same, and no message is then promised to its handler.
- `SubChannelReceiver::try_recv` and its timed form: they make the same steps as `recv`, at most once.
- Dedup.LookupsNeverFail: speaks of runs in which each `send` that begins goes through, uses its source alone, and can be read by its target; what one exception does is stated by Dedup.AbortHarmlessIff, Dedup.ConcurrentTellIff and Dedup.FailureForgets, not for runs with several.
- Dedup.EmbedKeeps: speaks of a source that no other `send` in progress uses; Dedup.ConcurrentTellIff says what another does to it.
- Dedup.ReadKeeps: speaks of a message whose senders can be connected to; Dedup.FailureForgets says what comes of another.
- Demultiplexer.Demuxer.Handle: does not model the weak table of trackers, whose entries `System` counts; what a handled message drops is returned.
- Sender.SubChannelSender.Send: begins after serialization, which OutOfBand and Contexts model.
- Receiver.SubChannelReceiver.Recv: returns when there is nothing to read, where the library polls and goes on waiting, and ends with the message as it was demultiplexed; whether it can be rebuilt is in Delivery.RecvGood.
- Contexts.DeserializationContext.Deserialize: reports every arrival, and so never stops halfway; a report that fails, and what it does to the rest of the message, is in Delivery.RecvGood and Histories.RecvLosesNothingIff.
- OutOfBand.RoundTrip: supposes likewise that arrivals can be reported.
- Router.Router.Turn: other threads act before each result that is served, not while one is being served.
