/**
 What the demultiplexer of an IPC channel does with a message once the references to IPC
 senders inside it are resolved (`Demuxer::handle` and `Demuxer::send` in `src/mux/demux.rs`).
 */
module Demux {
  import opened Basics
  import opened Protocol
  import opened SubchannelLifecycle

  /** The sending end of a local queue, named by the queue. */
  type Tx = nat

  type SM<R> = Machine<Tx, Source, SubChannelId, Probe<R>>

  /** What a local queue holds (`ResolvedMessageOrDisconnect`). */
  datatype Item<+R> =
    | Resolved(scid: SubChannelId, payload: Payload, senders: seq<Embed<R>>)
    | Marker(scid: SubChannelId)

  /** `local` are the local queues; those in `hungUp` have lost their receiving end. */
  datatype Tables<R> = Tables(
    subChannels: map<SubChannelId, SM<R>>,
    local: map<Tx, seq<Item<R>>>,
    hungUp: set<Tx>)
  {
    predicate Accepts(tx: Tx) {
      tx in local && tx !in hungUp
    }

    function Push(tx: Tx, item: Item<R>): Tables<R>
      requires Accepts(tx)
    {
      this.(local := local[tx := local[tx] + [item]])
    }

    function Update(scid: SubChannelId, m: SM<R>): Tables<R> {
      this.(subChannels := subChannels[scid := m])
    }
  }

  lemma UpdateTwice<R>(d: Tables<R>, scid: SubChannelId, m: SM<R>, m': SM<R>)
    ensures d.Update(scid, m).Update(scid, m') == d.Update(scid, m')
  {
  }

  /** A notification that a subsender of `scid` inside a message for `via` was not received. */
  datatype Failure<R> = Failure(to: R, scid: SubChannelId, via: SubChannelId)

  /**
   `out` are the notifications sent in return; `dropped` are the subsenders that were inside a
   message nobody will receive.
   */
  datatype Handled<R> = Handled(
    tables: Tables<R>,
    result: Result<()>,
    out: seq<Failure<R>>,
    dropped: seq<Embed<R>>)

  function Silent<R>(d: Tables<R>, result: Result<()>): Handled<R> {
    Handled(d, result, [], [])
  }

  function Failures<R>(senders: seq<Embed<R>>, via: SubChannelId): seq<Failure<R>> {
    seq(|senders|, i requires 0 <= i < |senders| => Failure(senders[i].sender, senders[i].scid, via))
  }

  /** The machine moved on and may have handed its sender out, to put the marker into its queue. */
  function Finish<R>(d: Tables<R>, scid: SubChannelId, next: (SM<R>, Option<Tx>)): Handled<R> {
    var d' := d.Update(scid, next.0);
    match next.1
    case None => Silent(d', Ok(()))
    case Some(tx) =>
      if d'.Accepts(tx) then Silent(d'.Push(tx, Marker(scid)), Ok(())) else Silent(d', Err(Disconnected))
  }

  /**
   A data message. `strict` distinguishes `handle`, which reports a hung-up local queue, from
   `send`, which drops the message.
   */
  function ActData<R>(d: Tables<R>, scid: SubChannelId, payload: Payload, senders: seq<Embed<R>>,
                      strict: bool): Handled<R> {
    if scid !in d.subChannels then
      Handled(d, Err(if strict then InternalError else Disconnected), Failures(senders, scid), senders)
    else
      match d.subChannels[scid].maybe
      case None => Handled(d, Err(Disconnected), [], senders)
      case Some(tx) =>
        if d.Accepts(tx) then Silent(d.Push(tx, Resolved(scid, payload, senders)), Ok(()))
        else Handled(d, if strict then Err(Disconnected) else Ok(()), [], senders)
  }

  /** A copy whose carrier cannot be reached is taken for lost at once. */
  function Refused<R>(d: Tables<R>, scid: SubChannelId, via: SubChannelId): Handled<R> {
    if scid !in d.subChannels then Silent(d, Ok(()))
    else Finish(d, scid, d.subChannels[scid].Refuse(via, AlwaysFailing))
  }

  function ActToBeSent<R>(d: Tables<R>, scid: SubChannelId, via: SubChannelId, probe: Probe<R>): Tables<R> {
    if scid !in d.subChannels then d else d.Update(scid, d.subChannels[scid].ToBeSent(via, probe))
  }

  function ActReceived<R>(d: Tables<R>, scid: SubChannelId, via: SubChannelId, newSource: Source): Tables<R> {
    if scid !in d.subChannels then d else d.Update(scid, d.subChannels[scid].Received(via, newSource))
  }

  function ActReceiveFailed<R>(d: Tables<R>, scid: SubChannelId, via: SubChannelId): Handled<R> {
    if scid !in d.subChannels then Silent(d, Ok(())) else Finish(d, scid, d.subChannels[scid].ReceiveFailed(via))
  }

  function ActDisconnect<R>(d: Tables<R>, scid: SubChannelId, source: Source): Handled<R> {
    if scid !in d.subChannels then Silent(d, Ok(())) else Finish(d, scid, d.subChannels[scid].Disconnect(source))
  }

  /** A message whose references are resolved. */
  function Act<R>(d: Tables<R>, msg: MultiMessage<R>, strict: bool): Handled<R> {
    match msg
    case Connect(_) => Silent(d, Ok(()))
    case Data(scid, payload, senders) => ActData(d, scid, payload, senders, strict)
    case SubChannelName(_) => Silent(d, Err(InternalError))
    case Sending(scid, via, viaChan) => Silent(ActToBeSent(d, scid, via, OnResponses(viaChan)), Ok(()))
    case SendingViaIpcChannel(scid, n) => Silent(ActToBeSent(d, scid, EMPTY_SUBCHANNEL_ID, OnKeepalive(n)), Ok(()))
    case Received(scid, via, newSource) => Silent(ActReceived(d, scid, via, newSource), Ok(()))
    case ReceiveFailed(scid, via) => ActReceiveFailed(d, scid, via)
    case Disconnect(scid, source) => ActDisconnect(d, scid, source)
  }
}
