/**
 Identifiers and messages of the multiplexing protocol.

 Identifiers that the implementation draws at random are numbers here; where two of them
 must differ they are different constructors, so that freshness is not an extra assumption.
 */
module Protocol {

  /** An IPC channel: one FIFO queue with one receiving end. */
  type Chan = nat

  type SubChannelId = nat

  type Uuid = nat

  type ClientId = nat

  type Payload = nat

  /** The key under which every transport over a raw IPC channel is counted. */
  const EMPTY_SUBCHANNEL_ID: SubChannelId := 0x1111_1111_10b1_428f_9447_cb68_0e5f_e0c8

  /**
   Where copies of a subsender live: in the process that created the subchannel, behind the
   receiver of an IPC channel, or rebuilt from the n-th transport over a raw IPC channel.
   */
  datatype Source = Origin | Receiver(chan: Chan) | Transport(n: nat)

  /** A subsender inside a message: its subchannel and a reference to its IPC sender. */
  datatype Embed<+R> = Embed(scid: SubChannelId, sender: R)

  /**
   Messages of the forward channel. `R` is how a message refers to an IPC sender: by value or
   by identifier on the wire, and as an endpoint once the demultiplexer has resolved it.
   */
  datatype MultiMessage<+R> =
    | Connect(client: ClientId)
    | Data(scid: SubChannelId, payload: Payload, senders: seq<Embed<R>>)
    | SubChannelName(scid: SubChannelId)
    | Sending(scid: SubChannelId, via: SubChannelId, viaChan: R)
    | ReceiveFailed(scid: SubChannelId, via: SubChannelId)
    | Received(scid: SubChannelId, via: SubChannelId, newSource: Source)
    | Disconnect(scid: SubChannelId, source: Source)
    | SendingViaIpcChannel(scid: SubChannelId, keepalive: nat)

  /**
   How the state machine checks that a carrier is alive: through the response channel that
   belongs to the carrier's IPC sender, through the keepalive end of a transport, or not at all.
   */
  datatype Probe<+R> = OnResponses(viaChan: R) | OnKeepalive(n: nat) | AlwaysFailing
}
