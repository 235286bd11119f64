/**
 What the demultiplexer does with a message read off the wire: it resolves the references to IPC
 senders inside and then acts as module `Demux` says (`Demuxer` in `src/mux/demux.rs`).
 */
module Wire {
  import opened Basics
  import opened Protocol
  import opened SubchannelLifecycle
  import opened Demux
  import SenderId

  /** A reference on the wire: a sender with its identifier, or the identifier alone (`IpcSenderAndOrId`). */
  datatype Ref = Full(chan: Chan, uuid: Uuid) | ById(uuid: Uuid)

  /** A connection to a channel with its own response channel (`MultiSender`). */
  datatype Endpoint = Endpoint(chan: Chan, uuid: Uuid, client: ClientId)

  /** The reference for a connection: what has been sent before is named by its identifier alone. */
  function RefFor(sent: set<Endpoint>, ep: Endpoint): Ref {
    if ep in sent then ById(ep.uuid) else Full(ep.chan, ep.uuid)
  }

  type WireMessage = MultiMessage<Ref>

  /** References that travel in one message, in the order in which they are resolved. */
  type Packet = seq<Embed<Ref>>

  function PacketOf(msg: WireMessage): Packet {
    match msg
    case Data(_, _, senders) => senders
    case Sending(_, via, viaChan) => [Embed(via, viaChan)]
    case _ => []
  }

  /** A message sent to a channel. */
  datatype Mail = Mail(to: Chan, msg: WireMessage)

  /** `supply` is the next client identifier the demultiplexer will draw. */
  datatype State = State(
    tables: Tables<Endpoint>,
    target: map<Uuid, Endpoint>,
    clients: set<ClientId>,
    supply: ClientId)

  function SetLocal(st: State, c: SubChannelId, items: seq<Item<Endpoint>>): State {
    st.(tables := st.tables.(local := st.tables.local[c := items]))
  }

  lemma SetLocalTwice(st: State, c: SubChannelId, items: seq<Item<Endpoint>>, items': seq<Item<Endpoint>>)
    ensures SetLocal(SetLocal(st, c, items), c, items') == SetLocal(st, c, items')
  {
  }

  lemma SetLocalSame(st: State, c: SubChannelId)
    requires c in st.tables.local
    ensures SetLocal(st, c, st.tables.local[c]) == st
  {
  }

  /** The receiver's end of the local queue of `c` is gone, with what is left in it. */
  function HangUp(st: State, c: SubChannelId): State {
    st.(tables := st.tables.(local := st.tables.local[c := []], hungUp := st.tables.hungUp + {c}))
  }

  lemma HangUpAnyway(st: State, c: SubChannelId, items: seq<Item<Endpoint>>)
    ensures HangUp(SetLocal(st, c, items), c) == HangUp(st, c)
  {
  }

  datatype Lookup = Lookup(st: State, out: seq<Mail>, result: Result<Endpoint>)

  /** A sender is connected to; an identifier is looked up. Sending to one of `closed` fails. */
  function Resolve(closed: set<Chan>, st: State, ref: Ref): Lookup {
    match ref
    case Full(ch, id) =>
      if ch in closed then Lookup(st, [], Err(IpcError))
      else
        var ep := Endpoint(ch, id, st.supply);
        Lookup(st.(target := SenderId.Associate(st.target, id, ep), supply := st.supply + 1),
               [Mail(ch, Connect(st.supply))], Ok(ep))
    case ById(id) =>
      Lookup(st, [], if id in st.target then Ok(st.target[id]) else Err(Disconnected))
  }

  /** The references of a data message, up to the first that cannot be resolved. */
  datatype Lookups = Lookups(st: State, out: seq<Mail>, embeds: seq<Embed<Endpoint>>, error: Option<MuxError>)

  function ResolveAll(closed: set<Chan>, st: State, senders: seq<Embed<Ref>>): Lookups {
    if senders == [] then Lookups(st, [], [], None)
    else
      var n := |senders| - 1;
      ResolveNext(closed, ResolveAll(closed, st, senders[..n]), senders[n])
  }

  function ResolveNext(closed: set<Chan>, done: Lookups, e: Embed<Ref>): Lookups {
    if done.error.Some? then done
    else
      var l := Resolve(closed, done.st, e.sender);
      match l.result
      case Err(error) => Lookups(l.st, done.out + l.out, done.embeds, Some(error))
      case Ok(ep) => Lookups(l.st, done.out + l.out, done.embeds + [Embed(e.scid, ep)], None)
  }

  /** The identifiers that come with their senders. */
  function Fulls(p: Packet): set<Uuid> {
    if p == [] then {}
    else
      var n := |p| - 1;
      Fulls(p[..n]) + if p[n].sender.Full? then {p[n].sender.uuid} else {}
  }

  /** A sender can be connected to unless its channel is closed; an identifier must be known. */
  predicate Resolvable(closed: set<Chan>, known: set<Uuid>, e: Embed<Ref>) {
    match e.sender
    case Full(ch, _) => ch !in closed
    case ById(id) => id in known
  }

  /** The first reference that cannot be resolved by a target that knows `known`. */
  function FirstBroken(closed: set<Chan>, known: set<Uuid>, p: Packet): (i: Option<nat>)
    ensures i.Some? ==> i.value < |p|
  {
    if p == [] then None
    else
      var n := |p| - 1;
      var i := FirstBroken(closed, known, p[..n]);
      if i.Some? || Resolvable(closed, known + Fulls(p[..n]), p[n]) then i else Some(n)
  }

  /** References are resolved up to the first that cannot be, and no further. */
  lemma {:induction false} ResolvesUpTo(closed: set<Chan>, st: State, p: Packet)
    ensures var l, i := ResolveAll(closed, st, p), FirstBroken(closed, st.target.Keys, p);
            && (l.error.Some? <==> i.Some?)
            && |l.embeds| == (if i.Some? then i.value else |p|)
            && l.st.target.Keys == st.target.Keys + Fulls(p[..|l.embeds|]) && l.st.tables == st.tables
  {
    if p != [] {
      var n := |p| - 1;
      ResolvesUpTo(closed, st, p[..n]);
      assert p[..n][..n] == p[..n];
      var l := ResolveAll(closed, st, p[..n]);
      if l.error.None? {
        assert p[..n + 1] == p && p[..n + 1][..n] == p[..n];
      } else {
        assert p[..|l.embeds|] == p[..n][..|l.embeds|];
      }
    } else {
      assert p[..0] == [];
    }
  }

  /** `dropped` are subsenders that nobody will receive. */
  datatype Step = Step(st: State, result: Result<()>, out: seq<Mail>, dropped: seq<Embed<Endpoint>>)

  function Posted(out: seq<Failure<Endpoint>>): seq<Mail> {
    seq(|out|, i requires 0 <= i < |out| => Mail(out[i].to.chan, ReceiveFailed(out[i].scid, out[i].via)))
  }

  function Acted(st: State, out: seq<Mail>, h: Handled<Endpoint>): Step {
    Step(st.(tables := h.tables), h.result, out + Posted(h.out), h.dropped)
  }

  /** The same message among resolved ones, if it refers to no IPC sender. */
  function Plain(msg: WireMessage): MultiMessage<Endpoint>
    requires !msg.Data? && !msg.Sending?
  {
    match msg
    case Connect(client) => MultiMessage<Endpoint>.Connect(client)
    case SubChannelName(scid) => MultiMessage<Endpoint>.SubChannelName(scid)
    case ReceiveFailed(scid, via) => MultiMessage<Endpoint>.ReceiveFailed(scid, via)
    case Received(scid, via, source) => MultiMessage<Endpoint>.Received(scid, via, source)
    case Disconnect(scid, source) => MultiMessage<Endpoint>.Disconnect(scid, source)
    case SendingViaIpcChannel(scid, n) => MultiMessage<Endpoint>.SendingViaIpcChannel(scid, n)
  }

  function OnData(closed: set<Chan>, st: State, scid: SubChannelId, payload: Payload, senders: seq<Embed<Ref>>,
                      strict: bool): Step
  {
    var l := ResolveAll(closed, st, senders);
    match l.error
    case Some(error) => Step(l.st, Err(error), l.out, l.embeds)
    case None => Acted(l.st, l.out, ActData(l.st.tables, scid, payload, l.embeds, strict))
  }

  function OnSending(closed: set<Chan>, st: State, scid: SubChannelId, via: SubChannelId, viaChan: Ref): Step {
    var l := Resolve(closed, st, viaChan);
    Acted(l.st, l.out,
          match l.result
          case Ok(ep) => Act(l.st.tables, MultiMessage<Endpoint>.Sending(scid, via, ep), true)
          case Err(_) => Refused(l.st.tables, scid, via))
  }

  function OnMessage(closed: set<Chan>, st: State, msg: WireMessage, strict: bool): Step {
    match msg
    case Connect(client) => Step(st.(clients := st.clients + {client}), Ok(()), [], [])
    case Data(scid, payload, senders) => OnData(closed, st, scid, payload, senders, strict)
    case Sending(scid, via, viaChan) => OnSending(closed, st, scid, via, viaChan)
    case _ => Acted(st, [], Act(st.tables, Plain(msg), strict))
  }

  /** The mail that reaches an open channel. */
  function Open(closed: set<Chan>, mail: seq<Mail>): seq<Mail> {
    if mail == [] then []
    else
      var n := |mail| - 1;
      Open(closed, mail[..n]) + if mail[n].to in closed then [] else [mail[n]]
  }

  lemma NoneOpen(closed: set<Chan>, mail: seq<Mail>)
    ensures Open(closed, mail[..0]) == []
  {
  }

  lemma OpenNext(closed: set<Chan>, mail: seq<Mail>, i: nat)
    requires i < |mail|
    ensures Open(closed, mail[..i + 1]) == Open(closed, mail[..i]) + if mail[i].to in closed then [] else [mail[i]]
  {
    assert mail[..i + 1][..i] == mail[..i];
  }

  lemma {:induction false} OpenConcat(closed: set<Chan>, a: seq<Mail>, b: seq<Mail>)
    ensures Open(closed, a + b) == Open(closed, a) + Open(closed, b)
  {
    if b == [] {
      assert a + b == a;
    } else {
      var n := |b| - 1;
      OpenConcat(closed, a, b[..n]);
      assert (a + b)[..|a + b| - 1] == a + b[..n];
    }
  }

  /** Connections are only announced to open channels. */
  lemma ResolveOpen(closed: set<Chan>, st: State, ref: Ref)
    ensures Open(closed, Resolve(closed, st, ref).out) == Resolve(closed, st, ref).out
  {
  }

  lemma {:induction false} AllOpen(closed: set<Chan>, st: State, senders: seq<Embed<Ref>>)
    ensures Open(closed, ResolveAll(closed, st, senders).out) == ResolveAll(closed, st, senders).out
  {
    if senders != [] {
      var n := |senders| - 1;
      var done := ResolveAll(closed, st, senders[..n]);
      AllOpen(closed, st, senders[..n]);
      if done.error.None? {
        ResolveOpen(closed, done.st, senders[n].sender);
        OpenConcat(closed, done.out, Resolve(closed, done.st, senders[n].sender).out);
      }
    }
  }

  lemma OnSendingOpen(closed: set<Chan>, st: State, scid: SubChannelId, via: SubChannelId, viaChan: Ref)
    ensures Open(closed, OnSending(closed, st, scid, via, viaChan).out) == OnSending(closed, st, scid, via, viaChan).out
  {
  }

  lemma OnDataOpen(closed: set<Chan>, st: State, scid: SubChannelId, payload: Payload, senders: seq<Embed<Ref>>,
                   strict: bool)
    ensures var l := ResolveAll(closed, st, senders);
            Open(closed, OnData(closed, st, scid, payload, senders, strict).out)
            == l.out + if l.error.Some? then []
                       else Open(closed, Posted(ActData(l.st.tables, scid, payload, l.embeds, strict).out))
  {
    var l := ResolveAll(closed, st, senders);
    AllOpen(closed, st, senders);
    OpenConcat(closed, l.out, Posted(ActData(l.st.tables, scid, payload, l.embeds, strict).out));
  }

  /** Nothing is resolved after an error. */
  lemma {:induction false} ResolveStops(closed: set<Chan>, st: State, senders: seq<Embed<Ref>>, i: nat)
    requires i <= |senders| && ResolveAll(closed, st, senders[..i]).error.Some?
    ensures ResolveAll(closed, st, senders) == ResolveAll(closed, st, senders[..i])
    decreases |senders| - i
  {
    if i == |senders| {
      assert senders[..i] == senders;
    } else {
      assert senders[..i + 1][..i] == senders[..i];
      ResolveStops(closed, st, senders, i + 1);
    }
  }

  lemma FailuresNone(closed: set<Chan>, via: SubChannelId)
    ensures Open(closed, Posted(Failures([], via))) == []
  {
  }

  lemma FailuresConcat(closed: set<Chan>, a: seq<Embed<Endpoint>>, b: seq<Embed<Endpoint>>, via: SubChannelId)
    ensures Open(closed, Posted(Failures(a + b, via)))
            == Open(closed, Posted(Failures(a, via))) + Open(closed, Posted(Failures(b, via)))
  {
    OpenConcat(closed, Posted(Failures(a, via)), Posted(Failures(b, via)));
    assert Posted(Failures(a + b, via)) == Posted(Failures(a, via)) + Posted(Failures(b, via));
  }

  /** The subsenders in the data messages of a local queue, up to the first marker. */
  function Flushed(items: seq<Item<Endpoint>>): seq<Embed<Endpoint>> {
    if items == [] || items[0].Marker? then [] else items[0].senders + Flushed(items[1..])
  }
}
