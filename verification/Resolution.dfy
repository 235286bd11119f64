/**
 What happens on the wire is what module `System` describes: once connections are replaced by the
 channels they lead to, a message is handled as if it named those channels, up to the first
 reference that cannot be resolved.
 */
module Resolution {
  import opened Basics
  import opened Protocol
  import opened SubchannelLifecycle
  import opened Demux
  import opened Wire
  import opened Dedup

  function ProbeChan(p: Probe<Endpoint>): Probe<Chan> {
    match p
    case OnResponses(ep) => OnResponses(ep.chan)
    case OnKeepalive(n) => OnKeepalive(n)
    case AlwaysFailing => AlwaysFailing
  }

  function MachineChans(m: SM<Endpoint>): SM<Chan> {
    Machine(m.maybe, m.sources, m.inFlight, map v | v in m.probes :: ProbeChan(m.probes[v]))
  }

  function EmbedChans(senders: seq<Embed<Endpoint>>): seq<Embed<Chan>> {
    seq(|senders|, i requires 0 <= i < |senders| => Protocol.Embed(senders[i].scid, senders[i].sender.chan))
  }

  function ItemChans(item: Item<Endpoint>): Item<Chan> {
    match item
    case Resolved(scid, payload, senders) => Item<Chan>.Resolved(scid, payload, EmbedChans(senders))
    case Marker(scid) => Item<Chan>.Marker(scid)
  }

  function ItemsChans(items: seq<Item<Endpoint>>): seq<Item<Chan>> {
    seq(|items|, i requires 0 <= i < |items| => ItemChans(items[i]))
  }

  function TablesChans(d: Tables<Endpoint>): Tables<Chan> {
    Demux.Tables(map c | c in d.subChannels :: MachineChans(d.subChannels[c]),
                 map tx | tx in d.local :: ItemsChans(d.local[tx]),
                 d.hungUp)
  }

  /** The message with every connection replaced by its channel. */
  function MessageChans(msg: MultiMessage<Endpoint>): MultiMessage<Chan> {
    match msg
    case Connect(client) => MultiMessage<Chan>.Connect(client)
    case Data(scid, payload, senders) => MultiMessage<Chan>.Data(scid, payload, EmbedChans(senders))
    case SubChannelName(scid) => MultiMessage<Chan>.SubChannelName(scid)
    case Sending(scid, via, viaChan) => MultiMessage<Chan>.Sending(scid, via, viaChan.chan)
    case ReceiveFailed(scid, via) => MultiMessage<Chan>.ReceiveFailed(scid, via)
    case Received(scid, via, source) => MultiMessage<Chan>.Received(scid, via, source)
    case Disconnect(scid, source) => MultiMessage<Chan>.Disconnect(scid, source)
    case SendingViaIpcChannel(scid, n) => MultiMessage<Chan>.SendingViaIpcChannel(scid, n)
  }

  /** Two ways of handling a message come to the same, up to replacing connections. */
  predicate Agrees(h: Handled<Endpoint>, g: Handled<Chan>) {
    TablesChans(h.tables) == g.tables && h.result == g.result && EmbedChans(h.dropped) == g.dropped
  }

  lemma PushAgrees(d: Tables<Endpoint>, tx: Tx, item: Item<Endpoint>)
    requires d.Accepts(tx)
    ensures TablesChans(d).Accepts(tx) && TablesChans(d.Push(tx, item)) == TablesChans(d).Push(tx, ItemChans(item))
  {
    assert ItemsChans(d.local[tx] + [item]) == ItemsChans(d.local[tx]) + [ItemChans(item)];
  }

  lemma UpdateAgrees(d: Tables<Endpoint>, c: SubChannelId, m: SM<Endpoint>)
    ensures TablesChans(d.Update(c, m)) == TablesChans(d).Update(c, MachineChans(m))
  {
  }

  lemma FinishAgrees(d: Tables<Endpoint>, c: SubChannelId, next: (SM<Endpoint>, Option<Tx>))
    ensures Agrees(Finish(d, c, next), Finish(TablesChans(d), c, (MachineChans(next.0), next.1)))
  {
    UpdateAgrees(d, c, next.0);
    var d' := d.Update(c, next.0);
    if next.1.Some? && d'.Accepts(next.1.value) {
      PushAgrees(d', next.1.value, Item<Endpoint>.Marker(c));
    }
  }

  lemma DataAgrees(d: Tables<Endpoint>, c: SubChannelId, payload: Payload, senders: seq<Embed<Endpoint>>, strict: bool)
    ensures Agrees(ActData(d, c, payload, senders, strict),
                   ActData(TablesChans(d), c, payload, EmbedChans(senders), strict))
  {
    if c in d.subChannels && d.subChannels[c].maybe.Some? && d.Accepts(d.subChannels[c].maybe.value) {
      PushAgrees(d, d.subChannels[c].maybe.value, Item<Endpoint>.Resolved(c, payload, senders));
    }
  }

  lemma ToBeSentAgrees(m: SM<Endpoint>, via: SubChannelId, probe: Probe<Endpoint>)
    ensures MachineChans(m.ToBeSent(via, probe)) == MachineChans(m).ToBeSent(via, ProbeChan(probe))
  {
  }

  lemma ReceivedAgrees(m: SM<Endpoint>, via: SubChannelId, source: Source)
    ensures MachineChans(m.Received(via, source)) == MachineChans(m).Received(via, source)
  {
  }

  lemma HandOutAgrees(m: SM<Endpoint>, via: SubChannelId, source: Source)
    ensures MachineChans(m.ReceiveFailed(via).0) == MachineChans(m).ReceiveFailed(via).0
    ensures MachineChans(m.Disconnect(source).0) == MachineChans(m).Disconnect(source).0
  {
  }

  lemma ActAgrees(d: Tables<Endpoint>, msg: MultiMessage<Endpoint>, strict: bool)
    ensures Agrees(Act(d, msg, strict), Act(TablesChans(d), MessageChans(msg), strict))
  {
    match msg
    case Connect(_) =>
    case SubChannelName(_) =>
    case Data(c, payload, senders) => DataAgrees(d, c, payload, senders, strict);
    case Sending(c, via, ep) =>
      if c in d.subChannels {
        ToBeSentAgrees(d.subChannels[c], via, OnResponses(ep));
        UpdateAgrees(d, c, d.subChannels[c].ToBeSent(via, OnResponses(ep)));
      }
    case SendingViaIpcChannel(c, n) =>
      if c in d.subChannels {
        ToBeSentAgrees(d.subChannels[c], EMPTY_SUBCHANNEL_ID, OnKeepalive(n));
        UpdateAgrees(d, c, d.subChannels[c].ToBeSent(EMPTY_SUBCHANNEL_ID, OnKeepalive(n)));
      }
    case Received(c, via, source) =>
      if c in d.subChannels {
        ReceivedAgrees(d.subChannels[c], via, source);
        UpdateAgrees(d, c, d.subChannels[c].Received(via, source));
      }
    case ReceiveFailed(c, via) =>
      if c in d.subChannels {
        HandOutAgrees(d.subChannels[c], via, Origin);
        FinishAgrees(d, c, d.subChannels[c].ReceiveFailed(via));
      }
    case Disconnect(c, source) =>
      if c in d.subChannels {
        HandOutAgrees(d.subChannels[c], c, source);
        FinishAgrees(d, c, d.subChannels[c].Disconnect(source));
      }
  }

  // ---------------------------------------------------------------------------------------
  // Messages on the wire
  // ---------------------------------------------------------------------------------------

  /** The message as `System` has it: it names the channels that its references stand for. */
  function Naming(home: Homes, msg: WireMessage): MultiMessage<Chan>
    requires forall i | 0 <= i < |PacketOf(msg)| :: PacketOf(msg)[i].scid in home
  {
    match msg
    case Data(scid, payload, senders) =>
      MultiMessage<Chan>.Data(scid, payload,
        seq(|senders|, i requires 0 <= i < |senders| =>
          assert senders[i] == PacketOf(msg)[i]; Protocol.Embed(senders[i].scid, home[senders[i].scid])))
    case Sending(scid, via, viaChan) =>
      assert PacketOf(msg)[0].scid == via;
      MultiMessage<Chan>.Sending(scid, via, home[via])
    case _ => MessageChans(Plain(msg))
  }

  predicate WireStep(names: Names, home: Homes, st: State, msg: WireMessage, s: Step, h: Handled<Chan>) {
    && TablesChans(s.st.tables) == h.tables && s.result == h.result && EmbedChans(s.dropped) == h.dropped
    && TargetOk(names, s.st.target) && s.st.target.Keys == st.target.Keys + Fulls(PacketOf(msg))
  }

  /**
   Each reference can be resolved exactly if identifiers come after their senders and none leads to a
   closed channel.
   */
  lemma {:induction false} UnbrokenIff(closed: set<Chan>, known: set<Uuid>, p: Packet)
    ensures FirstBroken(closed, known, p).None? <==> CoherentPacket(known, p) && Reachable(closed, p)
  {
    if p != [] {
      var n := |p| - 1;
      UnbrokenIff(closed, known, p[..n]);
      assert forall i | 0 <= i < n :: p[..n][i] == p[i];
      assert Reachable(closed, p) <==> Reachable(closed, p[..n]) && (p[n].sender.Full? ==> p[n].sender.chan !in closed);
    }
  }

  /** What comes before the first reference that cannot be resolved can be. */
  lemma {:induction false} UnbrokenBefore(closed: set<Chan>, known: set<Uuid>, p: Packet)
    requires FirstBroken(closed, known, p).Some?
    ensures FirstBroken(closed, known, p[..FirstBroken(closed, known, p).value]).None?
    ensures FirstBroken(closed, known, p[..FirstBroken(closed, known, p).value + 1]).Some?
  {
    var n := |p| - 1;
    var i := FirstBroken(closed, known, p).value;
    if FirstBroken(closed, known, p[..n]).Some? {
      UnbrokenBefore(closed, known, p[..n]);
      assert p[..n][..i] == p[..i] && p[..n][..i + 1] == p[..i + 1];
    } else {
      assert p[..n + 1] == p;
    }
  }

  lemma DataOnWire(closed: set<Chan>, st: State, msg: WireMessage, names: Names, home: Homes)
    requires msg.Data? && FirstBroken(closed, st.target.Keys, msg.senders).None?
    requires TruthfulPacket(names, home, msg.senders) && TargetOk(names, st.target)
    ensures forall i | 0 <= i < |PacketOf(msg)| :: PacketOf(msg)[i].scid in home
    ensures WireStep(names, home, st, msg, OnMessage(closed, st, msg, true),
                     Act(TablesChans(st.tables), Naming(home, msg), true))
  {
    var senders := msg.senders;
    assert forall i | 0 <= i < |senders| :: Truthful(names, home, senders[i]);
    UnbrokenIff(closed, st.target.Keys, senders);
    PacketResolves(closed, st, senders, names, home);
    var l := ResolveAll(closed, st, senders);
    assert EmbedChans(l.embeds) == Naming(home, msg).senders;
    DataAgrees(st.tables, msg.scid, msg.payload, l.embeds, true);
    hide ActData, TablesChans, EmbedChans, ResolveAll, Arrived, TargetOk, Fulls, Truthful;
  }

  lemma SendingOnWire(closed: set<Chan>, st: State, msg: WireMessage, names: Names, home: Homes)
    requires msg.Sending? && Truthful(names, home, Protocol.Embed(msg.via, msg.viaChan)) && TargetOk(names, st.target)
    requires if msg.viaChan.ById? then msg.viaChan.uuid in st.target else msg.viaChan.chan !in closed
    ensures forall i | 0 <= i < |PacketOf(msg)| :: PacketOf(msg)[i].scid in home
    ensures WireStep(names, home, st, msg, OnMessage(closed, st, msg, true),
                     Act(TablesChans(st.tables), Naming(home, msg), true))
  {
    var e := Protocol.Embed(msg.via, msg.viaChan);
    PacketNext(st.target.Keys, [], e);
    assert [] + [e] == [e];
    ReferenceResolves(closed, st, e, names, home);
    var l := Resolve(closed, st, msg.viaChan);
    ActAgrees(st.tables, MultiMessage<Endpoint>.Sending(msg.scid, msg.via, l.result.value), true);
    hide Act, TablesChans, TargetOk, Fulls, Truthful;
  }

  /** The references before the first that cannot be resolved are resolved. */
  lemma LostResolves(closed: set<Chan>, st: State, p: Packet, names: Names, home: Homes, i: nat)
    requires FirstBroken(closed, st.target.Keys, p) == Some(i)
    requires TruthfulPacket(names, home, p) && TargetOk(names, st.target)
    ensures var l, before := ResolveAll(closed, st, p), ResolveAll(closed, st, p[..i]);
            && Resolves(names, home, st, p[..i], before)
            && l.embeds == before.embeds && l.error.Some? && l.st.tables == st.tables && l.st.target == before.st.target
  {
    UnbrokenBefore(closed, st.target.Keys, p);
    UnbrokenIff(closed, st.target.Keys, p[..i]);
    PacketResolves(closed, st, p[..i], names, home);
    ResolvesUpTo(closed, st, p[..i + 1]);
    assert p[..i + 1][..i] == p[..i];
    ResolveStops(closed, st, p, i + 1);
    assert ResolveAll(closed, st, p) == ResolveNext(closed, ResolveAll(closed, st, p[..i]), p[i]);
    hide ResolveAll, Resolves, FirstBroken, TruthfulPacket;
    assert ResolveAll(closed, st, p[..i]).st.tables == st.tables by {
      ResolvesUpTo(closed, st, p[..i]);
    }
  }

  /** A data message is lost: the tables stay, and what had been resolved is dropped. */
  lemma LostOnWire(closed: set<Chan>, st: State, msg: WireMessage, names: Names, home: Homes, i: nat)
    requires msg.Data? && FirstBroken(closed, st.target.Keys, msg.senders) == Some(i)
    requires TruthfulPacket(names, home, msg.senders) && TargetOk(names, st.target)
    ensures forall j | 0 <= j < |PacketOf(msg)| :: PacketOf(msg)[j].scid in home
    ensures var s := OnMessage(closed, st, msg, true);
            && s.st.tables == st.tables && s.result.Err? && TargetOk(names, s.st.target)
            && EmbedChans(s.dropped) == Naming(home, msg).senders[..i]
  {
    assert forall j | 0 <= j < |msg.senders| :: Truthful(names, home, msg.senders[j]);
    LostResolves(closed, st, msg.senders, names, home, i);
    hide ResolveAll, FirstBroken, Truthful, TargetOk, Fulls;
    assert EmbedChans(ResolveAll(closed, st, msg.senders).embeds) == Naming(home, msg).senders[..i];
  }

  /** An announcement is not recorded. */
  lemma RefusedOnWire(closed: set<Chan>, st: State, msg: WireMessage)
    requires msg.Sending? && !Resolvable(closed, st.target.Keys, Protocol.Embed(msg.via, msg.viaChan))
    ensures var s, h := OnMessage(closed, st, msg, true), Refused(TablesChans(st.tables), msg.scid, msg.via);
            && TablesChans(s.st.tables) == h.tables && s.result == h.result && s.st.target == st.target
            && s.dropped == []
  {
    RefusedAgrees(st.tables, msg.scid, msg.via);
    RefusedQuiet(st.tables, msg.scid, msg.via);
    hide Refused, TablesChans;
  }

  lemma RefuseAgrees(m: SM<Endpoint>, via: SubChannelId)
    ensures MachineChans(m.Refuse(via, AlwaysFailing).0) == MachineChans(m).Refuse(via, AlwaysFailing).0
    ensures m.Refuse(via, AlwaysFailing).1 == MachineChans(m).Refuse(via, AlwaysFailing).1
  {
    ToBeSentAgrees(m, via, AlwaysFailing);
    HandOutAgrees(m.ToBeSent(via, AlwaysFailing), via, Origin);
  }

  lemma RefusedAgrees(d: Tables<Endpoint>, c: SubChannelId, via: SubChannelId)
    ensures Agrees(Refused(d, c, via), Refused(TablesChans(d), c, via))
  {
    hide Finish;
    if c in d.subChannels {
      RefuseAgrees(d.subChannels[c], via);
      hide Machine.Refuse, MachineChans;
      FinishAgrees(d, c, d.subChannels[c].Refuse(via, AlwaysFailing));
    }
  }

  lemma RefusedQuiet(d: Tables<Endpoint>, c: SubChannelId, via: SubChannelId)
    ensures Refused(d, c, via).dropped == [] && Refused(d, c, via).out == []
  {
  }

  /**
   A truthful message is handled on the wire as `System` says, in a state that knows `known` and
   with some channels closed: if every reference can be resolved, as if it named the channels; if
   one cannot, a data message is lost and an announcement not recorded.
   */
  lemma WireAgrees(closed: set<Chan>, st: State, msg: WireMessage, names: Names, home: Homes)
    requires TruthfulPacket(names, home, PacketOf(msg)) && TargetOk(names, st.target)
    ensures forall i | 0 <= i < |PacketOf(msg)| :: PacketOf(msg)[i].scid in home
    ensures var s, d := OnMessage(closed, st, msg, true), TablesChans(st.tables);
            match FirstBroken(closed, st.target.Keys, PacketOf(msg))
            case None => WireStep(names, home, st, msg, s, Act(d, Naming(home, msg), true))
            case Some(i) =>
              && TargetOk(names, s.st.target)
              && if msg.Data? then
                   s.result.Err? && TablesChans(s.st.tables) == d
                       && EmbedChans(s.dropped) == Naming(home, msg).senders[..i]
                 else
                   && msg.Sending? && i == 0 && s.dropped == []
                   && TablesChans(s.st.tables) == Refused(d, msg.scid, msg.via).tables
                   && s.result == Refused(d, msg.scid, msg.via).result
  {
    var p := PacketOf(msg);
    assert forall i | 0 <= i < |p| :: Truthful(names, home, p[i]);
    match msg
    case Data(_, _, _) =>
      if FirstBroken(closed, st.target.Keys, p).None? {
        DataOnWire(closed, st, msg, names, home);
      } else {
        LostOnWire(closed, st, msg, names, home, FirstBroken(closed, st.target.Keys, p).value);
      }
    case Sending(_, via, viaChan) =>
      assert p[..0] == [] && Fulls(p[..0]) == {} && st.target.Keys + {} == st.target.Keys;
      if Resolvable(closed, st.target.Keys, p[0]) {
        SendingOnWire(closed, st, msg, names, home);
      } else {
        RefusedOnWire(closed, st, msg);
      }
    case _ => ActAgrees(st.tables, Plain(msg), true);
  }
}
