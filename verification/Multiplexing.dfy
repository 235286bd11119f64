/**
 Several subchannels share one IPC channel, and yet each behaves as a queue of its own: module
 `Receiver` pumps the shared queue, and here is what that does to every subchannel.
 */
module Multiplexing {
  import opened Basics
  import opened Protocol
  import opened SubchannelLifecycle
  import opened Demux
  import opened Wire

  /** The receiving end of an IPC channel: the demultiplexer and the messages it has not read yet. */
  datatype Inbox = Inbox(st: State, queue: seq<WireMessage>)

  /** The mail that goes back into a channel's own queue. */
  function Own(me: Chan, mail: seq<Mail>): seq<WireMessage> {
    if mail == [] then [] else (if mail[0].to == me then [mail[0].msg] else []) + Own(me, mail[1..])
  }

  /** Reading the first message. */
  function Advance(me: Chan, closed: set<Chan>, r: Inbox): (Inbox, Step)
    requires r.queue != []
  {
    var s := OnMessage(closed, r.st, r.queue[0], true);
    (Inbox(s.st, r.queue[1..] + Own(me, Open(closed, s.out))), s)
  }

  // ---------------------------------------------------------------------------------------
  // Which messages fail
  // ---------------------------------------------------------------------------------------

  /** A machine with such sources and copies in flight gives its sender away, and nobody listens there any more. */
  predicate HangsUp(d: Tables<Endpoint>, c: SubChannelId, sources: set<Source>, inFlight: multiset<SubChannelId>)
    requires c in d.subChannels
  {
    && sources == {} && inFlight == multiset{}
    && d.subChannels[c].maybe.Some? && !d.Accepts(d.subChannels[c].maybe.value)
  }

  /**
   A data message fails if a reference in it cannot be resolved, or its subchannel is unknown or
   closed; and, unless a set of receivers handles it, if its subchannel has lost its receiver.
   Other messages fail if they close a subchannel that has lost its receiver. The name of a
   subchannel is never expected.
   */
  predicate FailsAs(closed: set<Chan>, st: State, msg: WireMessage, strict: bool) {
    var d, known := st.tables, st.target.Keys;
    match msg
    case Connect(_) => false
    case SubChannelName(_) => true
    case Data(c, _, senders) =>
      || FirstBroken(closed, known, senders).Some?
      || c !in d.subChannels || d.subChannels[c].maybe.None?
      || (strict && !d.Accepts(d.subChannels[c].maybe.value))
    case Sending(c, via, ref) =>
      && c in d.subChannels && !Resolvable(closed, known, Embed(via, ref))
      && HangsUp(d, c, d.subChannels[c].sources, d.subChannels[c].inFlight)
    case SendingViaIpcChannel(_, _) => false
    case Received(_, _, _) => false
    case ReceiveFailed(c, via) =>
      c in d.subChannels && HangsUp(d, c, d.subChannels[c].sources, d.subChannels[c].inFlight - multiset{via})
    case Disconnect(c, source) =>
      c in d.subChannels && HangsUp(d, c, d.subChannels[c].sources - {source}, d.subChannels[c].inFlight)
  }

  /** As a receiver handles it. */
  predicate Fails(closed: set<Chan>, st: State, msg: WireMessage) {
    FailsAs(closed, st, msg, true)
  }

  lemma FinishFailsIff(d: Tables<Endpoint>, c: SubChannelId, m: SM<Endpoint>)
    requires c in d.subChannels && m.maybe == d.subChannels[c].maybe
    ensures Finish(d, c, m.HandOut()).result.Err? <==> HangsUp(d, c, m.sources, m.inFlight)
  {
  }

  lemma SendingFailsIff(closed: set<Chan>, st: State, msg: WireMessage, strict: bool)
    requires msg.Sending?
    ensures OnMessage(closed, st, msg, strict).result.Err? <==> FailsAs(closed, st, msg, strict)
  {
    var d, c := st.tables, msg.scid;
    if c in d.subChannels && !Resolvable(closed, st.target.Keys, Embed(msg.via, msg.viaChan)) {
      var m := d.subChannels[c].ToBeSent(msg.via, AlwaysFailing);
      assert m.inFlight - multiset{msg.via} == d.subChannels[c].inFlight;
      FinishFailsIff(d, c, m.(inFlight := m.inFlight - multiset{msg.via}));
    }
  }

  /** A message fails exactly under these conditions. */
  lemma FailsExactly(closed: set<Chan>, st: State, msg: WireMessage, strict: bool)
    ensures OnMessage(closed, st, msg, strict).result.Err? <==> FailsAs(closed, st, msg, strict)
  {
    var d := st.tables;
    match msg
    case Data(_, _, senders) => ResolvesUpTo(closed, st, senders);
    case Sending(_, _, _) => SendingFailsIff(closed, st, msg, strict);
    case ReceiveFailed(c, via) =>
      if c in d.subChannels {
        FinishFailsIff(d, c, d.subChannels[c].(inFlight := d.subChannels[c].inFlight - multiset{via}));
      }
    case Disconnect(c, source) =>
      if c in d.subChannels {
        FinishFailsIff(d, c, d.subChannels[c].(sources := d.subChannels[c].sources - {source}));
      }
    case _ =>
  }

  // ---------------------------------------------------------------------------------------
  // The contents of a subchannel
  // ---------------------------------------------------------------------------------------

  /** A data message as its receiver sees it: the payload, and which subsenders come along. */
  datatype Parcel = Parcel(payload: Payload, senders: seq<(SubChannelId, Uuid)>)

  function ParcelOf(msg: WireMessage, c: SubChannelId): seq<Parcel> {
    if msg.Data? && msg.scid == c then
      [Parcel(msg.payload, seq(|msg.senders|, i requires 0 <= i < |msg.senders| =>
                                 (msg.senders[i].scid, msg.senders[i].sender.uuid)))]
    else []
  }

  function QueuedParcels(queue: seq<WireMessage>, c: SubChannelId): seq<Parcel> {
    if queue == [] then [] else ParcelOf(queue[0], c) + QueuedParcels(queue[1..], c)
  }

  function ItemParcel(item: Item<Endpoint>): seq<Parcel> {
    match item
    case Resolved(_, payload, senders) =>
      [Parcel(payload, seq(|senders|, i requires 0 <= i < |senders| => (senders[i].scid, senders[i].sender.uuid)))]
    case Marker(_) => []
  }

  function LocalParcels(items: seq<Item<Endpoint>>): seq<Parcel> {
    if items == [] then [] else ItemParcel(items[0]) + LocalParcels(items[1..])
  }

  /** A subchannel's contents: its local queue, followed by its messages in the shared queue. */
  function Contents(r: Inbox, c: SubChannelId): seq<Parcel>
    requires c in r.st.tables.local
  {
    LocalParcels(r.st.tables.local[c]) + QueuedParcels(r.queue, c)
  }

  /**
   Every subchannel has a local queue, to which its machine sends; a marker in it is the last
   item, put there when the machine gave its sender away. The target finds under an identifier
   a connection that carries it.
   */
  predicate Tidy(st: State) {
    && (forall c | c in st.tables.subChannels :: TidyAt(st.tables, c))
    && (forall id | id in st.target :: st.target[id].uuid == id)
  }

  predicate TidyAt(d: Tables<Endpoint>, c: SubChannelId)
    requires c in d.subChannels
  {
    && c in d.local && d.subChannels[c].maybe in {None, Some(c)}
    && MarkedLast(d.local[c], c, d.subChannels[c].maybe.None?)
  }

  predicate MarkedLast(items: seq<Item<Endpoint>>, c: SubChannelId, closed: bool) {
    && (forall i | 0 <= i < |items| :: items[i].scid == c)
    && (forall i | 0 <= i < |items| && items[i].Marker? :: i == |items| - 1 && closed)
  }

  lemma {:induction false} LocalParcelsAppend(a: seq<Item<Endpoint>>, b: seq<Item<Endpoint>>)
    ensures LocalParcels(a + b) == LocalParcels(a) + LocalParcels(b)
  {
    if a == [] {
      assert a + b == b;
    } else {
      assert (a + b)[1..] == a[1..] + b;
      LocalParcelsAppend(a[1..], b);
    }
  }

  lemma {:induction false} QueuedParcelsAppend(a: seq<WireMessage>, b: seq<WireMessage>, c: SubChannelId)
    ensures QueuedParcels(a + b, c) == QueuedParcels(a, c) + QueuedParcels(b, c)
  {
    if a == [] {
      assert a + b == b;
    } else {
      assert (a + b)[1..] == a[1..] + b;
      QueuedParcelsAppend(a[1..], b, c);
    }
  }

  /** Mail that carries no data. */
  predicate Dataless(mail: seq<Mail>) {
    forall i | 0 <= i < |mail| :: !mail[i].msg.Data?
  }

  lemma {:induction false} OwnDataless(me: Chan, mail: seq<Mail>, c: SubChannelId)
    requires Dataless(mail)
    ensures QueuedParcels(Own(me, mail), c) == []
  {
    if mail != [] {
      assert !mail[0].msg.Data? && forall i | 0 <= i < |mail| - 1 :: mail[1..][i] == mail[i + 1];
      OwnDataless(me, mail[1..], c);
      var first, rest := mail[0].msg, Own(me, mail[1..]);
      QueuedParcelsAppend([first], rest, c);
      assert [first][1..] == [] && QueuedParcels([first], c) == [];
      assert [] + rest == rest;
    }
  }

  lemma {:induction false} OpenDataless(closed: set<Chan>, mail: seq<Mail>)
    requires Dataless(mail)
    ensures Dataless(Open(closed, mail))
  {
    if mail != [] {
      OpenDataless(closed, mail[..|mail| - 1]);
    }
  }

  /** The connections made for a packet are as many as it has senders, at most. */
  function FullCount(p: Packet): nat {
    if p == [] then 0
    else
      var n := |p| - 1;
      FullCount(p[..n]) + if p[n].sender.Full? then 1 else 0
  }

  predicate UuidsMatch(target: map<Uuid, Endpoint>) {
    forall id | id in target :: target[id].uuid == id
  }

  lemma {:induction false} ResolvedParcel(closed: set<Chan>, st: State, p: Packet)
    requires UuidsMatch(st.target)
    ensures var l := ResolveAll(closed, st, p);
            && l.st.tables == st.tables && l.st.clients == st.clients && UuidsMatch(l.st.target)
            && Dataless(l.out) && |l.out| <= FullCount(p)
            && (forall i | 0 <= i < |l.out| :: l.out[i].msg.Connect?)
            && |l.embeds| <= |p| && (l.error.None? ==> |l.embeds| == |p|)
            && forall i | 0 <= i < |l.embeds| ::
                 l.embeds[i].scid == p[i].scid && l.embeds[i].sender.uuid == p[i].sender.uuid
  {
    if p != [] {
      ResolvedParcel(closed, st, p[..|p| - 1]);
    }
  }

  lemma PushTidy(d: Tables<Endpoint>, c: SubChannelId, item: Item<Endpoint>, a: SubChannelId)
    requires c in d.subChannels && TidyAt(d, c) && d.subChannels[c].maybe == Some(c) && d.Accepts(c)
    requires item.Resolved? && item.scid == c && a in d.subChannels && TidyAt(d, a)
    ensures TidyAt(d.Push(c, item), a)
    ensures LocalParcels(d.Push(c, item).local[a]) == LocalParcels(d.local[a]) + if a == c then ItemParcel(item) else []
  {
    if a == c {
      LocalParcelsAppend(d.local[c], [item]);
      assert LocalParcels([item]) == ItemParcel(item) + LocalParcels([item][1..]) && [item][1..] == [];
    }
  }

  lemma FinishTidy(d: Tables<Endpoint>, c: SubChannelId, next: (SM<Endpoint>, Option<Tx>), a: SubChannelId)
    requires c in d.subChannels && TidyAt(d, c) && a in d.subChannels && TidyAt(d, a)
    requires match next.1
             case None => next.0.maybe == d.subChannels[c].maybe
             case Some(tx) => d.subChannels[c].maybe == Some(tx) && next.0.maybe == None
    ensures a in Finish(d, c, next).tables.subChannels && TidyAt(Finish(d, c, next).tables, a)
    ensures LocalParcels(Finish(d, c, next).tables.local[a]) == LocalParcels(d.local[a])
  {
    if a == c {
      var marker: Item<Endpoint> := Marker(c);
      LocalParcelsAppend(d.local[c], [marker]);
      assert LocalParcels([marker]) == ItemParcel(marker) + LocalParcels([marker][1..]) && [marker][1..] == [];
      assert LocalParcels(d.local[c]) + [] == LocalParcels(d.local[c]);
    }
  }

  lemma DataTidy(d: Tables<Endpoint>, c: SubChannelId, payload: Payload, senders: seq<Embed<Endpoint>>, a: SubChannelId)
    requires (c in d.subChannels ==> TidyAt(d, c)) && a in d.subChannels && TidyAt(d, a)
    ensures var h := ActData(d, c, payload, senders, true);
            && h.tables.subChannels == d.subChannels && TidyAt(h.tables, a)
            && LocalParcels(h.tables.local[a])
               == LocalParcels(d.local[a])
                  + (if a == c && h.result.Ok? then ItemParcel(Item<Endpoint>.Resolved(c, payload, senders)) else [])
            && (h.result.Ok? ==> h.out == [] && h.dropped == [])
  {
    assert LocalParcels(d.local[a]) + [] == LocalParcels(d.local[a]);
    if c in d.subChannels && d.subChannels[c].maybe == Some(c) && d.Accepts(c) {
      PushTidy(d, c, Resolved(c, payload, senders), a);
    }
  }

  /** A subchannel's machine moved on without giving its sender away. */
  lemma MoveTidy(d: Tables<Endpoint>, c: SubChannelId, m: SM<Endpoint>, a: SubChannelId)
    requires c in d.subChannels && a in d.subChannels && TidyAt(d, a) && m.maybe == d.subChannels[c].maybe
    ensures TidyAt(d.Update(c, m), a)
  {
  }

  /** Messages other than data messages put nothing but markers into local queues. */
  lemma ActTidy(d: Tables<Endpoint>, msg: MultiMessage<Endpoint>, a: SubChannelId)
    requires !msg.Data? && a in d.subChannels && forall c | c in d.subChannels :: TidyAt(d, c)
    ensures var h := Act(d, msg, true);
            && a in h.tables.subChannels && TidyAt(h.tables, a)
            && LocalParcels(h.tables.local[a]) == LocalParcels(d.local[a])
  {
    match msg
    case Connect(_) =>
    case SubChannelName(_) =>
    case Sending(c, via, ep) =>
      if c in d.subChannels {
        MoveTidy(d, c, d.subChannels[c].ToBeSent(via, OnResponses(ep)), a);
      }
    case SendingViaIpcChannel(c, n) =>
      if c in d.subChannels {
        MoveTidy(d, c, d.subChannels[c].ToBeSent(EMPTY_SUBCHANNEL_ID, OnKeepalive(n)), a);
      }
    case Received(c, via, source) =>
      if c in d.subChannels {
        MoveTidy(d, c, d.subChannels[c].Received(via, source), a);
      }
    case ReceiveFailed(c, via) =>
      if c in d.subChannels {
        FinishTidy(d, c, d.subChannels[c].ReceiveFailed(via), a);
      }
    case Disconnect(c, source) =>
      if c in d.subChannels {
        FinishTidy(d, c, d.subChannels[c].Disconnect(source), a);
      }
  }

  lemma RefusedTidy(d: Tables<Endpoint>, c: SubChannelId, via: SubChannelId, a: SubChannelId)
    requires a in d.subChannels && forall b | b in d.subChannels :: TidyAt(d, b)
    ensures var h := Refused(d, c, via);
            && a in h.tables.subChannels && TidyAt(h.tables, a)
            && LocalParcels(h.tables.local[a]) == LocalParcels(d.local[a])
  {
    if c in d.subChannels {
      FinishTidy(d, c, d.subChannels[c].ToBeSent(via, AlwaysFailing).ReceiveFailed(via), a);
    }
  }

  /** What handling one message does to a subchannel: it gets the parcel, unless handling fails. */
  predicate Delivers(st: State, s: Step, msg: WireMessage, a: SubChannelId) {
    && a in st.tables.subChannels && a in st.tables.local
    && a in s.st.tables.subChannels && TidyAt(s.st.tables, a)
    && LocalParcels(s.st.tables.local[a])
       == LocalParcels(st.tables.local[a]) + if s.result.Ok? then ParcelOf(msg, a) else []
  }

  lemma SameParcel(msg: WireMessage, embeds: seq<Embed<Endpoint>>)
    requires msg.Data? && |embeds| == |msg.senders|
    requires forall i | 0 <= i < |embeds| ::
               embeds[i].scid == msg.senders[i].scid && embeds[i].sender.uuid == msg.senders[i].sender.uuid
    ensures ItemParcel(Item<Endpoint>.Resolved(msg.scid, msg.payload, embeds)) == ParcelOf(msg, msg.scid)
  {
    var a := ItemParcel(Item<Endpoint>.Resolved(msg.scid, msg.payload, embeds));
    assert a[0].senders == ParcelOf(msg, msg.scid)[0].senders;
  }

  lemma DataDelivers(closed: set<Chan>, st: State, msg: WireMessage, a: SubChannelId)
    requires msg.Data? && Tidy(st) && a in st.tables.subChannels
    ensures Delivers(st, OnMessage(closed, st, msg, true), msg, a)
  {
    var l := ResolveAll(closed, st, msg.senders);
    ResolvedParcel(closed, st, msg.senders);
    assert LocalParcels(st.tables.local[a]) + [] == LocalParcels(st.tables.local[a]);
    if l.error.None? {
      DataTidy(st.tables, msg.scid, msg.payload, l.embeds, a);
      if a == msg.scid {
        SameParcel(msg, l.embeds);
      }
    }
  }

  lemma OthersDeliver(closed: set<Chan>, st: State, msg: WireMessage, a: SubChannelId)
    requires !msg.Data? && Tidy(st) && a in st.tables.subChannels
    ensures Delivers(st, OnMessage(closed, st, msg, true), msg, a)
  {
    assert LocalParcels(st.tables.local[a]) + [] == LocalParcels(st.tables.local[a]);
    if msg.Sending? {
      var l := Resolve(closed, st, msg.viaChan);
      if l.result.Ok? {
        ActTidy(l.st.tables, MultiMessage<Endpoint>.Sending(msg.scid, msg.via, l.result.value), a);
      } else {
        RefusedTidy(l.st.tables, msg.scid, msg.via, a);
      }
    } else if !msg.Connect? {
      ActTidy(st.tables, Plain(msg), a);
    }
  }

  lemma ActKeys(d: Tables<Endpoint>, msg: MultiMessage<Endpoint>)
    requires !msg.Data?
    ensures Act(d, msg, true).tables.subChannels.Keys == d.subChannels.Keys && Act(d, msg, true).out == []
  {
    match msg
    case ReceiveFailed(c, via) =>
      if c in d.subChannels {
        FinishKeys(d, c, d.subChannels[c].ReceiveFailed(via));
      }
    case Disconnect(c, source) =>
      if c in d.subChannels {
        FinishKeys(d, c, d.subChannels[c].Disconnect(source));
      }
    case _ =>
  }

  lemma FinishKeys(d: Tables<Endpoint>, c: SubChannelId, next: (SM<Endpoint>, Option<Tx>))
    requires c in d.subChannels
    ensures Finish(d, c, next).tables.subChannels.Keys == d.subChannels.Keys && Finish(d, c, next).out == []
  {
  }

  lemma SendingFrame(closed: set<Chan>, st: State, msg: WireMessage)
    requires msg.Sending? && UuidsMatch(st.target)
    ensures var s := OnMessage(closed, st, msg, true);
            s.st.tables.subChannels.Keys == st.tables.subChannels.Keys && UuidsMatch(s.st.target) && Dataless(s.out)
  {
    var l := Resolve(closed, st, msg.viaChan);
    if l.result.Ok? {
      ActKeys(l.st.tables, MultiMessage<Endpoint>.Sending(msg.scid, msg.via, l.result.value));
    } else if msg.scid in st.tables.subChannels {
      FinishKeys(st.tables, msg.scid, st.tables.subChannels[msg.scid].Refuse(msg.via, AlwaysFailing));
    }
    hide Act, Finish;
  }

  lemma DataFrame(closed: set<Chan>, st: State, msg: WireMessage)
    requires msg.Data? && UuidsMatch(st.target)
    ensures var s := OnMessage(closed, st, msg, true);
            s.st.tables.subChannels.Keys == st.tables.subChannels.Keys && UuidsMatch(s.st.target) && Dataless(s.out)
  {
    ResolvedParcel(closed, st, msg.senders);
  }

  /** Handling a message keeps things tidy, and what it sends carries no data. */
  lemma MessageTidy(closed: set<Chan>, st: State, msg: WireMessage)
    requires Tidy(st)
    ensures var s := OnMessage(closed, st, msg, true);
            && Tidy(s.st) && s.st.tables.subChannels.Keys == st.tables.subChannels.Keys && Dataless(s.out)
            && forall a | a in st.tables.subChannels :: Delivers(st, s, msg, a)
  {
    var s := OnMessage(closed, st, msg, true);
    forall a | a in st.tables.subChannels ensures Delivers(st, s, msg, a) {
      if msg.Data? {
        DataDelivers(closed, st, msg, a);
      } else {
        OthersDeliver(closed, st, msg, a);
      }
    }
    MessageFrame(closed, st, msg);
  }

  lemma MessageFrame(closed: set<Chan>, st: State, msg: WireMessage)
    requires UuidsMatch(st.target)
    ensures var s := OnMessage(closed, st, msg, true);
            s.st.tables.subChannels.Keys == st.tables.subChannels.Keys && UuidsMatch(s.st.target) && Dataless(s.out)
  {
    if msg.Data? {
      DataFrame(closed, st, msg);
    } else if msg.Sending? {
      SendingFrame(closed, st, msg);
    } else if !msg.Connect? {
      ActKeys(st.tables, Plain(msg));
      hide Act;
    }
  }

  /**
   Reading a message without an error leaves the contents of every subchannel as they are: it
   only moves from the shared queue to a local one.
   */
  lemma AdvanceKeepsContents(me: Chan, closed: set<Chan>, r: Inbox, a: SubChannelId)
    requires Tidy(r.st) && r.queue != [] && a in r.st.tables.subChannels && Advance(me, closed, r).1.result.Ok?
    ensures Tidy(Advance(me, closed, r).0.st) && a in Advance(me, closed, r).0.st.tables.subChannels
    ensures Contents(Advance(me, closed, r).0, a) == Contents(r, a)
  {
    var (r', s) := Advance(me, closed, r);
    MessageTidy(closed, r.st, r.queue[0]);
    assert Delivers(r.st, s, r.queue[0], a);
    NothingBack(me, closed, s.out, a);
    ContentsMove(r, r', r.queue[0], Own(me, Open(closed, s.out)), a);
  }

  /** What a message that failed takes out of the contents of a subchannel, wherever it was. */
  ghost predicate Misses(before: seq<Parcel>, after: seq<Parcel>, lost: seq<Parcel>) {
    exists k | 0 <= k <= |after| :: before == after[..k] + lost + after[k..]
  }

  lemma MissesAt(a: seq<Parcel>, lost: seq<Parcel>, b: seq<Parcel>)
    ensures Misses(a + lost + b, a + b, lost)
  {
    assert (a + b)[..|a|] == a && (a + b)[|a|..] == b;
  }

  lemma MissesNothing(before: seq<Parcel>, after: seq<Parcel>)
    ensures Misses(before, after, []) <==> before == after
  {
    if before == after {
      assert before == after[..0] + [] + after[0..];
    }
    if Misses(before, after, []) {
      var k :| 0 <= k <= |after| && before == after[..k] + [] + after[k..];
    }
  }

  lemma ContentsMiss(r: Inbox, r': Inbox, msg: WireMessage, back: seq<WireMessage>, a: SubChannelId)
    requires a in r.st.tables.local && a in r'.st.tables.local
    requires r.queue != [] && r.queue[0] == msg && r'.queue == r.queue[1..] + back && QueuedParcels(back, a) == []
    requires LocalParcels(r'.st.tables.local[a]) == LocalParcels(r.st.tables.local[a])
    ensures Misses(Contents(r, a), Contents(r', a), ParcelOf(msg, a))
  {
    hide LocalParcels, ParcelOf, Misses;
    QueuedParcelsAppend(r.queue[1..], back, a);
    var local, parcel, rest := LocalParcels(r.st.tables.local[a]), ParcelOf(msg, a), QueuedParcels(r.queue[1..], a);
    QueuedFirst(r.queue, a);
    hide QueuedParcels;
    assert Contents(r, a) == local + parcel + rest;
    assert rest + [] == rest && Contents(r', a) == local + rest;
    MissesAt(local, parcel, rest);
  }

  lemma QueuedFirst(queue: seq<WireMessage>, a: SubChannelId)
    requires queue != []
    ensures QueuedParcels(queue, a) == ParcelOf(queue[0], a) + QueuedParcels(queue[1..], a)
  {
  }

  /** Reading a message that fails takes just that message out of the contents of its subchannel. */
  lemma AdvanceMisses(me: Chan, closed: set<Chan>, r: Inbox, a: SubChannelId)
    requires Tidy(r.st) && r.queue != [] && a in r.st.tables.subChannels && Advance(me, closed, r).1.result.Err?
    ensures Tidy(Advance(me, closed, r).0.st) && a in Advance(me, closed, r).0.st.tables.subChannels
    ensures Misses(Contents(r, a), Contents(Advance(me, closed, r).0, a), ParcelOf(r.queue[0], a))
  {
    var (r', s) := Advance(me, closed, r);
    MessageTidy(closed, r.st, r.queue[0]);
    assert Delivers(r.st, s, r.queue[0], a);
    NothingBack(me, closed, s.out, a);
    hide OnMessage, TidyAt, Misses;
    ContentsMiss(r, r', r.queue[0], Own(me, Open(closed, s.out)), a);
  }

  lemma NothingBack(me: Chan, closed: set<Chan>, mail: seq<Mail>, a: SubChannelId)
    requires Dataless(mail)
    ensures QueuedParcels(Own(me, Open(closed, mail)), a) == []
  {
    OpenDataless(closed, mail);
    OwnDataless(me, Open(closed, mail), a);
  }

  lemma ContentsMove(r: Inbox, r': Inbox, msg: WireMessage, back: seq<WireMessage>, a: SubChannelId)
    requires a in r.st.tables.local && a in r'.st.tables.local
    requires r.queue != [] && r.queue[0] == msg && r'.queue == r.queue[1..] + back && QueuedParcels(back, a) == []
    requires LocalParcels(r'.st.tables.local[a]) == LocalParcels(r.st.tables.local[a]) + ParcelOf(msg, a)
    ensures Contents(r', a) == Contents(r, a)
  {
    QueuedParcelsAppend(r.queue[1..], back, a);
    hide LocalParcels, ParcelOf;
    assert QueuedParcels(r.queue, a) == ParcelOf(msg, a) + QueuedParcels(r.queue[1..], a);
  }

  // ---------------------------------------------------------------------------------------
  // Draining
  // ---------------------------------------------------------------------------------------

  /** A message weighs one, and one more for each sender that comes with it: it will be connected to. */
  function Weight(queue: seq<WireMessage>): nat {
    if queue == [] then 0 else 1 + FullCount(PacketOf(queue[0])) + Weight(queue[1..])
  }

  lemma {:induction false} WeightAppend(a: seq<WireMessage>, b: seq<WireMessage>)
    ensures Weight(a + b) == Weight(a) + Weight(b)
  {
    if a == [] {
      assert a + b == b;
    } else {
      assert (a + b)[1..] == a[1..] + b;
      WeightAppend(a[1..], b);
    }
  }

  predicate Connects(mail: seq<Mail>) {
    forall i | 0 <= i < |mail| :: mail[i].msg.Connect?
  }

  lemma {:induction false} OpenConnects(closed: set<Chan>, mail: seq<Mail>)
    requires Connects(mail)
    ensures Connects(Open(closed, mail)) && |Open(closed, mail)| <= |mail|
  {
    if mail != [] {
      OpenConnects(closed, mail[..|mail| - 1]);
    }
  }

  lemma {:induction false} OwnWeight(me: Chan, mail: seq<Mail>)
    requires Connects(mail)
    ensures Weight(Own(me, mail)) <= |mail|
  {
    if mail != [] {
      assert forall i | 0 <= i < |mail| - 1 :: mail[1..][i] == mail[i + 1];
      OwnWeight(me, mail[1..]);
      var first, rest := mail[0].msg, Own(me, mail[1..]);
      assert mail[0].msg.Connect?;
      WeightAppend([first], rest);
      assert [first][1..] == [] && Weight([first]) == 1;
      assert [] + rest == rest;
    }
  }

  /** A message that is handled without an error causes nothing to be sent but connections. */
  lemma HandledConnects(closed: set<Chan>, st: State, msg: WireMessage)
    requires UuidsMatch(st.target) && OnMessage(closed, st, msg, true).result.Ok?
    ensures Connects(OnMessage(closed, st, msg, true).out)
    ensures |OnMessage(closed, st, msg, true).out| <= FullCount(PacketOf(msg))
  {
    if msg.Data? {
      var l := ResolveAll(closed, st, msg.senders);
      ResolvedParcel(closed, st, msg.senders);
      DataQuiet(l.st.tables, msg.scid, msg.payload, l.embeds);
    } else if msg.Sending? {
      SendingConnects(closed, st, msg);
    } else if !msg.Connect? {
      ActKeys(st.tables, Plain(msg));
      hide Act;
    }
  }

  lemma DataQuiet(d: Tables<Endpoint>, c: SubChannelId, payload: Payload, senders: seq<Embed<Endpoint>>)
    ensures ActData(d, c, payload, senders, true).result.Ok? ==> ActData(d, c, payload, senders, true).out == []
  {
  }

  lemma SendingConnects(closed: set<Chan>, st: State, msg: WireMessage)
    requires msg.Sending?
    ensures Connects(OnMessage(closed, st, msg, true).out)
    ensures |OnMessage(closed, st, msg, true).out| <= FullCount(PacketOf(msg))
  {
    var l := Resolve(closed, st, msg.viaChan);
    assert PacketOf(msg)[..0] == [];
    if l.result.Ok? {
      ActKeys(l.st.tables, MultiMessage<Endpoint>.Sending(msg.scid, msg.via, l.result.value));
    } else if msg.scid in st.tables.subChannels {
      FinishKeys(st.tables, msg.scid, st.tables.subChannels[msg.scid].Refuse(msg.via, AlwaysFailing));
    }
    hide Act, Finish;
  }

  /** Though handling a message may enqueue others, what is left to be read gets less. */
  lemma AdvanceShrinks(me: Chan, closed: set<Chan>, r: Inbox)
    requires UuidsMatch(r.st.target) && r.queue != [] && Advance(me, closed, r).1.result.Ok?
    ensures Weight(Advance(me, closed, r).0.queue) < Weight(r.queue)
    ensures UuidsMatch(Advance(me, closed, r).0.st.target)
  {
    var (r', s) := Advance(me, closed, r);
    HandledConnects(closed, r.st, r.queue[0]);
    MessageFrame(closed, r.st, r.queue[0]);
    OpenConnects(closed, s.out);
    OwnWeight(me, Open(closed, s.out));
    WeightAppend(r.queue[1..], Own(me, Open(closed, s.out)));
  }

  /** `mail` is what was sent meanwhile, `dropped` the subsenders that nobody will receive. */
  datatype Drained = Drained(inbox: Inbox, mail: seq<Mail>, dropped: seq<Embed<Endpoint>>, error: Option<MuxError>)

  /** Reading until the queue is empty or a message fails. */
  ghost function Drain(me: Chan, closed: set<Chan>, r: Inbox): Drained
    requires UuidsMatch(r.st.target)
    decreases Weight(r.queue)
  {
    if r.queue == [] then Drained(r, [], [], None)
    else
      var (r', s) := Advance(me, closed, r);
      match s.result
      case Err(error) => Drained(r', Open(closed, s.out), s.dropped, Some(error))
      case Ok(_) =>
        AdvanceShrinks(me, closed, r);
        var d := Drain(me, closed, r');
        Drained(d.inbox, Open(closed, s.out) + d.mail, s.dropped + d.dropped, d.error)
  }

  // ---------------------------------------------------------------------------------------
  // Receiving
  // ---------------------------------------------------------------------------------------

  /** How a `recv` ends; `Waiting` is no end, there was nothing to read. */
  datatype Outcome = Message(item: Item<Endpoint>) | Closed | Failed(error: MuxError) | Waiting

  /** `handled` messages were read off the shared queue. */
  datatype Reading = Reading(inbox: Inbox, mail: seq<Mail>, dropped: seq<Embed<Endpoint>>, outcome: Outcome,
                             handled: nat)

  /** What is to be had from the local queue of `c` without reading the shared one. */
  function Ready(st: State, c: SubChannelId): Outcome
    requires c in st.tables.local
  {
    var local := st.tables.local[c];
    if local != [] then (if local[0].Marker? then Closed else Message(local[0]))
    else if c in st.tables.subChannels && st.tables.subChannels[c].maybe == Some(c) then Waiting
    else Closed
  }

  function TakeFirst(st: State, c: SubChannelId): State
    requires c in st.tables.local
  {
    var local := st.tables.local[c];
    if local == [] then st else SetLocal(st, c, local[1..])
  }

  /** `recv` on `c`: read messages, for whichever subchannel, until there is something for `c`. */
  ghost function Receive(me: Chan, closed: set<Chan>, r: Inbox, c: SubChannelId): (v: Reading)
    requires Tidy(r.st) && c in r.st.tables.subChannels
    decreases Weight(r.queue)
  {
    var now := Ready(r.st, c);
    if !now.Waiting? then Reading(r.(st := TakeFirst(r.st, c)), [], [], now, 0)
    else if r.queue == [] then Reading(r, [], [], Waiting, 0)
    else
      var (r', s) := Advance(me, closed, r);
      match s.result
      case Err(error) => Reading(r', Open(closed, s.out), s.dropped, Failed(error), 1)
      case Ok(_) =>
        AdvanceShrinks(me, closed, r);
        AdvanceKeepsContents(me, closed, r, c);
        var v := Receive(me, closed, r', c);
        Reading(v.inbox, Open(closed, s.out) + v.mail, s.dropped + v.dropped, v.outcome, 1 + v.handled)
  }

  lemma TakeTidy(st: State, c: SubChannelId, a: SubChannelId)
    requires Tidy(st) && c in st.tables.subChannels && a in st.tables.subChannels
    ensures Tidy(TakeFirst(st, c))
    ensures a != c ==> TakeFirst(st, c).tables.local[a] == st.tables.local[a]
    ensures !Ready(st, c).Waiting? ==>
              LocalParcels(st.tables.local[c])
              == (if Ready(st, c).Message? then ItemParcel(Ready(st, c).item) else [])
                 + LocalParcels(TakeFirst(st, c).tables.local[c])
  {
  }

  /** The inbox after some messages have been read. */
  function After(me: Chan, closed: set<Chan>, r: Inbox, n: nat): Inbox
    decreases n
  {
    if n == 0 || r.queue == [] then r else After(me, closed, Advance(me, closed, r).0, n - 1)
  }

  /** `recv` reads no more messages than it needs: until the last one there was nothing for `c`. */
  lemma {:induction false} ReceiveReadsShortestPrefix(me: Chan, closed: set<Chan>, r: Inbox, c: SubChannelId, j: nat)
    requires Tidy(r.st) && c in r.st.tables.subChannels && j < Receive(me, closed, r, c).handled
    ensures var r' := After(me, closed, r, j);
            c in r'.st.tables.local && Ready(r'.st, c).Waiting? && r'.queue != []
    decreases j
  {
    if j > 0 {
      AdvanceKeepsContents(me, closed, r, c);
      ReceiveReadsShortestPrefix(me, closed, Advance(me, closed, r).0, c, j - 1);
    }
  }

  lemma NothingWaits(r: Inbox, c: SubChannelId)
    requires Tidy(r.st) && c in r.st.tables.subChannels && Ready(r.st, c).Waiting? && r.queue == []
    ensures Contents(r, c) == []
  {
  }

  /**
   Multiplexing is invisible. When no message that `recv` on `c` reads fails, it takes the head of
   the contents of `c`, if anything, and every other subchannel's contents are as before. When one
   does, it has taken nothing, and all contents are as before but for the last message read.
   Whether the message taken can then be rebuilt is a matter for module `Delivery`.
   */
  lemma {:induction false} ReceiveTakesOwnHead(me: Chan, closed: set<Chan>, r: Inbox, c: SubChannelId, a: SubChannelId)
    requires Tidy(r.st) && c in r.st.tables.subChannels && a in r.st.tables.subChannels
    ensures var v := Receive(me, closed, r, c);
            && Tidy(v.inbox.st) && a in v.inbox.st.tables.subChannels
            && (!v.outcome.Failed? ==>
                  Contents(r, a) == (if a == c && v.outcome.Message? then ItemParcel(v.outcome.item) else [])
                                    + Contents(v.inbox, a))
            && (v.outcome.Failed? ==>
                  && v.handled > 0 && After(me, closed, r, v.handled - 1).queue != []
                  && Misses(Contents(r, a), Contents(v.inbox, a),
                            ParcelOf(After(me, closed, r, v.handled - 1).queue[0], a)))
            && (v.outcome.Waiting? ==> v.inbox.queue == [] && Contents(r, c) == [])
    decreases Weight(r.queue)
  {
    hide Advance, Misses, ParcelOf, OnMessage, Weight, QueuedParcels;
    if !Ready(r.st, c).Waiting? {
      TakeTidy(r.st, c, a);
    } else if r.queue == [] {
      NothingWaits(r, c);
    } else {
      if Advance(me, closed, r).1.result.Ok? {
        AdvanceShrinks(me, closed, r);
        AdvanceKeepsContents(me, closed, r, a);
        AdvanceKeepsContents(me, closed, r, c);
        ReceiveTakesOwnHead(me, closed, Advance(me, closed, r).0, c, a);
      } else {
        AdvanceMisses(me, closed, r, a);
      }
    }
  }

  /** `recv` on `c` has to read `j` messages, none of which fails, and there is still nothing for it. */
  predicate Awaits(me: Chan, closed: set<Chan>, r: Inbox, c: SubChannelId, j: nat)
    decreases j
  {
    && c in r.st.tables.local && Ready(r.st, c).Waiting?
    && (j == 0 || (r.queue != [] && !Fails(closed, r.st, r.queue[0])
                   && Awaits(me, closed, Advance(me, closed, r).0, c, j - 1)))
  }

  /** After `j` messages `recv` on `c` still waits, and the next one fails. */
  predicate FailsAt(me: Chan, closed: set<Chan>, r: Inbox, c: SubChannelId, j: nat) {
    var r' := After(me, closed, r, j);
    Awaits(me, closed, r, c, j) && r'.queue != [] && Fails(closed, r'.st, r'.queue[0])
  }

  lemma AdvanceFailsIff(me: Chan, closed: set<Chan>, r: Inbox)
    requires r.queue != []
    ensures Advance(me, closed, r).1.result.Err? <==> Fails(closed, r.st, r.queue[0])
  {
    FailsExactly(closed, r.st, r.queue[0], true);
  }

  lemma TidyFacts(st: State, c: SubChannelId)
    requires Tidy(st) && c in st.tables.subChannels
    ensures c in st.tables.local && UuidsMatch(st.target)
  {
    assert TidyAt(st.tables, c);
  }

  /**
   The price: `recv` on `c` fails with nothing taken if and only if the first message that fails
   comes before one for `c`.
   */
  lemma {:induction false} ReceiveFailsIff(me: Chan, closed: set<Chan>, r: Inbox, c: SubChannelId)
    requires Tidy(r.st) && c in r.st.tables.subChannels
    ensures var v := Receive(me, closed, r, c);
            && (v.outcome.Failed? <==> exists j :: FailsAt(me, closed, r, c, j))
            && (v.outcome.Failed? ==> v.handled > 0 && FailsAt(me, closed, r, c, v.handled - 1))
    decreases Weight(r.queue)
  {
    hide Advance, Fails, OnMessage, Weight, Tidy, Ready;
    TidyFacts(r.st, c);
    if Ready(r.st, c).Waiting? && r.queue != [] {
      AdvanceFailsIff(me, closed, r);
      if Fails(closed, r.st, r.queue[0]) {
        assert FailsAt(me, closed, r, c, 0);
      } else {
        AdvanceShrinks(me, closed, r);
        AdvanceKeepsContents(me, closed, r, c);
        ReceiveFailsIff(me, closed, Advance(me, closed, r).0, c);
        FailsShift(me, closed, r, c);
      }
    } else {
      NeverFails(me, closed, r, c);
    }
  }

  lemma NeverFails(me: Chan, closed: set<Chan>, r: Inbox, c: SubChannelId)
    requires c in r.st.tables.local && (!Ready(r.st, c).Waiting? || r.queue == [])
    ensures !Ready(r.st, c).Failed? && !exists j :: FailsAt(me, closed, r, c, j)
  {
    hide Fails, Advance;
  }

  lemma FailsShift(me: Chan, closed: set<Chan>, r: Inbox, c: SubChannelId)
    requires c in r.st.tables.local && Ready(r.st, c).Waiting? && r.queue != [] && !Fails(closed, r.st, r.queue[0])
    ensures (exists j :: FailsAt(me, closed, r, c, j))
            <==> exists j :: FailsAt(me, closed, Advance(me, closed, r).0, c, j)
    ensures forall j: nat :: FailsAt(me, closed, Advance(me, closed, r).0, c, j) ==> FailsAt(me, closed, r, c, j + 1)
  {
    hide FailsAt;
    var r' := Advance(me, closed, r).0;
    forall j: nat | FailsAt(me, closed, r', c, j) ensures FailsAt(me, closed, r, c, j + 1) {
      FailsLater(me, closed, r, c, j + 1);
    }
    if j: nat :| FailsAt(me, closed, r', c, j) {
      assert FailsAt(me, closed, r, c, j + 1);
    }
    if j: nat :| FailsAt(me, closed, r, c, j) {
      FailsLater(me, closed, r, c, j);
    }
  }

  lemma FailsLater(me: Chan, closed: set<Chan>, r: Inbox, c: SubChannelId, j: nat)
    requires c in r.st.tables.local && Ready(r.st, c).Waiting? && r.queue != [] && !Fails(closed, r.st, r.queue[0])
    ensures FailsAt(me, closed, r, c, j) <==> j > 0 && FailsAt(me, closed, Advance(me, closed, r).0, c, j - 1)
  {
    hide Fails, Advance, Ready;
  }

  // ---------------------------------------------------------------------------------------
  // How a `recv` ends
  // ---------------------------------------------------------------------------------------

  /** The local queue of `c` holds nothing, and more may come into it. */
  predicate Idle(r: Inbox, c: SubChannelId) {
    && c in r.st.tables.local && r.st.tables.local[c] == []
    && c in r.st.tables.subChannels && r.st.tables.subChannels[c].maybe.Some?
  }

  /** The local queue of `c` has come to its end: the marker is next, or was taken before. */
  predicate Ended(r: Inbox, c: SubChannelId) {
    && c in r.st.tables.local && c in r.st.tables.subChannels
    && if r.st.tables.local[c] == [] then r.st.tables.subChannels[c].maybe.None?
       else r.st.tables.local[c][0].Marker?
  }

  /** A message is next in the local queue of `c`. */
  predicate Waits(r: Inbox, c: SubChannelId) {
    c in r.st.tables.local && r.st.tables.local[c] != [] && r.st.tables.local[c][0].Resolved?
  }

  lemma OneOfThree(r: Inbox, c: SubChannelId)
    requires Tidy(r.st) && c in r.st.tables.subChannels
    ensures c in r.st.tables.local
    ensures Ready(r.st, c).Closed? <==> Ended(r, c)
    ensures Ended(r, c) && r.st.tables.local[c] != [] ==> r.st.tables.local[c] == [Marker(c)]
    ensures Ready(r.st, c).Waiting? <==> Idle(r, c)
    ensures Ready(r.st, c).Message? <==> Waits(r, c)
    ensures Waits(r, c) ==> Ready(r.st, c).item == r.st.tables.local[c][0]
  {
    assert TidyAt(r.st.tables, c);
  }

  /**
   `recv` on `c` goes on reading exactly as long as its local queue is empty and its machine has
   not given its sender away; so it reports that the subchannel is disconnected if and only if it
   has come upon the marker, or its machine is closed and nothing is left. Otherwise it ends with
   the first message of the local queue, or there is nothing more to read.
   */
  lemma {:induction false} ReceiveEndsIff(me: Chan, closed: set<Chan>, r: Inbox, c: SubChannelId)
    requires Tidy(r.st) && c in r.st.tables.subChannels
    ensures var v := Receive(me, closed, r, c);
            var r' := After(me, closed, r, v.handled);
            && (forall j: nat | j < v.handled ::
                  Idle(After(me, closed, r, j), c) && After(me, closed, r, j).queue != [])
            && (!v.outcome.Failed? ==>
                  && (v.outcome.Closed? <==> Ended(r', c))
                  && (v.outcome.Closed? ==> r'.st.tables.local[c] in {[], [Marker(c)]})
                  && (v.outcome.Message? <==> Waits(r', c))
                  && (v.outcome.Waiting? <==> Idle(r', c) && r'.queue == [])
                  && (v.outcome.Message? ==> v.outcome.item == r'.st.tables.local[c][0]))
    decreases Weight(r.queue)
  {
    hide Advance, OnMessage, Weight, Tidy, Ready, Contents;
    OneOfThree(r, c);
    if Idle(r, c) && r.queue != [] {
      var q := Advance(me, closed, r).0;
      if Advance(me, closed, r).1.result.Ok? {
        AdvanceShrinks(me, closed, r) by {
          TidyFacts(r.st, c);
        }
        AdvanceKeepsContents(me, closed, r, c);
        ReceiveEndsIff(me, closed, q, c);
        var v := Receive(me, closed, q, c);
        forall j: nat | j < v.handled + 1
          ensures Idle(After(me, closed, r, j), c) && After(me, closed, r, j).queue != []
        {
          assert j > 0 ==> After(me, closed, r, j) == After(me, closed, q, j - 1);
        }
      }
    }
  }

  lemma FinishStaysClosed(d: Tables<Endpoint>, c: SubChannelId, m: SM<Endpoint>, a: SubChannelId)
    requires a in d.subChannels && d.subChannels[a].maybe.None?
    requires c in d.subChannels && m.maybe == d.subChannels[c].maybe
    ensures var d' := Finish(d, c, m.HandOut()).tables; a in d'.subChannels && d'.subChannels[a].maybe.None?
  {
  }

  /** A machine that has given its sender away never has one again. */
  lemma ActStaysClosed(d: Tables<Endpoint>, msg: MultiMessage<Endpoint>, a: SubChannelId)
    requires !msg.Data? && a in d.subChannels && d.subChannels[a].maybe.None?
    ensures var d' := Act(d, msg, true).tables; a in d'.subChannels && d'.subChannels[a].maybe.None?
  {
    hide Finish;
    match msg
    case ReceiveFailed(c, via) =>
      if c in d.subChannels {
        var m := d.subChannels[c];
        FinishStaysClosed(d, c, m.(inFlight := m.inFlight - multiset{via}), a);
      }
    case Disconnect(c, source) =>
      if c in d.subChannels {
        var m := d.subChannels[c];
        FinishStaysClosed(d, c, m.(sources := m.sources - {source}), a);
      }
    case _ =>
  }

  lemma RefusedStaysClosed(d: Tables<Endpoint>, c: SubChannelId, via: SubChannelId, a: SubChannelId)
    requires a in d.subChannels && d.subChannels[a].maybe.None?
    ensures var d' := Refused(d, c, via).tables; a in d'.subChannels && d'.subChannels[a].maybe.None?
  {
  }

  lemma MessageStaysClosed(closed: set<Chan>, st: State, msg: WireMessage, c: SubChannelId)
    requires c in st.tables.subChannels && st.tables.subChannels[c].maybe.None? && UuidsMatch(st.target)
    ensures var d' := OnMessage(closed, st, msg, true).st.tables;
            c in d'.subChannels && d'.subChannels[c].maybe.None?
  {
    hide Act, Refused;
    match msg {
      case Connect(_) =>
      case Data(_, _, senders) => ResolvedParcel(closed, st, senders);
      case Sending(scid, via, viaChan) =>
        var l := Resolve(closed, st, viaChan);
        if l.result.Ok? {
          ActStaysClosed(l.st.tables, MultiMessage<Endpoint>.Sending(scid, via, l.result.value), c);
        } else {
          RefusedStaysClosed(l.st.tables, scid, via, c);
        }
      case _ => ActStaysClosed(st.tables, Plain(msg), c);
    }
  }

  /** Behind the end of a subchannel no message for it can be read. */
  lemma {:induction false} NothingBehindEnd(me: Chan, closed: set<Chan>, r: Inbox, c: SubChannelId)
    requires Tidy(r.st) && c in r.st.tables.subChannels && r.st.tables.subChannels[c].maybe.None?
    requires UuidsMatch(r.st.target) && Drain(me, closed, r).error.None?
    ensures QueuedParcels(r.queue, c) == []
    decreases Weight(r.queue)
  {
    if r.queue != [] {
      var msg, q, s := r.queue[0], Advance(me, closed, r).0, Advance(me, closed, r).1;
      FailsExactly(closed, r.st, msg, true);
      MessageFrame(closed, r.st, msg);
      MessageTidy(closed, r.st, msg);
      MessageStaysClosed(closed, r.st, msg, c);
      AdvanceShrinks(me, closed, r);
      NothingBehindEnd(me, closed, q, c);
      OpenDataless(closed, s.out);
      OwnDataless(me, Open(closed, s.out), c);
      QueuedParcelsAppend(r.queue[1..], Own(me, Open(closed, s.out)), c);
    }
  }

  /**
   If no message in the shared queue fails, `recv` on `c` ends with a message exactly if there is
   one for `c` anywhere, and it is the first.
   */
  lemma {:induction false} ReceiveFindsMessage(me: Chan, closed: set<Chan>, r: Inbox, c: SubChannelId)
    requires Tidy(r.st) && c in r.st.tables.subChannels && UuidsMatch(r.st.target)
    requires Drain(me, closed, r).error.None?
    ensures var v := Receive(me, closed, r, c);
            && (v.outcome.Message? <==> Contents(r, c) != [])
            && (v.outcome.Message? ==> ItemParcel(v.outcome.item) == Contents(r, c)[..1])
    decreases Weight(r.queue)
  {
    hide Advance, OnMessage, Weight;
    OneOfThree(r, c);
    if Idle(r, c) && r.queue != [] {
      AdvanceShrinks(me, closed, r);
      AdvanceKeepsContents(me, closed, r, c);
      ReceiveFindsMessage(me, closed, Advance(me, closed, r).0, c);
    } else if Ended(r, c) {
      assert TidyAt(r.st.tables, c);
      assert LocalParcels(r.st.tables.local[c]) == [];
      NothingBehindEnd(me, closed, r, c);
    }
  }

  // ---------------------------------------------------------------------------------------
  // What reading causes
  // ---------------------------------------------------------------------------------------

  /** What goes out while the first `n` messages are handled. */
  function Mailed(me: Chan, closed: set<Chan>, r: Inbox, n: nat): seq<Mail>
    decreases n
  {
    if n == 0 || r.queue == [] then []
    else
      var (r', s) := Advance(me, closed, r);
      Open(closed, s.out) + Mailed(me, closed, r', n - 1)
  }

  /** The subsenders in those of them that nobody will receive. */
  function Discarded(me: Chan, closed: set<Chan>, r: Inbox, n: nat): seq<Embed<Endpoint>>
    decreases n
  {
    if n == 0 || r.queue == [] then []
    else
      var (r', s) := Advance(me, closed, r);
      s.dropped + Discarded(me, closed, r', n - 1)
  }

  /** A `recv` does to the shared queue what the messages it reads do, and takes its own item. */
  lemma {:induction false} ReceiveThrough(me: Chan, closed: set<Chan>, r: Inbox, c: SubChannelId)
    requires Tidy(r.st) && c in r.st.tables.subChannels
    ensures var v := Receive(me, closed, r, c);
            var r' := After(me, closed, r, v.handled);
            && c in r'.st.tables.local
            && v.mail == Mailed(me, closed, r, v.handled) && v.dropped == Discarded(me, closed, r, v.handled)
            && v.inbox == if v.outcome.Failed? || r'.st.tables.local[c] == [] then r'
                          else r'.(st := SetLocal(r'.st, c, r'.st.tables.local[c][1..]))
    decreases Weight(r.queue)
  {
    hide Advance, OnMessage, Weight, Tidy, Contents;
    TidyFacts(r.st, c);
    if Ready(r.st, c).Waiting? && r.queue != [] {
      var q, s := Advance(me, closed, r).0, Advance(me, closed, r).1;
      assert Mailed(me, closed, q, 0) == [] && Discarded(me, closed, q, 0) == [];
      assert Open(closed, s.out) + [] == Open(closed, s.out) && s.dropped + [] == s.dropped;
      if s.result.Ok? {
        AdvanceShrinks(me, closed, r);
        AdvanceKeepsContents(me, closed, r, c);
        ReceiveThrough(me, closed, q, c);
      } else {
        FailedFrame(me, closed, r, c);
      }
    }
  }

  lemma FailedFrame(me: Chan, closed: set<Chan>, r: Inbox, c: SubChannelId)
    requires Tidy(r.st) && c in r.st.tables.subChannels && r.queue != []
    ensures c in Advance(me, closed, r).0.st.tables.local
  {
    MessageTidy(closed, r.st, r.queue[0]);
    assert Delivers(r.st, Advance(me, closed, r).1, r.queue[0], c);
    hide OnMessage;
  }

  /** Draining does what the messages it reads do; all of them, or up to the first that fails. */
  lemma {:induction false} DrainThrough(me: Chan, closed: set<Chan>, r: Inbox) returns (n: nat)
    requires UuidsMatch(r.st.target)
    ensures var d := Drain(me, closed, r);
            && d.inbox == After(me, closed, r, n)
            && d.mail == Mailed(me, closed, r, n) && d.dropped == Discarded(me, closed, r, n)
            && (d.error.None? ==> d.inbox.queue == [])
            && (d.error.Some? ==> n > 0 && var q := After(me, closed, r, n - 1);
                                  q.queue != [] && Fails(closed, q.st, q.queue[0]))
            && forall j: nat | j < if d.error.Some? then n - 1 else n ::
                 var q := After(me, closed, r, j); q.queue != [] && !Fails(closed, q.st, q.queue[0])
    decreases Weight(r.queue)
  {
    hide Advance, OnMessage, Weight, Fails;
    n := 0;
    if r.queue != [] {
      var q, s := Advance(me, closed, r).0, Advance(me, closed, r).1;
      AdvanceFailsIff(me, closed, r);
      assert Mailed(me, closed, q, 0) == [] && Discarded(me, closed, q, 0) == [];
      assert Open(closed, s.out) + [] == Open(closed, s.out) && s.dropped + [] == s.dropped;
      if s.result.Ok? {
        AdvanceShrinks(me, closed, r);
        var k := DrainThrough(me, closed, q);
        n := k + 1;
        assert forall j: nat | j > 0 :: After(me, closed, r, j) == After(me, closed, q, j - 1);
      } else {
        n := 1;
        assert After(me, closed, r, 0) == r;
      }
    }
  }
}
