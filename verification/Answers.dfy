/**
 Where the answers go when a receiver is dropped: each subsender that it held is reported to the
 channel of its own connection, which is the one its subchannel was created on.
 */
module Answers {
  import opened Basics
  import opened Protocol
  import opened SubchannelLifecycle
  import opened Demux
  import opened Wire
  import opened Dedup
  import opened Multiplexing
  import opened Dropping

  // ---------------------------------------------------------------------------------------
  // Mail arrives
  // ---------------------------------------------------------------------------------------

  /** Mail gets through exactly if its channel is open, as often as it was sent. */
  lemma {:induction false} OpenIff(closed: set<Chan>, mail: seq<Mail>, m: Mail)
    ensures multiset(Open(closed, mail))[m] == if m.to in closed then 0 else multiset(mail)[m]
  {
    if mail != [] {
      var n := |mail| - 1;
      OpenIff(closed, mail[..n], m);
      assert mail == mail[..n] + [mail[n]];
    }
  }

  /** What was sent to the own channel, and nothing else, is in the own queue. */
  lemma {:induction false} OwnIff(me: Chan, mail: seq<Mail>, msg: WireMessage)
    ensures multiset(Own(me, mail))[msg] == multiset(mail)[Mail(me, msg)]
  {
    if mail != [] {
      OwnIff(me, mail[1..], msg);
      assert mail == [mail[0]] + mail[1..];
    }
  }

  /** It is there in the order in which it was sent. */
  lemma {:induction false} OwnConcat(me: Chan, a: seq<Mail>, b: seq<Mail>)
    ensures Own(me, a + b) == Own(me, a) + Own(me, b)
  {
    if a == [] {
      assert a + b == b;
    } else {
      assert (a + b)[1..] == a[1..] + b;
      OwnConcat(me, a[1..], b);
    }
  }

  // ---------------------------------------------------------------------------------------
  // Connections lead home
  // ---------------------------------------------------------------------------------------

  /** A subsender is connected to the channel on which its subchannel was created. */
  predicate Homed(home: Homes, e: Embed<Endpoint>) {
    e.scid in home && home[e.scid] == e.sender.chan
  }

  predicate AllHomed(home: Homes, senders: seq<Embed<Endpoint>>) {
    forall i | 0 <= i < |senders| :: Homed(home, senders[i])
  }

  predicate ItemHomed(home: Homes, item: Item<Endpoint>) {
    item.Resolved? ==> AllHomed(home, item.senders)
  }

  predicate ItemsHomed(home: Homes, items: seq<Item<Endpoint>>) {
    forall i | 0 <= i < |items| :: ItemHomed(home, items[i])
  }

  /** What has been demultiplexed is connected rightly, and what is queued will be. */
  predicate TablesHomed(home: Homes, d: Tables<Endpoint>) {
    forall tx | tx in d.local :: ItemsHomed(home, d.local[tx])
  }

  predicate QueueHomed(names: Names, home: Homes, queue: seq<WireMessage>) {
    forall i | 0 <= i < |queue| :: TruthfulPacket(names, home, PacketOf(queue[i]))
  }

  predicate InboxHomed(names: Names, home: Homes, r: Inbox) {
    TablesHomed(home, r.st.tables) && TargetOk(names, r.st.target) && QueueHomed(names, home, r.queue)
  }

  lemma {:induction false} ResolvedHome(closed: set<Chan>, st: State, p: Packet, names: Names, home: Homes)
    requires TruthfulPacket(names, home, p) && TargetOk(names, st.target)
    ensures var l := ResolveAll(closed, st, p);
            && AllHomed(home, l.embeds) && TargetOk(names, l.st.target) && l.st.tables == st.tables
            && Connects(l.out)
  {
    if p != [] {
      var n := |p| - 1;
      assert forall i | 0 <= i < n :: p[..n][i] == p[i];
      ResolvedHome(closed, st, p[..n], names, home);
      assert Truthful(names, home, p[n]);
    }
  }

  lemma PushHomed(home: Homes, d: Tables<Endpoint>, tx: Tx, item: Item<Endpoint>)
    requires TablesHomed(home, d) && d.Accepts(tx) && ItemHomed(home, item)
    ensures TablesHomed(home, d.Push(tx, item))
  {
    assert ItemsHomed(home, d.local[tx]);
  }

  lemma FinishHomed(home: Homes, d: Tables<Endpoint>, c: SubChannelId, next: (SM<Endpoint>, Option<Tx>))
    requires TablesHomed(home, d)
    ensures TablesHomed(home, Finish(d, c, next).tables)
  {
    var d' := d.Update(c, next.0);
    if next.1.Some? && d'.Accepts(next.1.value) {
      PushHomed(home, d', next.1.value, Marker(c));
    }
  }

  lemma DataHomed(home: Homes, d: Tables<Endpoint>, c: SubChannelId, payload: Payload, senders: seq<Embed<Endpoint>>)
    requires TablesHomed(home, d) && AllHomed(home, senders)
    ensures TablesHomed(home, ActData(d, c, payload, senders, true).tables)
  {
    if c in d.subChannels && d.subChannels[c].maybe.Some? && d.Accepts(d.subChannels[c].maybe.value) {
      PushHomed(home, d, d.subChannels[c].maybe.value, Resolved(c, payload, senders));
    }
  }

  lemma ActHomed(home: Homes, d: Tables<Endpoint>, msg: MultiMessage<Endpoint>)
    requires TablesHomed(home, d) && !msg.Data?
    ensures TablesHomed(home, Act(d, msg, true).tables) && Act(d, msg, true).out == []
  {
    hide Finish, TablesHomed;
    assert TablesHomed(home, d) by {
    }
    match msg
    case ReceiveFailed(c, via) =>
      if c in d.subChannels {
        FinishHomed(home, d, c, d.subChannels[c].ReceiveFailed(via));
        FinishKeys(d, c, d.subChannels[c].ReceiveFailed(via));
      }
    case Disconnect(c, source) =>
      if c in d.subChannels {
        FinishHomed(home, d, c, d.subChannels[c].Disconnect(source));
        FinishKeys(d, c, d.subChannels[c].Disconnect(source));
      }
    case _ => SameLocal(home, d, Act(d, msg, true).tables);
  }

  lemma SameLocal(home: Homes, d: Tables<Endpoint>, d': Tables<Endpoint>)
    requires TablesHomed(home, d) && d'.local == d.local
    ensures TablesHomed(home, d')
  {
  }

  /** Mail that refers to no sender. */
  predicate Bare(mail: seq<Mail>) {
    forall i | 0 <= i < |mail| :: PacketOf(mail[i].msg) == []
  }

  lemma {:induction false} OwnBare(me: Chan, closed: set<Chan>, mail: seq<Mail>)
    requires Bare(mail)
    ensures forall i | 0 <= i < |Own(me, Open(closed, mail))| :: PacketOf(Own(me, Open(closed, mail))[i]) == []
  {
    forall i | 0 <= i < |Own(me, Open(closed, mail))| ensures PacketOf(Own(me, Open(closed, mail))[i]) == [] {
      var msg := Own(me, Open(closed, mail))[i];
      assert multiset(Own(me, Open(closed, mail)))[msg] > 0;
      OwnIff(me, Open(closed, mail), msg);
      OpenIff(closed, mail, Mail(me, msg));
      assert Mail(me, msg) in mail;
    }
  }

  lemma MessageHomed(closed: set<Chan>, st: State, msg: WireMessage, names: Names, home: Homes)
    requires TablesHomed(home, st.tables) && TargetOk(names, st.target) && TruthfulPacket(names, home, PacketOf(msg))
    ensures var s := OnMessage(closed, st, msg, true);
            TablesHomed(home, s.st.tables) && TargetOk(names, s.st.target) && Bare(s.out)
  {
    match msg {
      case Connect(_) =>
      case Data(c, payload, senders) =>
        ResolvedHome(closed, st, senders, names, home);
        var l := ResolveAll(closed, st, senders);
        hide ResolveAll, TablesHomed, TargetOk, AllHomed;
        if l.error.None? {
          DataHomed(home, l.st.tables, c, payload, l.embeds);
        }
      case Sending(c, via, viaChan) => SendingHomed(closed, st, msg, names, home);
      case _ =>
        ActHomed(home, st.tables, Plain(msg));
        hide Act;
    }
  }

  lemma SendingHomed(closed: set<Chan>, st: State, msg: WireMessage, names: Names, home: Homes)
    requires msg.Sending? && TablesHomed(home, st.tables) && TargetOk(names, st.target)
    requires TruthfulPacket(names, home, PacketOf(msg))
    ensures var s := OnMessage(closed, st, msg, true);
            TablesHomed(home, s.st.tables) && TargetOk(names, s.st.target) && Bare(s.out)
  {
    var l := Resolve(closed, st, msg.viaChan);
    assert Truthful(names, home, PacketOf(msg)[0]);
    if l.result.Ok? {
      ActHomed(home, l.st.tables, MultiMessage<Endpoint>.Sending(msg.scid, msg.via, l.result.value));
    } else if msg.scid in st.tables.subChannels {
      FinishHomed(home, st.tables, msg.scid, st.tables.subChannels[msg.scid].Refuse(msg.via, AlwaysFailing));
      FinishKeys(st.tables, msg.scid, st.tables.subChannels[msg.scid].Refuse(msg.via, AlwaysFailing));
    }
    hide Act, Finish, TablesHomed;
  }

  lemma AdvanceHomed(me: Chan, closed: set<Chan>, r: Inbox, names: Names, home: Homes)
    requires InboxHomed(names, home, r) && r.queue != []
    ensures InboxHomed(names, home, Advance(me, closed, r).0)
  {
    var s := Advance(me, closed, r).1;
    MessageHomed(closed, r.st, r.queue[0], names, home);
    OwnBare(me, closed, s.out);
    hide TablesHomed, TargetOk, OnMessage, Own, Bare;
    var q := Advance(me, closed, r).0.queue;
    forall i | 0 <= i < |q| ensures TruthfulPacket(names, home, PacketOf(q[i])) {
      assert i < |r.queue| - 1 ==> q[i] == r.queue[i + 1];
    }
  }

  lemma {:induction false} DrainHomed(me: Chan, closed: set<Chan>, r: Inbox, names: Names, home: Homes)
    requires InboxHomed(names, home, r) && UuidsMatch(r.st.target)
    ensures InboxHomed(names, home, Drain(me, closed, r).inbox)
    decreases Weight(r.queue)
  {
    if r.queue != [] {
      AdvanceHomed(me, closed, r, names, home);
      if Advance(me, closed, r).1.result.Ok? {
        AdvanceShrinks(me, closed, r);
        DrainHomed(me, closed, Advance(me, closed, r).0, names, home);
      }
    }
  }

  // ---------------------------------------------------------------------------------------
  // The answers
  // ---------------------------------------------------------------------------------------

  /** The subsenders in demultiplexed messages. */
  function Held(items: seq<Item<Endpoint>>): seq<Embed<Endpoint>> {
    if items == [] then [] else (if items[0].Resolved? then items[0].senders else []) + Held(items[1..])
  }

  lemma {:induction false} HeldIsHomed(home: Homes, items: seq<Item<Endpoint>>)
    requires ItemsHomed(home, items)
    ensures AllHomed(home, Held(items))
  {
    if items != [] {
      assert ItemHomed(home, items[0]);
      HeldIsHomed(home, items[1..]);
    }
  }

  lemma {:induction false} FlushedIsHeld(items: seq<Item<Endpoint>>, c: SubChannelId, closed: bool)
    requires MarkedLast(items, c, closed)
    ensures Flushed(items) == Held(items)
  {
    if items != [] {
      assert forall i | 0 <= i < |items| - 1 :: items[1..][i] == items[i + 1];
      if items[0].Marker? {
        assert items[1..] == [];
      } else {
        FlushedIsHeld(items[1..], c, closed);
      }
    }
  }

  /**
   When the receiver of `c` is dropped, each subsender in the messages it then holds is answered on
   its own connection, once and in order: that it was not received, and which carrier it was on.
   */
  lemma AnsweredOnOwnConnection(me: Chan, closed: set<Chan>, r: Inbox, c: SubChannelId, arrivals: seq<WireMessage>)
    requires Tidy(r.st) && c in r.st.tables.subChannels
    ensures var d := DropReceiver(me, closed, r, c, arrivals);
            && c in d.second.inbox.st.tables.local
            && var held := Held(d.second.inbox.st.tables.local[c]);
               && |d.failures| == |held|
               && forall i | 0 <= i < |held| ::
                    d.failures[i] == Mail(held[i].sender.chan, ReceiveFailed(held[i].scid, c))
  {
    DropTidy(me, closed, r, c, arrivals, c);
    var d := DropReceiver(me, closed, r, c, arrivals);
    var tables := d.second.inbox.st.tables;
    assert TidyAt(tables, c) && d.failures == Posted(Failures(Flushed(tables.local[c]), c));
    FlushedIsHeld(tables.local[c], c, tables.subChannels[c].maybe.None?);
    hide DropReceiver, Flushed, Held;
  }

  /**
   If what the receiver was sent is truthful, each answer goes to the channel on which the
   subchannel in question was created.
   */
  lemma AnsweredAtHome(me: Chan, closed: set<Chan>, r: Inbox, c: SubChannelId, arrivals: seq<WireMessage>,
                       names: Names, home: Homes)
    requires Tidy(r.st) && c in r.st.tables.subChannels
    requires InboxHomed(names, home, r) && QueueHomed(names, home, arrivals)
    ensures var d := DropReceiver(me, closed, r, c, arrivals);
            forall i | 0 <= i < |d.failures| ::
              && d.failures[i].msg.ReceiveFailed? && d.failures[i].msg.via == c
              && d.failures[i].msg.scid in home && d.failures[i].to == home[d.failures[i].msg.scid]
  {
    AnsweredOnOwnConnection(me, closed, r, c, arrivals);
    SecondHomed(me, closed, r, c, arrivals, names, home);
    var d := DropReceiver(me, closed, r, c, arrivals);
    hide DropReceiver, Held;
    var items := d.second.inbox.st.tables.local[c];
    assert ItemsHomed(home, items);
    HeldIsHomed(home, items);
    forall i | 0 <= i < |d.failures| ensures Homed(home, Held(items)[i]) {
    }
  }

  lemma SecondHomed(me: Chan, closed: set<Chan>, r: Inbox, c: SubChannelId, arrivals: seq<WireMessage>,
                    names: Names, home: Homes)
    requires Tidy(r.st) && c in r.st.tables.subChannels
    requires InboxHomed(names, home, r) && QueueHomed(names, home, arrivals)
    ensures InboxHomed(names, home, DropReceiver(me, closed, r, c, arrivals).second.inbox)
  {
    DropTidy(me, closed, r, c, arrivals, c);
    var told := Reopened(me, closed, r, c, arrivals);
    DrainHomed(me, closed, r, names, home);
    hide Tidy, Drain, TruthfulPacket, TablesHomed, TargetOk;
    DrainHomed(me, closed, told, names, home);
  }

  /** An answer reaches its channel if that is open; the receiver's own channel has it in its queue. */
  lemma AnswersArrive(me: Chan, closed: set<Chan>, r: Inbox, c: SubChannelId, arrivals: seq<WireMessage>, i: nat)
    requires Tidy(r.st) && c in r.st.tables.subChannels
    requires i < |DropReceiver(me, closed, r, c, arrivals).failures|
    ensures var d := DropReceiver(me, closed, r, c, arrivals);
            var answer := d.failures[i];
            && (answer in Open(closed, d.failures) <==> answer.to !in closed)
            && (answer.to == me && me !in closed ==> answer.msg in d.inbox.queue)
  {
    var d := DropReceiver(me, closed, r, c, arrivals);
    assert d.inbox.queue == d.second.inbox.queue + Own(me, Open(closed, d.failures));
    hide DropReceiver, Tidy;
    var answer := d.failures[i];
    OpenIff(closed, d.failures, answer);
    OwnIff(me, Open(closed, d.failures), answer.msg);
  }

  // ---------------------------------------------------------------------------------------
  // What comes too late
  // ---------------------------------------------------------------------------------------

  /** After a receiver has been dropped, every data message for it fails. */
  lemma NothingAfterDrop(me: Chan, closed: set<Chan>, r: Inbox, c: SubChannelId, arrivals: seq<WireMessage>,
                         late: set<Chan>, msg: WireMessage)
    requires Tidy(r.st) && c in r.st.tables.subChannels && msg.Data? && msg.scid == c
    ensures var st := DropReceiver(me, closed, r, c, arrivals).inbox.st;
            && OnMessage(late, st, msg, true).result.Err? && c in st.tables.local && st.tables.local[c] == []
            && OnMessage(late, st, msg, true).st.tables == st.tables
  {
    DropTidy(me, closed, r, c, arrivals, c);
    var d := DropReceiver(me, closed, r, c, arrivals);
    assert TidyAt(d.second.inbox.st.tables, c);
    assert d.inbox.st == HangUp(d.second.inbox.st, c);
    hide DropReceiver, Tidy;
    FailsExactly(late, d.inbox.st, msg, true);
    ResolvesUpTo(late, d.inbox.st, msg.senders);
    hide ResolveAll, FirstBroken;
  }

  // ---------------------------------------------------------------------------------------
  // What handling a message sends
  // ---------------------------------------------------------------------------------------

  /** The mail is what resolving the references sent, and then an answer for each subsender. */
  predicate Answered(out: seq<Mail>, connects: seq<Mail>, senders: seq<Embed<Endpoint>>, via: SubChannelId) {
    && |out| == |connects| + |senders| && out[..|connects|] == connects
    && forall i | 0 <= i < |senders| ::
         out[|connects| + i] == Mail(senders[i].sender.chan, ReceiveFailed(senders[i].scid, via))
  }

  /**
   In either form, only a data message for an unknown subchannel is answered, for each of its
   subsenders, on their own connections. All that is sent otherwise are connections; and the
   subsenders of a data message are given up exactly if it does not get into a local queue.
   */
  lemma OnlyUnknownIsAnswered(closed: set<Chan>, st: State, msg: WireMessage, strict: bool)
    ensures var s, l := OnMessage(closed, st, msg, strict), ResolveAll(closed, st, PacketOf(msg));
            if !msg.Data? then s.dropped == [] && s.out == l.out
            else if l.error.Some? then s.dropped == l.embeds && s.out == l.out
            else
              && (if msg.scid in st.tables.subChannels then s.out == l.out
                  else Answered(s.out, l.out, l.embeds, msg.scid))
              && s.dropped == if s.st.tables.local == st.tables.local then l.embeds else []
  {
    if msg.Data? {
      ResolvesUpTo(closed, st, msg.senders);
      var l := ResolveAll(closed, st, msg.senders);
      DataGoes(l.st.tables, msg.scid, msg.payload, l.embeds, strict);
      hide ResolveAll, FirstBroken, ActData;
    } else if msg.Sending? {
      OneResolved(closed, st, msg);
      SendingSends(closed, st, msg);
    } else {
      PlainSends(st.tables, if msg.Connect? then SubChannelName(0) else Plain(msg), strict);
      hide Act;
    }
  }

  lemma DataGoes(d: Tables<Endpoint>, c: SubChannelId, payload: Payload, senders: seq<Embed<Endpoint>>, strict: bool)
    ensures var h := ActData(d, c, payload, senders, strict);
            && h.dropped == (if h.tables.local == d.local then senders else [])
            && h.out == if c in d.subChannels then [] else Failures(senders, c)
  {
    if c in d.subChannels && d.subChannels[c].maybe.Some? && d.Accepts(d.subChannels[c].maybe.value) {
      var tx, items := d.subChannels[c].maybe.value, d.local[d.subChannels[c].maybe.value];
      assert d.Push(tx, Resolved(c, payload, senders)).local[tx] == items + [Resolved(c, payload, senders)] != items;
    }
  }

  lemma OneResolved(closed: set<Chan>, st: State, msg: WireMessage)
    requires msg.Sending?
    ensures ResolveAll(closed, st, PacketOf(msg)).out == Resolve(closed, st, msg.viaChan).out
  {
    var p := PacketOf(msg);
    assert p[..0] == [];
    assert ResolveAll(closed, st, p) == ResolveNext(closed, ResolveAll(closed, st, p[..0]), p[0]);
    assert [] + Resolve(closed, st, msg.viaChan).out == Resolve(closed, st, msg.viaChan).out;
  }

  lemma SendingSends(closed: set<Chan>, st: State, msg: WireMessage)
    requires msg.Sending?
    ensures var s := OnSending(closed, st, msg.scid, msg.via, msg.viaChan);
            s.dropped == [] && s.out == Resolve(closed, st, msg.viaChan).out
  {
    var l := Resolve(closed, st, msg.viaChan);
    assert l.out + [] == l.out;
    if l.result.Ok? {
      PlainSends(l.st.tables, MultiMessage<Endpoint>.Sending(msg.scid, msg.via, l.result.value), true);
    }
    hide Machine.Refuse, Act;
  }

  lemma PlainSends(d: Tables<Endpoint>, msg: MultiMessage<Endpoint>, strict: bool)
    requires !msg.Data?
    ensures Act(d, msg, strict).out == [] && Act(d, msg, strict).dropped == []
  {
    hide Machine.ReceiveFailed, Machine.Disconnect;
  }

  // ---------------------------------------------------------------------------------------
  // Connecting
  // ---------------------------------------------------------------------------------------

  /** The connections made for a packet have the clients from `first` on, each of them announced on its way. */
  predicate NewClients(first: ClientId, p: Packet, l: Lookups) {
    && l.st.supply == first + |l.out| && |l.embeds| <= |p| && (l.error.None? ==> |l.embeds| == |p|)
    && (forall i | 0 <= i < |l.out| :: l.out[i].msg == Connect(first + i))
    && (forall i | 0 <= i < |l.embeds| && p[i].sender.Full? ::
          && first <= l.embeds[i].sender.client < l.st.supply
          && l.out[l.embeds[i].sender.client - first].to == l.embeds[i].sender.chan == p[i].sender.chan)
    && (forall i, j | 0 <= i < j < |l.embeds| && p[i].sender.Full? && p[j].sender.Full? ::
          l.embeds[i].sender.client < l.embeds[j].sender.client)
  }

  lemma NewClientNext(closed: set<Chan>, first: ClientId, p: Packet, l: Lookups, e: Embed<Ref>)
    requires NewClients(first, p, l)
    ensures NewClients(first, p + [e], ResolveNext(closed, l, e))
  {
    var next := ResolveNext(closed, l, e);
    assert forall i | 0 <= i < |l.embeds| :: next.embeds[i] == l.embeds[i] && (p + [e])[i] == p[i];
  }

  /**
   Connecting to a sender announces just the client that the connection then has, which is a new
   one; so no two connections that a message makes share their client.
   */
  lemma {:induction false} ClientsAreNew(closed: set<Chan>, st: State, p: Packet)
    ensures NewClients(st.supply, p, ResolveAll(closed, st, p))
  {
    if p != [] {
      var n := |p| - 1;
      ClientsAreNew(closed, st, p[..n]);
      NewClientNext(closed, st.supply, p[..n], ResolveAll(closed, st, p[..n]), p[n]);
      assert p[..n] + [p[n]] == p;
    }
  }
}
