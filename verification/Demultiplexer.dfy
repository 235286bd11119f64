/** The demultiplexer with the tables it updates in place (`Demuxer` in `src/mux/demux.rs`). */
module Demultiplexer {
  import opened Basics
  import opened Protocol
  import opened SubchannelLifecycle
  import opened Demux
  import opened Wire
  import SenderId

  type Machines = map<SubChannelId, SubSenderStateMachine<Tx, Source, SubChannelId, Probe<Endpoint>>>

  /**
   The demultiplexer with its state machines as objects. `local` and `hungUp` are the local
   queues it sends to, `closed` the channels nobody receives on, and `sent` everything it ever
   sent.
   */
  class Demuxer {
    var subChannels: Machines
    var ipcSenders: set<ClientId>
    const ipcSendersById: SenderId.Target<Endpoint>
    var local: map<Tx, seq<Item<Endpoint>>>
    var hungUp: set<Tx>
    var supply: ClientId
    var closed: set<Chan>
    var sent: seq<Mail>

    ghost predicate Valid()
      reads this
    {
      forall c, d | c in subChannels && d in subChannels && c != d :: subChannels[c] != subChannels[d]
    }

    ghost function Repr(): set<object>
      reads this
    {
      {this, ipcSendersById} + subChannels.Values
    }

    ghost function Tables(): Tables<Endpoint>
      reads this, subChannels.Values
    {
      Demux.Tables(map c | c in subChannels :: subChannels[c].State(), local, hungUp)
    }

    ghost function View(): State
      reads this, ipcSendersById, subChannels.Values
    {
      State(Tables(), ipcSendersById.senders, ipcSenders, supply)
    }

    constructor ()
      ensures Valid() && fresh(Repr())
      ensures View() == State(Demux.Tables(map[], map[], {}), map[], {}, 0)
    {
      subChannels := map[];
      ipcSenders := {};
      ipcSendersById := new SenderId.Target();
      local := map[];
      hungUp := {};
      supply := 0;
      closed := {};
      sent := [];
    }

    /** A sender of the local queue `tx` sends an item. */
    method Push(tx: Tx, item: Item<Endpoint>) returns (ok: bool)
      modifies this`local
      ensures ok == old(Tables()).Accepts(tx)
      ensures Tables() == if ok then old(Tables()).Push(tx, item) else old(Tables())
    {
      ok := tx in local && tx !in hungUp;
      if ok {
        local := local[tx := local[tx] + [item]];
      }
    }

    /** What a receiver leaves in its local queue. */
    method SetLocal(c: SubChannelId, items: seq<Item<Endpoint>>)
      modifies this`local
      ensures View() == Wire.SetLocal(old(View()), c, items)
    {
      local := local[c := items];
    }

    /** A receiver is gone, and its end of the local queue with it. */
    method HangUp(c: SubChannelId)
      modifies this`local, this`hungUp
      ensures View() == Wire.HangUp(old(View()), c)
    {
      local := local[c := []];
      hungUp := hungUp + {c};
    }

    /** A message enters the IPC channel, unless that is closed. */
    method SendMessage(ch: Chan, msg: WireMessage) returns (ok: bool)
      modifies this`sent
      ensures View() == old(View()) && ok == (ch !in closed)
      ensures sent == if ok then old(sent) + [Mail(ch, msg)] else old(sent)
    {
      ok := ch !in closed;
      if ok {
        sent := sent + [Mail(ch, msg)];
      }
    }

    method IpcSenderFromSenderAndOrId(ref: Ref) returns (result: Result<Endpoint>)
      modifies this`supply, this`sent, ipcSendersById
      ensures var l := Resolve(closed, old(View()), ref);
              View() == l.st && sent == old(sent) + l.out && result == l.result
    {
      match ref
      case Full(ch, id) =>
        var ok := SendMessage(ch, Connect(supply));
        if !ok {
          return Err(IpcError);
        }
        var ep := Endpoint(ch, id, supply);
        supply := supply + 1;
        ipcSendersById.Add(id, ep);
        return Ok(ep);
      case ById(id) =>
        var found := ipcSendersById.LookUp(id);
        match found {
          case Some(ep) => return Ok(ep);
          case None => return Err(Disconnected);
        }
    }

    /** The references of a data message are resolved one after the other. */
    method ResolveSenders(senders: seq<Embed<Ref>>)
      returns (embeds: seq<Embed<Endpoint>>, error: Option<MuxError>)
      modifies this`supply, this`sent, ipcSendersById
      ensures var l := ResolveAll(closed, old(View()), senders);
              View() == l.st && sent == old(sent) + l.out && embeds == l.embeds && error == l.error
    {
      embeds, error := [], None;
      var i := 0;
      while i < |senders|
        invariant 0 <= i <= |senders|
        invariant error == None
        invariant var l := ResolveAll(closed, old(View()), senders[..i]);
                  View() == l.st && sent == old(sent) + l.out && embeds == l.embeds && error == l.error
      {
        assert senders[..i + 1][..i] == senders[..i];
        var result := IpcSenderFromSenderAndOrId(senders[i].sender);
        match result
        case Err(e) =>
          error := Some(e);
          ResolveStops(closed, old(View()), senders, i + 1);
          return;
        case Ok(ep) =>
          embeds := embeds + [Embed(senders[i].scid, ep)];
        i := i + 1;
      }
      assert senders[..i] == senders;
    }

    /** The subsenders of a message are reported as not received. */
    method SendReceiveFailed(srs: seq<Embed<Endpoint>>, via: SubChannelId)
      modifies this`sent
      ensures View() == old(View())
      ensures sent == old(sent) + Open(closed, Posted(Failures(srs, via)))
    {
      hide Tables, View, Open;
      NoneOpen(closed, Posted(Failures(srs, via)));
      var i := 0;
      while i < |srs|
        invariant 0 <= i <= |srs| && View() == old(View())
        invariant sent == old(sent) + Open(closed, Posted(Failures(srs, via))[..i])
      {
        var _ := SendMessage(srs[i].sender.chan, ReceiveFailed(srs[i].scid, via));
        OpenNext(closed, Posted(Failures(srs, via)), i);
        i := i + 1;
      }
      assert Posted(Failures(srs, via))[..i] == Posted(Failures(srs, via));
    }

    /** Takes the first message out of a local queue and reports the subsenders inside as not received. */
    method FlushFirst(c: SubChannelId, items: seq<Item<Endpoint>>, ghost st: State, ghost mail: seq<Mail>,
                      ghost flushed: seq<Embed<Endpoint>>)
      requires items != [] && items[0].Resolved? && View() == Wire.SetLocal(st, c, items)
      requires sent == mail + Open(closed, Posted(Failures(flushed, c)))
      modifies this`local, this`sent
      ensures View() == Wire.SetLocal(st, c, items[1..])
      ensures sent == mail + Open(closed, Posted(Failures(flushed + items[0].senders, c)))
    {
      FailuresConcat(closed, flushed, items[0].senders, c);
      SetLocalTwice(st, c, items, items[1..]);
      hide Open, Posted, Failures, Tables, View, Wire.SetLocal;
      SendReceiveFailed(items[0].senders, c);
      SetLocal(c, items[1..]);
    }

    /**
     The receiver of `c` goes. The messages in its local queue are taken out and the subsenders
     inside are reported as not received.
     */
    method Discard(c: SubChannelId) returns (flushed: seq<Embed<Endpoint>>)
      requires c in View().tables.local
      modifies this`local, this`hungUp, this`sent
      ensures View() == Wire.HangUp(old(View()), c)
      ensures flushed == Flushed(old(View()).tables.local[c])
      ensures sent == old(sent) + Open(closed, Posted(Failures(flushed, c)))
    {
      flushed := [];
      var items := local[c];
      FailuresNone(closed, c);
      SetLocalSame(View(), c);
      ghost var st, all, mail := View(), items, sent;
      assert all == st.tables.local[c];
      hide Open, Posted, Failures, Tables, View, Wire.HangUp, Wire.SetLocal;
      while items != [] && items[0].Resolved?
        invariant View() == Wire.SetLocal(st, c, items)
        invariant Flushed(all) == flushed + Flushed(items)
        invariant sent == mail + Open(closed, Posted(Failures(flushed, c)))
        decreases |items|
      {
        FlushFirst(c, items, st, mail, flushed);
        flushed := flushed + items[0].senders;
        items := items[1..];
      }
      HangUpAnyway(st, c, items);
      HangUp(c);
    }

    /** A resolved data message goes to the local queue of its subchannel. */
    method Deliver(scid: SubChannelId, payload: Payload, srs: seq<Embed<Endpoint>>, strict: bool)
      returns (result: Result<()>, dropped: seq<Embed<Endpoint>>)
      modifies this`sent, this`local
      ensures var h := ActData(old(Tables()), scid, payload, srs, strict);
              Tables() == h.tables && result == h.result && dropped == h.dropped
              && sent == old(sent) + Open(closed, Posted(h.out))
    {
      if scid !in subChannels {
        SendReceiveFailed(srs, scid);
        return Err(if strict then InternalError else Disconnected), srs;
      }
      var tx := subChannels[scid].Send();
      if tx.None? {
        return Err(Disconnected), srs;
      }
      var ok := Push(tx.value, Resolved(scid, payload, srs));
      if ok {
        return Ok(()), [];
      }
      return if strict then Err(Disconnected) else Ok(()), srs;
    }

    /** `handle` for a data message, or `send` if not `strict`. */
    method HandleData(scid: SubChannelId, payload: Payload, senders: seq<Embed<Ref>>, strict: bool)
      returns (result: Result<()>, dropped: seq<Embed<Endpoint>>)
      modifies this`supply, this`sent, this`local, ipcSendersById
      ensures var s := OnData(closed, old(View()), scid, payload, senders, strict);
              Step(View(), result, s.out, dropped) == s && sent == old(sent) + Open(closed, s.out)
    {
      OnDataOpen(closed, View(), scid, payload, senders, strict);
      hide ActData, ResolveAll, Open, Posted;
      var srs, error := ResolveSenders(senders);
      if error.Some? {
        result, dropped := Err(error.value), srs;
      } else {
        result, dropped := Deliver(scid, payload, srs, strict);
      }
    }

    /** The marker goes to the local queue once a machine has handed out its sender. */
    method SendMarker(handed: Option<Tx>, scid: SubChannelId) returns (result: Result<()>)
      modifies this`local
      ensures Silent(Tables(), result) == match handed
                                          case None => Silent(old(Tables()), Ok(()))
                                          case Some(tx) =>
                                            if old(Tables()).Accepts(tx)
                                            then Silent(old(Tables()).Push(tx, Marker(scid)), Ok(()))
                                            else Silent(old(Tables()), Err(Disconnected))
    {
      match handed
      case None => return Ok(());
      case Some(tx) =>
        var ok := Push(tx, Marker(scid));
        return if ok then Ok(()) else Err(Disconnected);
    }

    /** Moving one state machine on changes one entry of the tables. */
    twostate lemma OneMoved(scid: SubChannelId)
      requires old(Valid()) && scid in subChannels
      requires subChannels == old(subChannels) && local == old(local) && hungUp == old(hungUp)
      requires forall c | c in subChannels && c != scid :: unchanged(subChannels[c])
      ensures scid in old(Tables()).subChannels && old(Tables()).subChannels[scid] == old(subChannels[scid].State())
      ensures Tables() == old(Tables()).Update(scid, subChannels[scid].State())
    {
    }

    /** A state machine moves on; the other subchannels are not affected. */
    method MoveReceiveFailed(scid: SubChannelId, via: SubChannelId) returns (handed: Option<Tx>)
      requires Valid() && scid in subChannels
      modifies subChannels[scid]
      ensures (Tables(), handed) == var (m, t) := old(Tables()).subChannels[scid].ReceiveFailed(via);
                                    (old(Tables()).Update(scid, m), t)
    {
      handed := subChannels[scid].ReceiveFailed(via);
      OneMoved(scid);
    }

    method MoveDisconnect(scid: SubChannelId, source: Protocol.Source) returns (handed: Option<Tx>)
      requires Valid() && scid in subChannels
      modifies subChannels[scid]
      ensures (Tables(), handed) == var (m, t) := old(Tables()).subChannels[scid].Disconnect(source);
                                    (old(Tables()).Update(scid, m), t)
    {
      handed := subChannels[scid].Disconnect(source);
      OneMoved(scid);
    }

    method MoveToBeSent(scid: SubChannelId, via: SubChannelId, probe: Probe<Endpoint>)
      requires Valid() && scid in subChannels
      modifies subChannels[scid]
      ensures Tables() == old(Tables()).Update(scid, old(Tables()).subChannels[scid].ToBeSent(via, probe))
    {
      subChannels[scid].ToBeSent(via, probe);
      OneMoved(scid);
    }

    method MoveRefused(scid: SubChannelId, via: SubChannelId) returns (handed: Option<Tx>)
      requires Valid() && scid in subChannels
      modifies subChannels[scid]
      ensures (Tables(), handed)
              == var (m, t) := old(Tables()).subChannels[scid].ToBeSent(via, AlwaysFailing).ReceiveFailed(via);
                 (old(Tables()).Update(scid, m), t)
    {
      ghost var d := Tables();
      assert scid in d.subChannels;
      ghost var m := d.subChannels[scid].ToBeSent(via, AlwaysFailing);
      UpdateTwice(d, scid, m, m.ReceiveFailed(via).0);
      hide Tables;
      MoveToBeSent(scid, via, AlwaysFailing);
      handed := MoveReceiveFailed(scid, via);
    }

    method MoveReceived(scid: SubChannelId, via: SubChannelId, newSource: Protocol.Source)
      requires Valid() && scid in subChannels
      modifies subChannels[scid]
      ensures Tables() == old(Tables()).Update(scid, old(Tables()).subChannels[scid].Received(via, newSource))
    {
      subChannels[scid].Received(via, newSource);
      OneMoved(scid);
    }

    method HandleReceiveFailed(scid: SubChannelId, via: SubChannelId) returns (result: Result<()>)
      requires Valid()
      modifies this`local, subChannels.Values
      ensures Silent(Tables(), result) == ActReceiveFailed(old(Tables()), scid, via)
    {
      result := Ok(());
      if scid in subChannels {
        var handed := MoveReceiveFailed(scid, via);
        result := SendMarker(handed, scid);
      }
    }

    method HandleDisconnect(scid: SubChannelId, source: Protocol.Source) returns (result: Result<()>)
      requires Valid()
      modifies this`local, subChannels.Values
      ensures Silent(Tables(), result) == ActDisconnect(old(Tables()), scid, source)
    {
      result := Ok(());
      if scid in subChannels {
        var handed := MoveDisconnect(scid, source);
        result := SendMarker(handed, scid);
      }
    }

    /** The part of `Sending` after the carrier's IPC sender has been looked up. */
    method Announce(scid: SubChannelId, via: SubChannelId, ipcSender: Result<Endpoint>) returns (result: Result<()>)
      requires Valid()
      modifies this`local, subChannels.Values
      ensures Silent(Tables(), result) == match ipcSender
                                          case Ok(ep) =>
                                            Silent(ActToBeSent(old(Tables()), scid, via, OnResponses(ep)), Ok(()))
                                          case Err(_) => Refused(old(Tables()), scid, via)
    {
      result := Ok(());
      if scid in subChannels {
        match ipcSender
        case Ok(ep) => MoveToBeSent(scid, via, OnResponses(ep));
        case Err(_) =>
          var handed := MoveRefused(scid, via);
          result := SendMarker(handed, scid);
      }
    }

    method HandleSending(scid: SubChannelId, via: SubChannelId, viaChan: Ref) returns (result: Result<()>)
      requires Valid()
      modifies this`supply, this`sent, this`local, ipcSendersById, subChannels.Values
      ensures var s := OnSending(closed, old(View()), scid, via, viaChan);
              Step(View(), result, s.out, []) == s && sent == old(sent) + s.out
    {
      var ipcSender := IpcSenderFromSenderAndOrId(viaChan);
      result := Announce(scid, via, ipcSender);
    }

    method HandleConnect(client: ClientId)
      modifies this`ipcSenders
      ensures Tables() == old(Tables()) && ipcSenders == old(ipcSenders) + {client}
    {
      ipcSenders := ipcSenders + {client};
    }

    /** A message without references to IPC senders. */
    method HandlePlain(msg: WireMessage) returns (result: Result<()>)
      requires Valid() && !msg.Data? && !msg.Sending? && !msg.Connect?
      modifies this`local, subChannels.Values
      ensures Silent(Tables(), result) == Act(old(Tables()), Plain(msg), true)
    {
      result := Ok(());
      match msg {
        case SubChannelName(_) => result := Err(InternalError);
        case SendingViaIpcChannel(scid, n) =>
          if scid in subChannels {
            MoveToBeSent(scid, EMPTY_SUBCHANNEL_ID, OnKeepalive(n));
          }
        case Received(scid, via, newSource) =>
          if scid in subChannels {
            MoveReceived(scid, via, newSource);
          }
        case ReceiveFailed(scid, via) => result := HandleReceiveFailed(scid, via);
        case Disconnect(scid, source) => result := HandleDisconnect(scid, source);
      }
    }

    /** `handle`, or with `strict` false the form that a receiver set uses for data messages. */
    method Handle(msg: WireMessage, strict: bool) returns (result: Result<()>, dropped: seq<Embed<Endpoint>>)
      requires Valid()
      modifies this`ipcSenders, this`supply, this`sent, this`local, ipcSendersById, subChannels.Values
      ensures var s := OnMessage(closed, old(View()), msg, strict);
              Step(View(), result, s.out, dropped) == s && sent == old(sent) + Open(closed, s.out)
    {
      hide Tables, OnData, OnSending, ActReceived, ActToBeSent, ActReceiveFailed, ActDisconnect;
      dropped := [];
      match msg {
        case Connect(client) =>
          HandleConnect(client);
          result := Ok(());
        case Data(scid, payload, senders) =>
          result, dropped := HandleData(scid, payload, senders, strict);
        case Sending(scid, via, viaChan) =>
          OnSendingOpen(closed, View(), scid, via, viaChan);
          result := HandleSending(scid, via, viaChan);
        case _ =>
          result := HandlePlain(msg);
      }
    }

    method PollOne(c: SubChannelId, alive: Probe<Endpoint> -> bool) returns (gaveUp: bool)
      requires Valid() && OwnQueues(Tables()) && c in subChannels
      modifies this`local, subChannels[c]
      ensures Tables() == Polled(old(Tables()), c, alive)
      ensures gaveUp <==> GivesUp(old(Tables()).subChannels[c], alive)
    {
      var open, handed, _ := subChannels[c].Poll(Answers(alive));
      OneMoved(c);
      gaveUp := !open;
      if handed.Some? {
        var _ := Push(handed.value, Marker(c));
      }
    }

    /**
     Polls every subchannel once. `alive` is what probes answer meanwhile. The result says
     whether some machine gave its sender away.
     */
    method PollAllSubchannels(alive: Probe<Endpoint> -> bool) returns (probeFailed: bool)
      requires Valid() && OwnQueues(Tables())
      modifies this`local, subChannels.Values
      ensures AllPolled(old(Tables()), Tables(), {}, alive)
      ensures probeFailed <==> SomeGiveUp(old(Tables()), {}, alive)
    {
      probeFailed := false;
      var todo := subChannels.Keys;
      ghost var d := Tables();
      NonePolled(d, alive);
      assert todo == d.subChannels.Keys;
      hide AllPolled, SomeGiveUp, GivesUp, Polled;
      while todo != {}
        invariant todo <= d.subChannels.Keys
        invariant AllPolled(d, Tables(), todo, alive)
        invariant probeFailed <==> SomeGiveUp(d, todo, alive)
        decreases todo
      {
        var c :| c in todo;
        AllPolledOwn(d, Tables(), todo, alive);
        PolledNext(d, Tables(), todo, c, alive);
        GiveUpNext(d, Tables(), todo, c, alive);
        var gaveUp := PollOne(c, alive);
        probeFailed := probeFailed || gaveUp;
        todo := todo - {c};
      }
    }
  }

  /** Every machine sends to the local queue of its own subchannel. */
  ghost predicate OwnQueues(d: Tables<Endpoint>) {
    forall c | c in d.subChannels :: c in d.local && d.subChannels[c].maybe in {None, Some(c)}
  }

  function Answers(alive: Probe<Endpoint> -> bool): (SubChannelId, Probe<Endpoint>) -> bool {
    (v, p) => alive(p)
  }

  ghost function PollOf(m: SM<Endpoint>, alive: Probe<Endpoint> -> bool): (SM<Endpoint>, bool, Option<Tx>) {
    m.Poll(Failing(m.probes, Answers(alive)))
  }

  ghost predicate GivesUp(m: SM<Endpoint>, alive: Probe<Endpoint> -> bool) {
    PollOf(m, alive).2.Some?
  }

  /** One subchannel is polled: the marker follows if its machine gives its sender away. */
  ghost function Polled(d: Tables<Endpoint>, c: SubChannelId, alive: Probe<Endpoint> -> bool): Tables<Endpoint>
    requires c in d.subChannels
  {
    var (m, _, handed) := PollOf(d.subChannels[c], alive);
    var d' := d.Update(c, m);
    if handed.Some? && d'.Accepts(handed.value) then d'.Push(handed.value, Marker(c)) else d'
  }

  ghost predicate SomeGiveUp(d: Tables<Endpoint>, todo: set<SubChannelId>, alive: Probe<Endpoint> -> bool) {
    exists c | c in d.subChannels && c !in todo :: GivesUp(d.subChannels[c], alive)
  }

  /** All subchannels but those in `todo` have been polled, each by itself. */
  ghost predicate AllPolled(d: Tables<Endpoint>, d': Tables<Endpoint>, todo: set<SubChannelId>,
                            alive: Probe<Endpoint> -> bool)
    requires OwnQueues(d)
  {
    && d'.subChannels.Keys == d.subChannels.Keys && d'.local.Keys == d.local.Keys && d'.hungUp == d.hungUp
    && (forall c | c in d.subChannels :: PolledAt(d, d', c, todo, alive))
    && (forall tx | tx in d.local && tx !in d.subChannels :: d'.local[tx] == d.local[tx])
  }

  ghost predicate PolledAt(d: Tables<Endpoint>, d': Tables<Endpoint>, c: SubChannelId, todo: set<SubChannelId>,
                           alive: Probe<Endpoint> -> bool)
    requires c in d.subChannels && c in d'.subChannels && c in d.local && c in d'.local
  {
    if c !in todo then
      && d'.subChannels[c] == PollOf(d.subChannels[c], alive).0
      && d'.local[c] == d.local[c] + if GivesUp(d.subChannels[c], alive) && c !in d.hungUp then [Marker(c)] else []
    else
      d'.subChannels[c] == d.subChannels[c] && d'.local[c] == d.local[c]
  }

  /** A machine had its sender before, and has given it away. */
  ghost predicate Gave(m: SM<Endpoint>, m': SM<Endpoint>) {
    m.maybe.Some? && m'.maybe.None?
  }

  /** What one machine and its local queue are like once the subchannel has been polled. */
  ghost predicate PollShows(m: SM<Endpoint>, m': SM<Endpoint>, alive: Probe<Endpoint> -> bool) {
    && (forall v :: m'.inFlight[v]
                    == if m.maybe.Some? && v in m.probes && !alive(m.probes[v]) then 0 else m.inFlight[v])
    && m'.sources == m.sources
    && (m'.maybe.None? <==> m.maybe.None? || m'.Empty()) && (m'.maybe.Some? ==> m'.maybe == m.maybe)
  }

  /**
   Polling everything: each machine gives up just the copies on carriers whose probe answers that
   it is not alive, and its sender if nothing is left then. The marker follows where one does, and
   whether one does is the answer.
   */
  lemma PollAllExactly(d: Tables<Endpoint>, d': Tables<Endpoint>, alive: Probe<Endpoint> -> bool)
    requires OwnQueues(d) && AllPolled(d, d', {}, alive)
    ensures forall c | c in d.subChannels ::
              && PollShows(d.subChannels[c], d'.subChannels[c], alive)
              && d'.local[c] == d.local[c] + if Gave(d.subChannels[c], d'.subChannels[c]) && c !in d.hungUp
                                             then [Marker(c)] else []
    ensures SomeGiveUp(d, {}, alive) <==> exists c | c in d.subChannels :: Gave(d.subChannels[c], d'.subChannels[c])
  {
    hide PollOf;
    forall c | c in d.subChannels
      ensures PollShows(d.subChannels[c], d'.subChannels[c], alive)
      ensures GivesUp(d.subChannels[c], alive) <==> Gave(d.subChannels[c], d'.subChannels[c])
      ensures d'.local[c] == d.local[c] + if GivesUp(d.subChannels[c], alive) && c !in d.hungUp
                                          then [Marker(c)] else []
    {
      assert PolledAt(d, d', c, {}, alive);
      OnePollShows(d.subChannels[c], alive);
    }
    hide GivesUp, Gave, PollShows;
  }

  lemma OnePollShows(m: SM<Endpoint>, alive: Probe<Endpoint> -> bool)
    ensures var m' := PollOf(m, alive).0; PollShows(m, m', alive) && (GivesUp(m, alive) <==> Gave(m, m'))
  {
    PollExactly(m, Answers(alive));
    hide Machine.Poll, Failing, Purge;
  }

  lemma AllPolledOwn(d: Tables<Endpoint>, d': Tables<Endpoint>, todo: set<SubChannelId>, alive: Probe<Endpoint> -> bool)
    requires OwnQueues(d) && AllPolled(d, d', todo, alive)
    ensures OwnQueues(d')
  {
    hide Purge;
    forall c | c in d'.subChannels ensures c in d'.local && d'.subChannels[c].maybe in {None, Some(c)} {
      assert PolledAt(d, d', c, todo, alive);
    }
  }

  lemma NonePolled(d: Tables<Endpoint>, alive: Probe<Endpoint> -> bool)
    requires OwnQueues(d)
    ensures AllPolled(d, d, d.subChannels.Keys, alive) && !SomeGiveUp(d, d.subChannels.Keys, alive)
  {
  }

  lemma PolledOne(d: Tables<Endpoint>, c: SubChannelId, alive: Probe<Endpoint> -> bool)
    requires OwnQueues(d) && c in d.subChannels
    ensures var d' := Polled(d, c, alive);
            && d'.subChannels == d.subChannels[c := PollOf(d.subChannels[c], alive).0] && d'.hungUp == d.hungUp
            && d'.local == d.local[c := d.local[c] + if GivesUp(d.subChannels[c], alive) && c !in d.hungUp
                                                     then [Marker(c)] else []]
  {
    hide Purge;
    var items := if GivesUp(d.subChannels[c], alive) && c !in d.hungUp then [Marker(c)] else [];
    assert d.local[c] + [] == d.local[c];
    assert Polled(d, c, alive).local == d.local[c := d.local[c] + items];
  }

  lemma PolledNext(d: Tables<Endpoint>, d': Tables<Endpoint>, todo: set<SubChannelId>, c: SubChannelId,
                   alive: Probe<Endpoint> -> bool)
    requires OwnQueues(d) && OwnQueues(d') && AllPolled(d, d', todo, alive) && c in todo && c in d.subChannels
    ensures c in d'.subChannels && AllPolled(d, Polled(d', c, alive), todo - {c}, alive)
  {
    assert PolledAt(d, d', c, todo, alive);
    PolledOne(d', c, alive);
    hide PollOf, Polled, GivesUp, OwnQueues;
    forall a | a in d.subChannels ensures PolledAt(d, Polled(d', c, alive), a, todo - {c}, alive) {
      assert PolledAt(d, d', a, todo, alive);
    }
  }

  lemma GiveUpNext(d: Tables<Endpoint>, d': Tables<Endpoint>, todo: set<SubChannelId>, c: SubChannelId,
                   alive: Probe<Endpoint> -> bool)
    requires OwnQueues(d) && AllPolled(d, d', todo, alive) && c in todo && c in d.subChannels
    ensures c in d'.subChannels
    ensures SomeGiveUp(d, todo - {c}, alive) <==> SomeGiveUp(d, todo, alive) || GivesUp(d'.subChannels[c], alive)
  {
  }
}
