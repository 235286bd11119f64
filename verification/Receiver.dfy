/**
 The receiving ends (`MultiReceiver` and `SubChannelReceiver` in `src/mux/demux.rs`): loops that
 pump the shared queue, proved against module `Multiplexing`.
 */
module Receiver {
  import opened Basics
  import opened Protocol
  import opened SubchannelLifecycle
  import opened Demux
  import opened Wire
  import opened Demultiplexer
  import opened Multiplexing
  import opened Dropping

  /** How an attempt to read the shared queue ends (`TryRecvError`). */
  datatype Attempt = Empty | Handled | Error(error: MuxError)

  /**
   The receiver of the IPC channel `me`. `queue` are the messages in that channel, `responses`
   what has been sent to each client: the subchannels whose receivers are gone.
   */
  class MultiReceiver {
    const me: Chan
    const demuxer: Demuxer
    var queue: seq<WireMessage>
    var responses: map<ClientId, seq<SubChannelId>>

    ghost predicate Valid()
      reads demuxer
    {
      demuxer.Valid()
    }

    ghost function View(): Inbox
      reads this, demuxer, demuxer.ipcSendersById, demuxer.subChannels.Values
    {
      Inbox(demuxer.View(), queue)
    }

    constructor (me: Chan, demuxer: Demuxer)
      requires demuxer.Valid()
      ensures Valid() && this.me == me && this.demuxer == demuxer && queue == [] && responses == map[]
    {
      this.me := me;
      this.demuxer := demuxer;
      queue := [];
      responses := map[];
    }

    /** Reads one message, if there is one. */
    method TryRecv() returns (attempt: Attempt, dropped: seq<Embed<Endpoint>>)
      requires Valid()
      modifies this`queue, demuxer`ipcSenders, demuxer`supply, demuxer`sent, demuxer`local
      modifies demuxer.ipcSendersById, demuxer.subChannels.Values
      ensures old(queue) == [] ==>
                attempt == Empty && dropped == [] && View() == old(View()) && demuxer.sent == old(demuxer.sent)
      ensures old(queue) != [] ==>
                var (r, s) := Advance(me, demuxer.closed, old(View()));
                && View() == r && demuxer.sent == old(demuxer.sent) + Open(demuxer.closed, s.out)
                && dropped == s.dropped
                && attempt == match s.result case Ok(_) => Attempt.Handled case Err(e) => Error(e)
    {
      if queue == [] {
        return Empty, [];
      }
      var msg, n := queue[0], |demuxer.sent|;
      var result;
      result, dropped := demuxer.Handle(msg, true);
      queue := queue[1..] + Own(me, demuxer.sent[n..]);
      match result
      case Ok(_) => attempt := Attempt.Handled;
      case Err(e) => attempt := Error(e);
    }

    /** Tells every client that the receiver of a subchannel is gone. */
    method Broadcast(c: SubChannelId)
      modifies this`responses
      ensures responses == Told(old(responses), demuxer.ipcSenders, c)
    {
      var todo := demuxer.ipcSenders;
      assert forall client | client in responses :: responses[client] + [] == responses[client];
      while todo != {}
        invariant todo <= demuxer.ipcSenders
        invariant responses == Told(old(responses), demuxer.ipcSenders - todo, c)
        decreases todo
      {
        var client :| client in todo;
        responses := responses[client := (if client in responses then responses[client] else []) + [c]];
        todo := todo - {client};
      }
    }

    /** Reads until the queue is empty or a message fails. */
    method Drain() returns (dropped: seq<Embed<Endpoint>>)
      requires Valid() && UuidsMatch(demuxer.ipcSendersById.senders)
      modifies this`queue, demuxer`ipcSenders, demuxer`supply, demuxer`sent, demuxer`local
      modifies demuxer.ipcSendersById, demuxer.subChannels.Values
      ensures var d := Multiplexing.Drain(me, demuxer.closed, old(View()));
              View() == d.inbox && demuxer.sent == old(demuxer.sent) + d.mail && dropped == d.dropped
    {
      dropped := [];
      var attempt := Attempt.Handled;
      ghost var total := Multiplexing.Drain(me, demuxer.closed, View());
      while attempt == Attempt.Handled
        invariant attempt == Attempt.Handled ==> UuidsMatch(demuxer.ipcSendersById.senders)
        invariant Towards(total, old(demuxer.sent), demuxer.sent, dropped,
                          if attempt == Attempt.Handled then Multiplexing.Drain(me, demuxer.closed, View())
                          else Nothing(View()))
        decreases attempt == Attempt.Handled, Weight(queue)
      {
        DrainStep(me, demuxer.closed, View(), total, old(demuxer.sent), demuxer.sent, dropped);
        var lost;
        attempt, lost := TryRecv();
        dropped := dropped + lost;
      }
    }

    /** The clients are told that the receiver of `c` is gone, and whatever can be read is read. */
    method Settle(c: SubChannelId, arrivals: seq<WireMessage>) returns (dropped: seq<Embed<Endpoint>>)
      requires Valid() && Tidy(View().st) && c in View().st.tables.subChannels
      modifies this`queue, this`responses, demuxer`ipcSenders, demuxer`supply, demuxer`sent, demuxer`local
      modifies demuxer.ipcSendersById, demuxer.subChannels.Values
      ensures var d := DropReceiver(me, demuxer.closed, old(View()), c, arrivals);
              && View() == d.second.inbox
              && responses == Told(old(responses), d.notified, c)
              && demuxer.sent == old(demuxer.sent) + d.first.mail + d.second.mail
      ensures c in View().st.tables.local
    {
      ghost var d := DropReceiver(me, demuxer.closed, View(), c, arrivals);
      ghost var told := d.first.inbox.(queue := d.first.inbox.queue + arrivals);
      DroppingPhases(me, demuxer.closed, View(), c, arrivals);
      hide DropReceiver, Multiplexing.Drain, Tidy, TidyAt, Demuxer.Tables, Demuxer.View, Flushed, Posted, Failures;
      dropped := Drain();
      Broadcast(c);
      queue := queue + arrivals;
      assert View() == told;
      var lost := Drain();
      dropped := dropped + lost;
    }

    /** The state after the receiver of `c` has been dropped. */
    ghost predicate HasDropped(before: Inbox, told: map<ClientId, seq<SubChannelId>>, mail: seq<Mail>, c: SubChannelId,
                               arrivals: seq<WireMessage>)
      requires Tidy(before.st) && c in before.st.tables.subChannels
      reads this, demuxer, demuxer.ipcSendersById, demuxer.subChannels.Values
    {
      var d := DropReceiver(me, demuxer.closed, before, c, arrivals);
      && View() == d.inbox
      && responses == Told(told, d.notified, c)
      && demuxer.sent == mail + d.first.mail + d.second.mail + Open(demuxer.closed, d.failures)
    }

    method DropSubReceiver(c: SubChannelId, arrivals: seq<WireMessage>) returns (dropped: seq<Embed<Endpoint>>)
      requires Valid() && Tidy(View().st) && c in View().st.tables.subChannels
      modifies this`queue, this`responses, demuxer`ipcSenders, demuxer`supply, demuxer`hungUp, demuxer`sent,
          demuxer`local
      modifies demuxer.ipcSendersById, demuxer.subChannels.Values
      ensures HasDropped(old(View()), old(responses), old(demuxer.sent), c, arrivals)
    {
      hide DropReceiver, Multiplexing.Drain, TidyAt, Open, Own, Posted, Failures, Flushed, Told;
      hide Demuxer.Tables, Demuxer.View, UuidsMatch, HangUp;
      DroppingPhases(me, demuxer.closed, View(), c, arrivals);
      ghost var d := DropReceiver(me, demuxer.closed, View(), c, arrivals);
      dropped := Settle(c, arrivals);
      assert View() == d.second.inbox;
      var flushed := Discard(c);
      assert flushed == Flushed(d.second.inbox.st.tables.local[c]);
      assert View() == d.inbox;
      dropped := dropped + flushed;
    }

    /** The receiver of `c` goes, and its local queue with it; the subsenders inside are reported. */
    method Discard(c: SubChannelId) returns (flushed: seq<Embed<Endpoint>>)
      requires Valid() && c in View().st.tables.local
      modifies this`queue, demuxer`local, demuxer`hungUp, demuxer`sent
      ensures flushed == Flushed(old(View()).st.tables.local[c])
      ensures var mail := Open(demuxer.closed, Posted(Failures(flushed, c)));
              && View() == Inbox(HangUp(old(View()).st, c), old(queue) + Own(me, mail))
              && demuxer.sent == old(demuxer.sent) + mail
    {
      var n := |demuxer.sent|;
      flushed := demuxer.Discard(c);
      queue := queue + Own(me, demuxer.sent[n..]);
    }
  }

  /** The two times that the shared queue is drained when a receiver is dropped. */
  lemma DroppingPhases(me: Chan, closed: set<Chan>, r: Inbox, c: SubChannelId, arrivals: seq<WireMessage>)
    requires Tidy(r.st) && c in r.st.tables.subChannels
    ensures var d := DropReceiver(me, closed, r, c, arrivals);
            var told := d.first.inbox.(queue := d.first.inbox.queue + arrivals);
            && UuidsMatch(r.st.target) && d.first == Drain(me, closed, r) && d.notified == d.first.inbox.st.clients
            && UuidsMatch(told.st.target) && d.second == Drain(me, closed, told)
            && c in d.second.inbox.st.tables.local
            && d.failures == Posted(Failures(Flushed(d.second.inbox.st.tables.local[c]), c))
            && d.inbox == Inbox(HangUp(d.second.inbox.st, c), d.second.inbox.queue + Own(me, Open(closed, d.failures)))
  {
    DrainTidy(me, closed, r, c);
    var first := Drain(me, closed, r);
    DrainTidy(me, closed, first.inbox.(queue := first.inbox.queue + arrivals), c);
  }

  /** The receiver of one subchannel, whose local queue it alone takes from. */
  class SubChannelReceiver {
    const multiReceiver: MultiReceiver
    const subChannelId: SubChannelId

    constructor (multiReceiver: MultiReceiver, subChannelId: SubChannelId)
      ensures this.multiReceiver == multiReceiver && this.subChannelId == subChannelId
    {
      this.multiReceiver := multiReceiver;
      this.subChannelId := subChannelId;
    }

    ghost predicate Valid()
      reads multiReceiver, multiReceiver.demuxer, multiReceiver.demuxer.ipcSendersById
      reads multiReceiver.demuxer.subChannels.Values
    {
      && multiReceiver.Valid() && Tidy(multiReceiver.View().st)
      && subChannelId in multiReceiver.demuxer.subChannels && subChannelId in multiReceiver.demuxer.local
    }

    /** Takes an item out of the local queue, if there is one. */
    method TryLocal() returns (outcome: Outcome)
      requires Valid()
      modifies multiReceiver.demuxer`local
      ensures subChannelId in old(multiReceiver.demuxer.local)
      ensures outcome == Ready(old(multiReceiver.View().st), subChannelId)
      ensures multiReceiver.View().st == TakeFirst(old(multiReceiver.View().st), subChannelId)
    {
      var demuxer := multiReceiver.demuxer;
      assert TidyAt(demuxer.Tables(), subChannelId);
      var items := demuxer.local[subChannelId];
      if items == [] {
        var tx := demuxer.subChannels[subChannelId].Send();
        outcome := if tx == Some(subChannelId) then Waiting else Closed;
      } else {
        outcome := if items[0].Marker? then Closed else Message(items[0]);
        demuxer.SetLocal(subChannelId, items[1..]);
      }
    }

    /** Reads the shared queue until there is something for this subchannel. */
    method Recv() returns (outcome: Outcome, dropped: seq<Embed<Endpoint>>)
      requires Valid()
      modifies multiReceiver`queue, multiReceiver.demuxer`ipcSenders, multiReceiver.demuxer`supply
      modifies multiReceiver.demuxer`sent, multiReceiver.demuxer`local
      modifies multiReceiver.demuxer.ipcSendersById, multiReceiver.demuxer.subChannels.Values
      ensures var v := Receive(multiReceiver.me, multiReceiver.demuxer.closed, old(multiReceiver.View()), subChannelId);
              && multiReceiver.View() == v.inbox && outcome == v.outcome && dropped == v.dropped
              && multiReceiver.demuxer.sent == old(multiReceiver.demuxer.sent) + v.mail
    {
      var me, demuxer := multiReceiver.me, multiReceiver.demuxer;
      hide Receive, OnMessage, TidyAt, MarkedLast, Weight, Open, Demuxer.Tables;
      ghost var total := Receive(me, demuxer.closed, multiReceiver.View(), subChannelId);
      dropped := [];
      while true
        invariant Valid()
        invariant Onwards(total, old(demuxer.sent), demuxer.sent, dropped,
                          Receive(me, demuxer.closed, multiReceiver.View(), subChannelId))
        decreases Weight(multiReceiver.queue)
      {
        ReceiveStep(me, demuxer.closed, multiReceiver.View(), subChannelId, total, old(demuxer.sent), demuxer.sent,
                    dropped);
        outcome := TryLocal();
        if outcome != Waiting {
          return;
        }
        var attempt, lost := multiReceiver.TryRecv();
        dropped := dropped + lost;
        match attempt
        case Empty => return;
        case Error(e) =>
          outcome := Failed(e);
          return;
        case Handled =>
      }
    }

    /**
     The receiver is dropped. `arrivals` is what others send while the clients are being told.
     Returns the subsenders that are discarded with it.
     */
    method Drop(arrivals: seq<WireMessage>) returns (dropped: seq<Embed<Endpoint>>)
      requires Valid()
      modifies multiReceiver`queue, multiReceiver`responses, multiReceiver.demuxer`ipcSenders
      modifies multiReceiver.demuxer`supply, multiReceiver.demuxer`hungUp
      modifies multiReceiver.demuxer`sent, multiReceiver.demuxer`local
      modifies multiReceiver.demuxer.ipcSendersById, multiReceiver.demuxer.subChannels.Values
      ensures multiReceiver.HasDropped(old(multiReceiver.View()), old(multiReceiver.responses),
                                       old(multiReceiver.demuxer.sent), subChannelId, arrivals)
    {
      dropped := multiReceiver.DropSubReceiver(subChannelId, arrivals);
    }
  }

  /** The responses after some clients have been told that the receiver of `c` is gone. */
  function Told(responses: map<ClientId, seq<SubChannelId>>, clients: set<ClientId>, c: SubChannelId)
    : map<ClientId, seq<SubChannelId>>
  {
    map client | client in responses.Keys + clients ::
      (if client in responses then responses[client] else []) + (if client in clients then [c] else [])
  }

  /** What has been done so far and what remains make up the total. */
  predicate Onwards(total: Reading, before: seq<Mail>, sent: seq<Mail>, dropped: seq<Embed<Endpoint>>, rest: Reading) {
    && total.inbox == rest.inbox && total.outcome == rest.outcome && total.dropped == dropped + rest.dropped
    && before + total.mail == sent + rest.mail
  }

  lemma ReceiveStep(me: Chan, closed: set<Chan>, r: Inbox, c: SubChannelId, total: Reading, before: seq<Mail>,
                    sent: seq<Mail>, dropped: seq<Embed<Endpoint>>)
    requires Tidy(r.st) && c in r.st.tables.subChannels
    requires Onwards(total, before, sent, dropped, Receive(me, closed, r, c))
    ensures Ready(r.st, c).Waiting? ==> TakeFirst(r.st, c) == r.st
    ensures !Ready(r.st, c).Waiting? || r.queue == [] ==>
              && total.inbox == r.(st := TakeFirst(r.st, c)) && total.outcome == Ready(r.st, c)
              && total.dropped == dropped == dropped + [] && before + total.mail == sent
    ensures Ready(r.st, c).Waiting? && r.queue != [] ==>
              ReceiveReads(me, closed, r, c, total, before, sent, dropped)
  {
    if Ready(r.st, c).Waiting? && r.queue != [] {
      ReceiveOn(me, closed, r, c, total, before, sent, dropped);
    }
  }

  ghost predicate ReceiveReads(me: Chan, closed: set<Chan>, r: Inbox, c: SubChannelId, total: Reading,
                               before: seq<Mail>, sent: seq<Mail>, dropped: seq<Embed<Endpoint>>)
    requires r.queue != []
  {
    var (r', s) := Advance(me, closed, r);
    var sent', dropped' := sent + Open(closed, s.out), dropped + s.dropped;
    match s.result
    case Ok(_) =>
      && Tidy(r'.st) && c in r'.st.tables.subChannels && Weight(r'.queue) < Weight(r.queue)
      && Onwards(total, before, sent', dropped', Receive(me, closed, r', c))
    case Err(e) =>
      total.inbox == r' && total.outcome == Failed(e) && total.dropped == dropped' && before + total.mail == sent'
  }

  lemma ReceiveOn(me: Chan, closed: set<Chan>, r: Inbox, c: SubChannelId, total: Reading, before: seq<Mail>,
                  sent: seq<Mail>, dropped: seq<Embed<Endpoint>>)
    requires Tidy(r.st) && c in r.st.tables.subChannels && Ready(r.st, c).Waiting? && r.queue != []
    requires Onwards(total, before, sent, dropped, Receive(me, closed, r, c))
    ensures ReceiveReads(me, closed, r, c, total, before, sent, dropped)
  {
    hide OnMessage, Advance, Open, TidyAt, Weight;
    if Advance(me, closed, r).1.result.Ok? {
      AdvanceShrinks(me, closed, r);
      AdvanceKeepsContents(me, closed, r, c);
    }
  }

  /** Nothing is left to be done. */
  function Nothing(r: Inbox): Drained {
    Drained(r, [], [], None)
  }

  /** What has been done so far and what remains make up the total. */
  predicate Towards(total: Drained, before: seq<Mail>, sent: seq<Mail>, dropped: seq<Embed<Endpoint>>, rest: Drained) {
    && total.inbox == rest.inbox && total.dropped == dropped + rest.dropped && before + total.mail == sent + rest.mail
  }

  lemma DrainStep(me: Chan, closed: set<Chan>, r: Inbox, total: Drained, before: seq<Mail>, sent: seq<Mail>,
                  dropped: seq<Embed<Endpoint>>)
    requires UuidsMatch(r.st.target) && Towards(total, before, sent, dropped, Drain(me, closed, r))
    ensures r.queue == [] ==> Towards(total, before, sent, dropped + [], Nothing(r))
    ensures r.queue != [] ==>
              var (r', s) := Advance(me, closed, r);
              if s.result.Ok? then
                && UuidsMatch(r'.st.target) && Weight(r'.queue) < Weight(r.queue)
                && Towards(total, before, sent + Open(closed, s.out), dropped + s.dropped, Drain(me, closed, r'))
              else Towards(total, before, sent + Open(closed, s.out), dropped + s.dropped, Nothing(r'))
  {
    hide OnMessage, Advance, Open;
    if r.queue != [] && Advance(me, closed, r).1.result.Ok? {
      AdvanceShrinks(me, closed, r);
    }
  }
}
