/**
 What dropping a receiver does: the shared queue is drained, the clients are told, the queue is
 drained again, and what the receiver held is reported.
 */
module Dropping {
  import opened Basics
  import opened Protocol
  import opened SubchannelLifecycle
  import opened Demux
  import opened Wire
  import opened Multiplexing

  // ---------------------------------------------------------------------------------------
  // Dropping a receiver
  // ---------------------------------------------------------------------------------------

  /** `notified` are the clients that are told that the subreceiver is gone. */
  datatype Dropping = Dropping(inbox: Inbox, notified: set<ClientId>, first: Drained, second: Drained,
                               failures: seq<Mail>)

  /** The receiver of `c` is dropped; `arrivals` enter the shared queue after the clients were told. */
  ghost function DropReceiver(me: Chan, closed: set<Chan>, r: Inbox, c: SubChannelId,
                              arrivals: seq<WireMessage>): Dropping
    requires Tidy(r.st) && c in r.st.tables.subChannels
  {
    DrainTidy(me, closed, r, c);
    var first := Drain(me, closed, r);
    var told := first.inbox.(queue := first.inbox.queue + arrivals);
    DrainTidy(me, closed, told, c);
    var second := Drain(me, closed, told);
    var failures := Posted(Failures(Flushed(second.inbox.st.tables.local[c]), c));
    Dropping(Inbox(HangUp(second.inbox.st, c), second.inbox.queue + Own(me, Open(closed, failures))),
             first.inbox.st.clients, first, second, failures)
  }

  /** Draining without an error empties the queue and leaves every subchannel's contents as they are. */
  lemma {:induction false} DrainTidy(me: Chan, closed: set<Chan>, r: Inbox, a: SubChannelId)
    requires Tidy(r.st) && a in r.st.tables.subChannels
    ensures var d := Drain(me, closed, r);
            && Tidy(d.inbox.st) && a in d.inbox.st.tables.subChannels
            && (d.error.None? ==> d.inbox.queue == [] && Contents(d.inbox, a) == Contents(r, a))
    decreases Weight(r.queue)
  {
    if r.queue != [] {
      MessageTidy(closed, r.st, r.queue[0]);
      assert Delivers(r.st, Advance(me, closed, r).1, r.queue[0], a);
      if Advance(me, closed, r).1.result.Ok? {
        AdvanceShrinks(me, closed, r);
        AdvanceKeepsContents(me, closed, r, a);
        DrainTidy(me, closed, Advance(me, closed, r).0, a);
      }
    }
  }

  /** Clients are never forgotten, and a `Connect` makes one. */
  lemma AdvanceClients(me: Chan, closed: set<Chan>, r: Inbox)
    requires UuidsMatch(r.st.target) && r.queue != []
    ensures var (r', s) := Advance(me, closed, r);
            && r'.st.clients == r.st.clients + (if r.queue[0].Connect? then {r.queue[0].client} else {})
            && (r.queue[0].Connect? ==> s.result.Ok?)
  {
    if r.queue[0].Data? {
      ResolvedParcel(closed, r.st, r.queue[0].senders);
    }
  }

  lemma {:induction false} DrainClients(me: Chan, closed: set<Chan>, r: Inbox)
    requires UuidsMatch(r.st.target)
    ensures r.st.clients <= Drain(me, closed, r).inbox.st.clients
    decreases Weight(r.queue)
  {
    if r.queue != [] {
      AdvanceClients(me, closed, r);
      if Advance(me, closed, r).1.result.Ok? {
        AdvanceShrinks(me, closed, r);
        DrainClients(me, closed, Advance(me, closed, r).0);
      }
    }
  }

  /** The first messages of the queue are all read, and none of them fails. */
  predicate ReadsTo(me: Chan, closed: set<Chan>, r: Inbox, i: nat)
    decreases i
  {
    i == 0
    || (r.queue != [] && !Fails(closed, r.st, r.queue[0]) && ReadsTo(me, closed, Advance(me, closed, r).0, i - 1))
  }

  /** The i-th message to be read connects a client, and none before it fails. */
  predicate ConnectsAt(me: Chan, closed: set<Chan>, r: Inbox, client: ClientId, i: nat) {
    var r' := After(me, closed, r, i);
    ReadsTo(me, closed, r, i) && r'.queue != [] && r'.queue[0] == Connect(client)
  }

  lemma ConnectsLater(me: Chan, closed: set<Chan>, r: Inbox, client: ClientId, i: nat)
    requires r.queue != [] && !Fails(closed, r.st, r.queue[0]) && i > 0
    ensures ConnectsAt(me, closed, r, client, i) <==> ConnectsAt(me, closed, Advance(me, closed, r).0, client, i - 1)
  {
    hide Fails, Advance;
  }

  /**
   A client is told that a receiver is gone if and only if it had registered, or its `Connect` is
   read before any message fails.
   */
  lemma {:induction false} ClientIsToldIff(me: Chan, closed: set<Chan>, r: Inbox, client: ClientId)
    requires UuidsMatch(r.st.target)
    ensures client in Drain(me, closed, r).inbox.st.clients
            <==> client in r.st.clients || exists i :: ConnectsAt(me, closed, r, client, i)
    decreases Weight(r.queue)
  {
    if r.queue != [] {
      AdvanceClients(me, closed, r);
      FailsExactly(closed, r.st, r.queue[0], true);
      if Fails(closed, r.st, r.queue[0]) {
        NotAfterFailure(me, closed, r, client);
      } else {
        AdvanceShrinks(me, closed, r);
        var r' := Advance(me, closed, r).0;
        ClientIsToldIff(me, closed, r', client);
        ToldLater(me, closed, r, client);
      }
    }
  }

  lemma NotAfterFailure(me: Chan, closed: set<Chan>, r: Inbox, client: ClientId)
    requires r.queue != [] && Fails(closed, r.st, r.queue[0])
    ensures !exists i :: ConnectsAt(me, closed, r, client, i)
  {
  }

  lemma ToldLater(me: Chan, closed: set<Chan>, r: Inbox, client: ClientId)
    requires r.queue != [] && !Fails(closed, r.st, r.queue[0])
    ensures (exists i :: ConnectsAt(me, closed, r, client, i))
            <==> r.queue[0] == Connect(client)
                 || exists i :: ConnectsAt(me, closed, Advance(me, closed, r).0, client, i)
  {
    hide Fails, Advance;
    var r' := Advance(me, closed, r).0;
    if r.queue[0] == Connect(client) {
      assert ConnectsAt(me, closed, r, client, 0);
    }
    if i: nat :| ConnectsAt(me, closed, r', client, i) {
      ConnectsLater(me, closed, r, client, i + 1);
    }
    if i: nat :| ConnectsAt(me, closed, r, client, i) {
      if i > 0 {
        ConnectsLater(me, closed, r, client, i);
      }
    }
  }

  /** What is queued already is read in its order. */
  lemma {:induction false} QueuedIsNext(me: Chan, closed: set<Chan>, r: Inbox, i: nat)
    requires i < |r.queue| && ReadsTo(me, closed, r, i)
    ensures After(me, closed, r, i).queue != [] && After(me, closed, r, i).queue[0] == r.queue[i]
    decreases i
  {
    if i > 0 {
      var r' := Advance(me, closed, r).0;
      assert r'.queue[i - 1] == r.queue[i];
      hide Advance, Fails;
      QueuedIsNext(me, closed, r', i - 1);
    }
  }

  /** The i-th message in the queue fails, and no message before it. */
  predicate StopsAt(me: Chan, closed: set<Chan>, r: Inbox, i: nat) {
    var r' := After(me, closed, r, i);
    ReadsTo(me, closed, r, i) && r'.queue != [] && Fails(closed, r'.st, r'.queue[0])
  }

  /** So a client queued at any position is told if and only if no message before it fails. */
  lemma QueuedClientIsToldIff(me: Chan, closed: set<Chan>, r: Inbox, i: nat)
    requires UuidsMatch(r.st.target) && i < |r.queue| && r.queue[i].Connect? && r.queue[i].client !in r.st.clients
    requires forall j :: ConnectsAt(me, closed, r, r.queue[i].client, j) ==> j == i
    ensures r.queue[i].client in Drain(me, closed, r).inbox.st.clients <==> ReadsTo(me, closed, r, i)
  {
    var client := r.queue[i].client;
    ClientIsToldIff(me, closed, r, client);
    if ReadsTo(me, closed, r, i) {
      QueuedIsNext(me, closed, r, i);
      assert ConnectsAt(me, closed, r, client, i);
    }
  }

  /** The message at which draining stops, as far as the contents of `a` are concerned. */
  ghost function Casualty(me: Chan, closed: set<Chan>, r: Inbox, a: SubChannelId): seq<Parcel>
    requires UuidsMatch(r.st.target)
    decreases Weight(r.queue)
  {
    if r.queue == [] then []
    else if Fails(closed, r.st, r.queue[0]) then ParcelOf(r.queue[0], a)
    else
      FailsExactly(closed, r.st, r.queue[0], true);
      AdvanceShrinks(me, closed, r);
      Casualty(me, closed, Advance(me, closed, r).0, a)
  }

  /** Draining fails if and only if a message does; all contents survive but for that message. */
  lemma {:induction false} DrainFailsIff(me: Chan, closed: set<Chan>, r: Inbox, a: SubChannelId)
    requires Tidy(r.st) && a in r.st.tables.subChannels
    ensures var d := Drain(me, closed, r);
            && Tidy(d.inbox.st) && a in d.inbox.st.tables.subChannels
            && (d.error.Some? <==> exists i :: StopsAt(me, closed, r, i))
            && Misses(Contents(r, a), Contents(d.inbox, a), Casualty(me, closed, r, a))
            && (d.error.None? ==> d.inbox.queue == [] && Casualty(me, closed, r, a) == [])
    decreases Weight(r.queue)
  {
    if r.queue == [] {
      MissesNothing(Contents(r, a), Contents(r, a));
    } else {
      FailsExactly(closed, r.st, r.queue[0], true);
      if Fails(closed, r.st, r.queue[0]) {
        assert StopsAt(me, closed, r, 0);
        AdvanceMisses(me, closed, r, a);
      } else {
        AdvanceShrinks(me, closed, r);
        AdvanceKeepsContents(me, closed, r, a);
        DrainFailsIff(me, closed, Advance(me, closed, r).0, a);
        StopsLater(me, closed, r);
      }
    }
  }

  lemma StopsLater(me: Chan, closed: set<Chan>, r: Inbox)
    requires r.queue != [] && !Fails(closed, r.st, r.queue[0])
    ensures (exists i :: StopsAt(me, closed, r, i)) <==> exists i :: StopsAt(me, closed, Advance(me, closed, r).0, i)
  {
    hide Fails, Advance;
    var r' := Advance(me, closed, r).0;
    if i: nat :| StopsAt(me, closed, r', i) {
      assert StopsAt(me, closed, r, i + 1);
    }
    if i: nat :| StopsAt(me, closed, r, i) {
      assert i > 0 && StopsAt(me, closed, r', i - 1);
    }
  }

  function AllSenders(parcels: seq<Parcel>): seq<(SubChannelId, Uuid)> {
    if parcels == [] then [] else parcels[0].senders + AllSenders(parcels[1..])
  }

  lemma {:induction false} AllSendersAppend(a: seq<Parcel>, b: seq<Parcel>)
    ensures AllSenders(a + b) == AllSenders(a) + AllSenders(b)
  {
    if a == [] {
      assert a + b == b;
    } else {
      assert (a + b)[1..] == a[1..] + b;
      AllSendersAppend(a[1..], b);
    }
  }

  function Pairs(embeds: seq<Embed<Endpoint>>): seq<(SubChannelId, Uuid)> {
    seq(|embeds|, i requires 0 <= i < |embeds| => (embeds[i].scid, embeds[i].sender.uuid))
  }

  /** Nothing hides behind a marker: flushing reaches every subsender in the local queue. */
  lemma {:induction false} FlushedAll(items: seq<Item<Endpoint>>, c: SubChannelId, closed: bool)
    requires MarkedLast(items, c, closed)
    ensures Pairs(Flushed(items)) == AllSenders(LocalParcels(items))
  {
    if items != [] {
      if items[0].Marker? {
        assert items[1..] == [] && LocalParcels(items) == [];
      } else {
        assert MarkedLast(items[1..], c, closed) by {
          assert forall i | 0 <= i < |items| - 1 :: items[1..][i] == items[i + 1];
        }
        FlushedAll(items[1..], c, closed);
        AllSendersAppend(ItemParcel(items[0]), LocalParcels(items[1..]));
        assert AllSenders(ItemParcel(items[0]))
            == ItemParcel(items[0])[0].senders + AllSenders(ItemParcel(items[0])[1..]);
        assert ItemParcel(items[0])[1..] == [];
        assert Pairs(items[0].senders + Flushed(items[1..])) == Pairs(items[0].senders) + Pairs(Flushed(items[1..]));
      }
    }
  }

  lemma NothingQueued(r: Inbox, a: SubChannelId)
    requires r.queue == [] && a in r.st.tables.local
    ensures Contents(r, a) == LocalParcels(r.st.tables.local[a])
  {
  }

  /** What is flushed is reported, once and in order. */
  lemma FailuresMatch(items: seq<Item<Endpoint>>, c: SubChannelId, closed: bool)
    requires MarkedLast(items, c, closed)
    ensures var mail, held := Posted(Failures(Flushed(items), c)), AllSenders(LocalParcels(items));
            |mail| == |held| && forall i | 0 <= i < |held| :: mail[i].msg == ReceiveFailed(held[i].0, c)
  {
    FlushedAll(items, c, closed);
    assert forall i | 0 <= i < |Flushed(items)| :: Pairs(Flushed(items))[i].0 == Flushed(items)[i].scid;
  }

  /** The subsenders in some messages for `via`: which subchannel, on which carrier. */
  function Aboard(parcels: seq<Parcel>, via: SubChannelId): multiset<(SubChannelId, SubChannelId)> {
    multiset(OnCarrier(AllSenders(parcels), via))
  }

  function OnCarrier(senders: seq<(SubChannelId, Uuid)>, via: SubChannelId): seq<(SubChannelId, SubChannelId)> {
    seq(|senders|, i requires 0 <= i < |senders| => (senders[i].0, via))
  }

  /** The subsenders that some notifications say were not received. */
  function Answered(mail: seq<Mail>): multiset<(SubChannelId, SubChannelId)>
    requires forall i | 0 <= i < |mail| :: mail[i].msg.ReceiveFailed?
  {
    multiset(seq(|mail|, i requires 0 <= i < |mail| => (mail[i].msg.scid, mail[i].msg.via)))
  }

  lemma AboardAppend(a: seq<Parcel>, b: seq<Parcel>, via: SubChannelId)
    ensures Aboard(a + b, via) == Aboard(a, via) + Aboard(b, via)
  {
    var x, y := AllSenders(a), AllSenders(b);
    AllSendersAppend(a, b);
    assert OnCarrier(x + y, via) == OnCarrier(x, via) + OnCarrier(y, via);
  }

  lemma SendersSplit(before: seq<Parcel>, after: seq<Parcel>, lost: seq<Parcel>, via: SubChannelId)
    requires Misses(before, after, lost)
    ensures Aboard(before, via) == Aboard(after, via) + Aboard(lost, via)
  {
    hide Aboard;
    var k :| 0 <= k <= |after| && before == after[..k] + lost + after[k..];
    AboardAppend(after[..k] + lost, after[k..], via);
    AboardAppend(after[..k], lost, via);
    AboardAppend(after[..k], after[k..], via);
    assert after[..k] + after[k..] == after;
  }

  /** The state in which the second draining begins. */
  ghost function Reopened(me: Chan, closed: set<Chan>, r: Inbox, c: SubChannelId,
                          arrivals: seq<WireMessage>): (told: Inbox)
    requires Tidy(r.st) && c in r.st.tables.subChannels
    ensures Tidy(told.st) && c in told.st.tables.subChannels
  {
    DrainTidy(me, closed, r, c);
    var first := Drain(me, closed, r);
    first.inbox.(queue := first.inbox.queue + arrivals)
  }

  /** All these states are tidy, and `a` has its local queue in each. */
  lemma DropTidy(me: Chan, closed: set<Chan>, r: Inbox, c: SubChannelId, arrivals: seq<WireMessage>, a: SubChannelId)
    requires Tidy(r.st) && c in r.st.tables.subChannels && a in r.st.tables.subChannels
    ensures var d, told := DropReceiver(me, closed, r, c, arrivals), Reopened(me, closed, r, c, arrivals);
            && UuidsMatch(r.st.target) && UuidsMatch(told.st.target)
            && d.first == Drain(me, closed, r) && d.second == Drain(me, closed, told)
            && told == d.first.inbox.(queue := d.first.inbox.queue + arrivals)
            && a in r.st.tables.local && a in d.first.inbox.st.tables.local
            && a in told.st.tables.subChannels && a in told.st.tables.local
            && Tidy(d.second.inbox.st) && a in d.second.inbox.st.tables.subChannels
            && a in d.second.inbox.st.tables.local
  {
    hide Drain, Tidy, Contents;
    TidyFacts(r.st, a);
    DrainTidy(me, closed, r, a);
    var told := Reopened(me, closed, r, c, arrivals);
    TidyFacts(told.st, a);
    DrainTidy(me, closed, told, a);
    TidyFacts(Drain(me, closed, told).inbox.st, a);
  }

  /** The contents of `a` as the receiver of `c` is dropped: at first, before and after the second draining. */
  lemma DropDrains(me: Chan, closed: set<Chan>, r: Inbox, c: SubChannelId, arrivals: seq<WireMessage>, a: SubChannelId)
    requires Tidy(r.st) && c in r.st.tables.subChannels && a in r.st.tables.subChannels
    requires UuidsMatch(r.st.target) && UuidsMatch(Reopened(me, closed, r, c, arrivals).st.target)
    requires a in r.st.tables.local && a in Reopened(me, closed, r, c, arrivals).st.tables.local
    requires a in DropReceiver(me, closed, r, c, arrivals).first.inbox.st.tables.local
    requires a in DropReceiver(me, closed, r, c, arrivals).second.inbox.st.tables.local
    ensures var d, told := DropReceiver(me, closed, r, c, arrivals), Reopened(me, closed, r, c, arrivals);
            && Contents(told, a) == Contents(d.first.inbox, a) + QueuedParcels(arrivals, a)
            && Misses(Contents(r, a), Contents(d.first.inbox, a), Casualty(me, closed, r, a))
            && Misses(Contents(told, a), Contents(d.second.inbox, a), Casualty(me, closed, told, a))
  {
    hide Drain, Tidy, Casualty, Misses, Contents, QueuedParcels, DropReceiver, Reopened, StopsAt;
    DropTidy(me, closed, r, c, arrivals, a);
    DrainFailsIff(me, closed, r, a);
    DrainFailsIff(me, closed, Reopened(me, closed, r, c, arrivals), a);
    MoreContents(DropReceiver(me, closed, r, c, arrivals).first.inbox, arrivals, a);
  }

  lemma MoreContents(r: Inbox, arrivals: seq<WireMessage>, a: SubChannelId)
    requires a in r.st.tables.local
    ensures Contents(r.(queue := r.queue + arrivals), a) == Contents(r, a) + QueuedParcels(arrivals, a)
  {
    QueuedParcelsAppend(r.queue, arrivals, a);
  }

  /**
   Whatever fails on the way, dropping a receiver keeps account of every subsender in the contents
   of its subchannel, also of those in messages that arrive meanwhile: it is reported as not
   received, once, or it was in a message that failed, or its message is still queued. Of another
   subchannel's contents nothing goes but messages that failed.
   */
  lemma DropAccountsForAll(me: Chan, closed: set<Chan>, r: Inbox, c: SubChannelId, arrivals: seq<WireMessage>,
                           a: SubChannelId)
    requires Tidy(r.st) && c in r.st.tables.subChannels && a in r.st.tables.subChannels
    ensures var d, told := DropReceiver(me, closed, r, c, arrivals), Reopened(me, closed, r, c, arrivals);
            && c in r.st.tables.local && a in r.st.tables.local
            && UuidsMatch(r.st.target) && UuidsMatch(told.st.target)
            && (forall i | 0 <= i < |d.failures| :: d.failures[i].msg.ReceiveFailed?)
            && Aboard(Contents(r, c) + QueuedParcels(arrivals, c), c)
               == Answered(d.failures) + Aboard(QueuedParcels(d.second.inbox.queue, c), c)
                  + Aboard(Casualty(me, closed, r, c), c) + Aboard(Casualty(me, closed, told, c), c)
            && (a != c ==>
                  && a in told.st.tables.local && a in d.inbox.st.tables.local
                  && Misses(Contents(r, a) + QueuedParcels(arrivals, a), Contents(told, a), Casualty(me, closed, r, a))
                  && Misses(Contents(told, a), Contents(d.inbox, a), Casualty(me, closed, told, a)))
  {
    hide Drain, Tidy, Contents, Casualty, AllSenders, Misses, Flushed, QueuedParcels, LocalParcels, DropReceiver,
         Reopened, Aboard, Answered;
    var d, told := DropReceiver(me, closed, r, c, arrivals), Reopened(me, closed, r, c, arrivals);
    DropTidy(me, closed, r, c, arrivals, c);
    DropTidy(me, closed, r, c, arrivals, a);
    DropCounts(me, closed, r, c, arrivals);
    if a != c {
      DropDrains(me, closed, r, c, arrivals, a);
      MissesMore(Contents(r, a), Contents(d.first.inbox, a), Casualty(me, closed, r, a), QueuedParcels(arrivals, a));
      DropReports(me, closed, r, c, arrivals);
      OthersKept(me, closed, d, c, a);
    }
  }

  lemma DropCounts(me: Chan, closed: set<Chan>, r: Inbox, c: SubChannelId, arrivals: seq<WireMessage>)
    requires Tidy(r.st) && c in r.st.tables.subChannels && c in r.st.tables.local && UuidsMatch(r.st.target)
    requires UuidsMatch(Reopened(me, closed, r, c, arrivals).st.target)
    ensures var d, told := DropReceiver(me, closed, r, c, arrivals), Reopened(me, closed, r, c, arrivals);
            && (forall i | 0 <= i < |d.failures| :: d.failures[i].msg.ReceiveFailed?)
            && Aboard(Contents(r, c) + QueuedParcels(arrivals, c), c)
               == Answered(d.failures) + Aboard(QueuedParcels(d.second.inbox.queue, c), c)
                  + Aboard(Casualty(me, closed, r, c), c) + Aboard(Casualty(me, closed, told, c), c)
  {
    hide Drain, Tidy, Contents, Casualty, AllSenders, Misses, Flushed, QueuedParcels, LocalParcels, DropReceiver,
         Reopened, Aboard, Answered;
    var d, told := DropReceiver(me, closed, r, c, arrivals), Reopened(me, closed, r, c, arrivals);
    DropTidy(me, closed, r, c, arrivals, c);
    DropDrains(me, closed, r, c, arrivals, c);
    SendersSplit(Contents(r, c), Contents(d.first.inbox, c), Casualty(me, closed, r, c), c);
    SendersSplit(Contents(told, c), Contents(d.second.inbox, c), Casualty(me, closed, told, c), c);
    AboardAppend(Contents(r, c), QueuedParcels(arrivals, c), c);
    AboardAppend(Contents(d.first.inbox, c), QueuedParcels(arrivals, c), c);
    DropReports(me, closed, r, c, arrivals);
    calc {
      Aboard(Contents(r, c) + QueuedParcels(arrivals, c), c);
      Aboard(Contents(told, c), c) + Aboard(Casualty(me, closed, r, c), c);
      Aboard(Contents(d.second.inbox, c), c) + Aboard(Casualty(me, closed, told, c), c)
      + Aboard(Casualty(me, closed, r, c), c);
    }
  }

  lemma MissesMore(before: seq<Parcel>, after: seq<Parcel>, lost: seq<Parcel>, more: seq<Parcel>)
    requires Misses(before, after, lost)
    ensures Misses(before + more, after + more, lost)
  {
    var k :| 0 <= k <= |after| && before == after[..k] + lost + after[k..];
    assert (after + more)[..k] == after[..k] && (after + more)[k..] == after[k..] + more;
  }

  /** What is in the local queue is reported, once and in order; what is queued stays. */
  lemma DropReports(me: Chan, closed: set<Chan>, r: Inbox, c: SubChannelId, arrivals: seq<WireMessage>)
    requires Tidy(r.st) && c in r.st.tables.subChannels
    ensures var d := DropReceiver(me, closed, r, c, arrivals);
            && c in d.second.inbox.st.tables.local
            && var held := AllSenders(LocalParcels(d.second.inbox.st.tables.local[c]));
            && |d.failures| == |held| && Dataless(d.failures)
            && (forall i | 0 <= i < |held| :: d.failures[i].msg == ReceiveFailed(held[i].0, c))
            && (forall i | 0 <= i < |d.failures| :: d.failures[i].msg.ReceiveFailed?)
            && Aboard(Contents(d.second.inbox, c), c)
               == Answered(d.failures) + Aboard(QueuedParcels(d.second.inbox.queue, c), c)
            && d.inbox == Inbox(HangUp(d.second.inbox.st, c), d.second.inbox.queue + Own(me, Open(closed, d.failures)))
  {
    DropTidy(me, closed, r, c, arrivals, c);
    DropDrains(me, closed, r, c, arrivals, c);
    var d := DropReceiver(me, closed, r, c, arrivals);
    var tables := d.second.inbox.st.tables;
    assert TidyAt(tables, c) && d.failures == Posted(Failures(Flushed(tables.local[c]), c));
    hide DropReceiver, Flushed, AllSenders, Drain, LocalParcels, QueuedParcels;
    FailuresMatch(tables.local[c], c, tables.subChannels[c].maybe.None?);
    AnsweredAll(d.failures, AllSenders(LocalParcels(tables.local[c])), c);
    AboardAppend(LocalParcels(tables.local[c]), QueuedParcels(d.second.inbox.queue, c), c);
    assert Answered(d.failures) == Aboard(LocalParcels(tables.local[c]), c);
  }

  lemma AnsweredAll(mail: seq<Mail>, held: seq<(SubChannelId, Uuid)>, c: SubChannelId)
    requires |mail| == |held| && forall i | 0 <= i < |held| :: mail[i].msg == ReceiveFailed(held[i].0, c)
    ensures (forall i | 0 <= i < |mail| :: mail[i].msg.ReceiveFailed?) && Answered(mail) == multiset(OnCarrier(held, c))
  {
    assert seq(|mail|, i requires 0 <= i < |mail| => (mail[i].msg.scid, mail[i].msg.via))
        == OnCarrier(held, c);
  }

  lemma OthersKept(me: Chan, closed: set<Chan>, d: Dropping, c: SubChannelId, a: SubChannelId)
    requires a != c && c in d.second.inbox.st.tables.local && a in d.second.inbox.st.tables.local
             && Dataless(d.failures)
    requires d.inbox == Inbox(HangUp(d.second.inbox.st, c), d.second.inbox.queue + Own(me, Open(closed, d.failures)))
    ensures a in d.inbox.st.tables.local && Contents(d.inbox, a) == Contents(d.second.inbox, a)
  {
    OpenDataless(closed, d.failures);
    OwnDataless(me, Open(closed, d.failures), a);
    QueuedParcelsAppend(d.second.inbox.queue, Own(me, Open(closed, d.failures)), a);
  }

  /**
   So it resolves everything the receiver held: if no message fails on the way, each subsender in
   the contents of the subchannel is reported as not received, once and in order, and no other
   subchannel's contents change.
   */
  lemma DropAnswersEverySubsender(me: Chan, closed: set<Chan>, r: Inbox, c: SubChannelId, arrivals: seq<WireMessage>,
                                  a: SubChannelId)
    requires Tidy(r.st) && c in r.st.tables.subChannels && a in r.st.tables.subChannels
    requires !exists i :: StopsAt(me, closed, r, i)
    requires !exists i :: StopsAt(me, closed, Reopened(me, closed, r, c, arrivals), i)
    ensures var d := DropReceiver(me, closed, r, c, arrivals);
            var held := AllSenders(Contents(r, c) + QueuedParcels(arrivals, c));
            && |d.failures| == |held|
            && (forall i | 0 <= i < |held| :: d.failures[i].msg == ReceiveFailed(held[i].0, c))
            && (a != c ==> a in d.inbox.st.tables.local
                           && Contents(d.inbox, a) == Contents(r, a) + QueuedParcels(arrivals, a))
  {
    hide Drain, Tidy, Contents, Casualty, AllSenders, Misses, Flushed, QueuedParcels, LocalParcels, StopsAt;
    hide DropReceiver, Reopened;
    DropReports(me, closed, r, c, arrivals);
    DropKeeps(me, closed, r, c, arrivals, c);
    DropKeeps(me, closed, r, c, arrivals, a);
    if a != c {
      OthersKept(me, closed, DropReceiver(me, closed, r, c, arrivals), c, a);
    }
  }

  /** If no message fails, everything is in the local queues after the second draining. */
  lemma DropKeeps(me: Chan, closed: set<Chan>, r: Inbox, c: SubChannelId, arrivals: seq<WireMessage>, a: SubChannelId)
    requires Tidy(r.st) && c in r.st.tables.subChannels && a in r.st.tables.subChannels
    requires !exists i :: StopsAt(me, closed, r, i)
    requires !exists i :: StopsAt(me, closed, Reopened(me, closed, r, c, arrivals), i)
    ensures var d := DropReceiver(me, closed, r, c, arrivals);
            && a in r.st.tables.local && a in d.second.inbox.st.tables.local
            && Contents(d.second.inbox, a) == Contents(r, a) + QueuedParcels(arrivals, a)
            && Contents(d.second.inbox, a) == LocalParcels(d.second.inbox.st.tables.local[a])
  {
    hide Drain, Tidy, Contents, Casualty, Misses, QueuedParcels, LocalParcels, StopsAt, DropReceiver, Reopened;
    var d, told := DropReceiver(me, closed, r, c, arrivals), Reopened(me, closed, r, c, arrivals);
    DropTidy(me, closed, r, c, arrivals, a);
    DropDrains(me, closed, r, c, arrivals, a);
    DrainFailsIff(me, closed, r, a);
    DrainFailsIff(me, closed, told, a);
    MissesNothing(Contents(r, a), Contents(d.first.inbox, a));
    MissesNothing(Contents(told, a), Contents(d.second.inbox, a));
    NothingQueued(d.second.inbox, a);
  }
}
