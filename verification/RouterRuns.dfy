/**
 What a set of subreceivers passes on in any of its runs is what the router counts on: no message
 finds a handler missing, and the router ends early only if a message cannot be handled.
 */
module RouterRuns {
  import opened Basics
  import opened Protocol
  import opened Demux
  import opened Wire
  import opened ReceiverSet
  import opened SetRuns
  import opened Router

  /** The set as the router has it: with the same queue, and the same ids in use. */
  predicate Same(h: Hub, d: Desk) {
    h.queue == d.queue && h.ids == d.t.ids && h.nextId == d.t.nextId
  }

  /** That stays so when a route is added, */
  lemma RouteFeeds(h: Hub, ch: Chan, c: SubChannelId, d: Desk, handler: Handler)
    requires Same(h, d) && h.Attached(ch, c)
    ensures Same(h.Add(ch, c), d.(t := Route(d.t, c, handler)))
  {
  }

  /** and when a wakeup is sent to the subchannel of the router: it can always be handled. */
  lemma WakeupFeeds(h: Hub, ch: Chan, closed: set<Chan>, w: SubChannelId, d: Desk)
    requires Inv(h) && Same(h, d) && h.Attached(ch, w) && w in h.ids && Marker(w) !in h.queue
    ensures var a := Arrival(ch, closed, Data(w, 0, []));
            !Fails(h, a) && Same(h.Handle(a), d.(queue := d.queue + [WakeupOf(w)]))
  {
    assert Linked(h, w, h.Machine(ch, w));
    ResolvesUpTo(closed, h.Lent(ch), []);
    hide Inv;
  }

  /** None of it is about the wakeup, whose messages come from the router's own proxy. */
  predicate Avoids(ask: Ask, w: SubChannelId) {
    match ask
    case Batch(batch) => forall i | 0 <= i < |batch| :: About(batch[i].msg) != w
    case Probes(polls) => forall i | 0 <= i < |polls| :: polls[i].1 != w
  }

  /** The desk with more items arrived. */
  function Fed(d: Desk, items: seq<Item<Endpoint>>): Desk {
    d.(arrived := d.arrived + items, queue := d.queue + items)
  }

  /** What a machine in use by the set puts into the queue, the router can have. */
  lemma PutFeeds(h: Hub, c: SubChannelId, m: SM<Endpoint>, m': SM<Endpoint>, items: seq<Item<Endpoint>>,
                 rest: seq<SubSelectionResult>, w: SubChannelId, wakeupId: nat, d: Desk)
    requires Linked(h, c, m) && Puts(h.tx, c, m, m', items) && Same(h, d) && c != w
    requires InOrder(rest, w, wakeupId, d)
    ensures InOrder(rest, w, wakeupId, Fed(d, items))
  {
    hide InOrder;
    if items == [] {
      assert Fed(d, items) == d;
    } else {
      ArriveKeepsOrder(rest, w, wakeupId, d, items[0]);
      assert items == [items[0]];
    }
  }

  /** One message, handled at any time. */
  lemma HandleFeeds(h: Hub, a: Arrival, rest: seq<SubSelectionResult>, w: SubChannelId, wakeupId: nat, d: Desk)
    returns (items: seq<Item<Endpoint>>)
    requires Inv(h) && Same(h, d) && About(a.msg) != w && InOrder(rest, w, wakeupId, d)
    ensures Inv(h.Handle(a)) && Same(h.Handle(a), Fed(d, items)) && InOrder(rest, w, wakeupId, Fed(d, items))
  {
    hide InOrder;
    HandleKeeps(h, a);
    var c := About(a.msg);
    items := [];
    assert Fed(d, []) == d;
    if a.ch in h.demux {
      var st := h.Lent(a.ch);
      assert st.tables.local.Keys == {h.tx};
      MessageMoves(a.closed, st, a.msg, h.tx);
      var st' := OnMessage(a.closed, st, a.msg, false).st;
      if h.Attached(a.ch, c) {
        assert Linked(h, c, h.Machine(a.ch, c));
        hide Inv;
        items :| st'.tables.local[h.tx] == h.queue + items
                 && Puts(h.tx, c, h.Machine(a.ch, c), st'.tables.subChannels[c], items);
        PutFeeds(h, c, h.Machine(a.ch, c), st'.tables.subChannels[c], items, rest, w, wakeupId, d);
      }
    }
  }

  lemma PollFeeds(h: Hub, ch: Chan, c: SubChannelId, failing: set<SubChannelId>, rest: seq<SubSelectionResult>,
                  w: SubChannelId, wakeupId: nat, d: Desk)
    returns (items: seq<Item<Endpoint>>)
    requires Inv(h) && Same(h, d) && c != w && InOrder(rest, w, wakeupId, d)
    ensures Inv(h.Poll(ch, c, failing)) && Same(h.Poll(ch, c, failing), Fed(d, items))
    ensures InOrder(rest, w, wakeupId, Fed(d, items))
  {
    hide InOrder;
    PollKeeps(h, ch, c, failing);
    items := [];
    assert Fed(d, []) == d;
    if h.Attached(ch, c) {
      var m := h.Machine(ch, c);
      var (m', _, handed) := m.Poll(failing);
      items := if handed == Some(h.tx) then [Marker(c)] else [];
      assert Linked(h, c, m) && Puts(h.tx, c, m, m', items);
      hide Inv;
      PutFeeds(h, c, m, m', items, rest, w, wakeupId, d);
    }
  }

  lemma FedTwice(d: Desk, a: seq<Item<Endpoint>>, b: seq<Item<Endpoint>>)
    ensures Fed(Fed(d, a), b) == Fed(d, a + b)
  {
    assert d.arrived + a + b == d.arrived + (a + b) && d.queue + a + b == d.queue + (a + b);
  }

  /** Any messages handled one after the other, up to the first that fails. */
  lemma {:induction false} BatchFeeds(h: Hub, batch: seq<Arrival>, rest: seq<SubSelectionResult>, w: SubChannelId,
                                      wakeupId: nat, d: Desk)
    returns (items: seq<Item<Endpoint>>)
    requires Inv(h) && Same(h, d) && Avoids(Batch(batch), w) && InOrder(rest, w, wakeupId, d)
    ensures Inv(h.HandleAll(batch).0) && Same(h.HandleAll(batch).0, Fed(d, items))
    ensures InOrder(rest, w, wakeupId, Fed(d, items))
    decreases |batch|
  {
    hide InOrder, Inv;
    if batch == [] {
      items := [];
      assert Fed(d, []) == d;
    } else {
      items := HandleFeeds(h, batch[0], rest, w, wakeupId, d);
      if !h.Breaks(batch[0]) {
        var more := BatchFeeds(h.Handle(batch[0]), batch[1..], rest, w, wakeupId, Fed(d, items));
        FedTwice(d, items, more);
        items := items + more;
      }
    }
  }

  lemma {:induction false} PollsFeed(h: Hub, polls: seq<(Chan, SubChannelId, set<SubChannelId>)>,
                                     rest: seq<SubSelectionResult>, w: SubChannelId, wakeupId: nat, d: Desk)
    returns (items: seq<Item<Endpoint>>)
    requires Inv(h) && Same(h, d) && Avoids(Probes(polls), w) && InOrder(rest, w, wakeupId, d)
    ensures Inv(h.PollAll(polls)) && Same(h.PollAll(polls), Fed(d, items))
    ensures InOrder(rest, w, wakeupId, Fed(d, items))
    decreases |polls|
  {
    hide InOrder, Inv, Hub.Poll;
    if polls == [] {
      items := [];
      assert Fed(d, []) == d;
    } else {
      items := PollFeeds(h, polls[0].0, polls[0].1, polls[0].2, rest, w, wakeupId, d);
      var t := h.Poll(polls[0].0, polls[0].1, polls[0].2);
      var more := PollsFeed(t, polls[1..], rest, w, wakeupId, Fed(d, items));
      FedTwice(d, items, more);
      items := items + more;
    }
  }

  lemma {:induction false} AwaitFeeds(h: Hub, asks: seq<Ask>, w: SubChannelId, wakeupId: nat, d: Desk)
    returns (items: seq<Item<Endpoint>>)
    requires Inv(h) && Same(h, d) && (forall i | 0 <= i < |asks| :: Avoids(asks[i], w)) && InOrder([], w, wakeupId, d)
    ensures Inv(h.Await(asks).0) && Same(h.Await(asks).0, Fed(d, items)) && InOrder([], w, wakeupId, Fed(d, items))
    decreases |asks|
  {
    hide InOrder, Inv;
    items := [];
    assert Fed(d, []) == d;
    if h.queue == [] && asks != [] {
      match asks[0] {
        case Batch(batch) => items := BatchFeeds(h, batch, [], w, wakeupId, d);
        case Probes(polls) => items := PollsFeed(h, polls, [], w, wakeupId, d);
      }
      if !h.Asked(asks[0]).1 {
        var more := AwaitFeeds(h.Asked(asks[0]).0, asks[1..], w, wakeupId, Fed(d, items));
        FedTwice(d, items, more);
        items := items + more;
      }
    }
  }

  /** Only routed subchannels have anything arrived, and the wakeup is not one of them. */
  lemma ArrivedIsRouted(w: SubChannelId, wakeupId: nat, d: Desk)
    requires InOrder([], w, wakeupId, d)
    ensures Orderly(d.queue, d.t.ids) && forall i | 0 <= i < |d.arrived| :: d.arrived[i].scid != w
  {
    hide Orderly, Served, AllExpected, Requests, Matched, RightHandlers;
  }

  lemma FedComes(w: SubChannelId, wakeupId: nat, d: Desk, items: seq<Item<Endpoint>>)
    requires d.queue == [] && InOrder([], w, wakeupId, Fed(d, items))
    ensures Comes(items, w, d.t.ids)
  {
    hide InOrder, Orderly;
    ArrivedIsRouted(w, wakeupId, Fed(d, items));
    assert [] + items == items;
    assert forall i | 0 <= i < |items| :: items[i] == (d.arrived + items)[|d.arrived| + i];
  }

  /**
   In every run of a set, what its demultiplexers put into the queue during a `select` is what a
   turn of the router requires of it; and the turn sees just what that `select` reports. So the
   router ends without being shut down if and only if a message fails before there is something
   to report.
   */
  lemma RunServesRouter(start: Hub, events: seq<Event>, asks: seq<Ask>, w: SubChannelId, wakeupId: nat, d: Desk)
    requires Start(start) && IsRun(start, events) && Same(After(start, events), d)
    requires forall i | 0 <= i < |asks| :: Avoids(asks[i], w)
    requires InOrder([], w, wakeupId, d)
    ensures var h := After(start, events);
            var rounds := RoundsOf(h, asks);
            var (items, failed) := Awaited(d.queue, rounds);
            && (d.queue == [] ==> Comes(Awaited([], rounds).0, w, d.t.ids))
            && (failed <==> exists k: nat :: FailsIn(h, asks, k))
            && (!failed ==>
                  && Identified(items, d.t.ids) && h.Select(asks).1 == Reported(Reports(items, d.t.ids))
                  && Same(h.Select(asks).0, d.(queue := [], t := d.t.(ids := Remaining(items, d.t.ids)))))
  {
    hide InOrder, Inv, FailsIn, Comes;
    var h := After(start, events);
    RunFromStart(start, events);
    AwaitAgrees(h, asks);
    AwaitFailsIff(h, asks);
    SelectKeeps(h, asks);
    var items := AwaitFeeds(h, asks, w, wakeupId, d);
    if d.queue == [] {
      assert [] + items == items;
      FedComes(w, wakeupId, d, items);
    }
  }

  lemma RunFromStart(start: Hub, events: seq<Event>)
    requires Start(start) && IsRun(start, events)
    ensures Inv(After(start, events))
  {
    RunKeeps(start, events);
  }
}
