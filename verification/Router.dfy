/**
 The router (`src/mux/subchannel_router/mod.rs`): a proxy that asks for routes and for the
 shutdown, and a loop that serves both the requests and the messages on routed subchannels.
 */
module Router {
  import opened Basics
  import opened Protocol
  import opened Demux
  import opened Wire
  import opened ReceiverSet

  type Handler = nat

  datatype RouterMsg = AddRoute(receiver: SubReceiver, handler: Handler) | Shutdown

  /** How far a shutdown has got: its wakeup goes out before its message. */
  datatype Phase = Open | Waking | Closing

  /** A call of a handler with an item. */
  datatype Call = Call(handler: Handler, item: Item<Endpoint>)

  /** The messages among some items that belong to a subchannel. */
  function For(items: seq<Item<Endpoint>>, c: SubChannelId): seq<Item<Endpoint>> {
    if items == [] then []
    else (if items[0].Resolved? && items[0].scid == c then [items[0]] else []) + For(items[1..], c)
  }

  function Passed(calls: seq<Call>, c: SubChannelId): seq<Item<Endpoint>> {
    if calls == [] then []
    else
      var n := |calls| - 1;
      Passed(calls[..n], c) + if calls[n].item.scid == c then [calls[n].item] else []
  }

  /** The messages among some results that belong to a subchannel. */
  function Due(results: seq<SubSelectionResult>, c: SubChannelId): seq<Item<Endpoint>> {
    if results == [] then []
    else
      (if results[0].MessageReceived? && results[0].item.scid == c then [results[0].item] else [])
      + Due(results[1..], c)
  }

  lemma {:induction false} ForAppend(items: seq<Item<Endpoint>>, item: Item<Endpoint>, c: SubChannelId)
    ensures For(items + [item], c) == For(items, c) + if item.Resolved? && item.scid == c then [item] else []
  {
    if items == [] {
      assert [item][1..] == [];
    } else {
      assert (items + [item])[1..] == items[1..] + [item];
      ForAppend(items[1..], item, c);
    }
  }

  /** What a set reports of a subchannel are its messages, in order. */
  lemma {:induction false} DueIsFor(items: seq<Item<Endpoint>>, ids: Ids, c: SubChannelId)
    requires Identified(items, ids)
    ensures Due(Reports(items, ids), c) == For(items, c)
    decreases |items|
  {
    if items != [] {
      DueIsFor(items[1..], if items[0].Marker? then ids - {items[0].scid} else ids, c);
    }
  }

  /** The routes as the router has them: subchannels in the set, their ids, and handlers by id. */
  datatype Routes = Routes(ids: Ids, handlers: map<nat, Handler>, routed: map<SubChannelId, Handler>, nextId: nat)

  /** A result is for whoever has its id: the wakeup, or a routed subchannel with its handler. */
  predicate Expected(r: SubSelectionResult, w: SubChannelId, wakeupId: nat, t: Routes) {
    && r.id < t.nextId
    && match r
       case MessageReceived(id, item) =>
         item.Resolved?
         && if id == wakeupId then item.scid == w
            else item.scid != w && item.scid in t.routed && id in t.handlers && t.handlers[id] == t.routed[item.scid]
       case ChannelClosed(id) => id != wakeupId && forall c | c in t.ids :: t.ids[c] != id
  }

  ghost predicate AllExpected(results: seq<SubSelectionResult>, w: SubChannelId, wakeupId: nat, t: Routes) {
    && (forall i | 0 <= i < |results| :: Expected(results[i], w, wakeupId, t))
    && ClosedOnce(results)
  }

  /** Every subchannel in the set but the wakeup is routed, and its handler filed under its id. */
  predicate Filed(w: SubChannelId, wakeupId: nat, t: Routes) {
    && w in t.ids && t.ids[w] == wakeupId && w !in t.routed
    && (forall c | c in t.ids :: t.ids[c] < t.nextId)
    && (forall c | c in t.ids && c != w ::
          t.ids[c] != wakeupId && c in t.routed && t.ids[c] in t.handlers && t.handlers[t.ids[c]] == t.routed[c])
  }

  /** Requests are for subchannels that have never been routed; a shutdown is the last one. */
  ghost predicate Requests(msgs: seq<RouterMsg>, phase: Phase, w: SubChannelId, t: Routes) {
    && (forall i | 0 <= i < |msgs| && msgs[i].AddRoute? ::
          msgs[i].receiver.scid != w && msgs[i].receiver.scid !in t.routed && msgs[i].receiver.scid !in t.ids)
    && (forall i, j | 0 <= i < j < |msgs| && msgs[i].AddRoute? && msgs[j].AddRoute? ::
          msgs[i].receiver.scid != msgs[j].receiver.scid)
    && (forall i | 0 <= i < |msgs| && msgs[i].Shutdown? :: i == |msgs| - 1 && phase == Closing)
    && (phase == Closing ==> msgs != [] && msgs[|msgs| - 1] == Shutdown)
  }

  /** The calls made so far, and those to come, are what has arrived for a subchannel, in order. */
  predicate Served(arrived: seq<Item<Endpoint>>, calls: seq<Call>, rest: seq<SubSelectionResult>,
                   queue: seq<Item<Endpoint>>, c: SubChannelId)
  {
    For(arrived, c) == Passed(calls, c) + Due(rest, c) + For(queue, c)
  }

  predicate RightHandlers(calls: seq<Call>, routed: map<SubChannelId, Handler>) {
    forall i | 0 <= i < |calls| :: calls[i].item.scid in routed && calls[i].handler == routed[calls[i].item.scid]
  }

  function WakeupOf(w: SubChannelId): Item<Endpoint> {
    Resolved(w, 0, [])
  }

  /** Items reach the set for subchannels in it, and none after a marker; the wakeup is never closed. */
  ghost predicate QueueOk(queue: seq<Item<Endpoint>>, w: SubChannelId, ids: Ids) {
    Orderly(queue, ids) && forall i | 0 <= i < |queue| :: queue[i] != Marker(w)
  }

  /** What a set reports is expected, if it does not report a channel closed that is still in it. */
  lemma {:induction false} ReportsExpected(items: seq<Item<Endpoint>>, w: SubChannelId, wakeupId: nat, t: Routes)
    requires QueueOk(items, w, t.ids) && Filed(w, wakeupId, t)
    requires forall c, d | c in t.ids && d in t.ids && c != d :: t.ids[c] != t.ids[d]
    ensures Identified(items, t.ids)
    ensures forall i | 0 <= i < |Reports(items, t.ids)| ::
              Expected(Reports(items, t.ids)[i], w, wakeupId, t.(ids := Remaining(items, t.ids)))
    ensures Filed(w, wakeupId, t.(ids := Remaining(items, t.ids)))
    ensures Remaining(items, t.ids).Keys <= t.ids.Keys
    ensures forall c | c in Remaining(items, t.ids) :: Remaining(items, t.ids)[c] == t.ids[c]
    decreases |items|
  {
    OrderlyIsIdentified(items, t.ids);
    if items != [] {
      var ids' := if items[0].Marker? then t.ids - {items[0].scid} else t.ids;
      var rest := items[1..];
      assert forall i | 0 <= i < |rest| :: rest[i] == items[i + 1];
      assert items[0] != Marker(w);
      ReportsExpected(rest, w, wakeupId, t.(ids := ids'));
    }
  }

  /** Nothing is in a list for a subchannel that none of its items belongs to. */
  lemma {:induction false} NothingFor(items: seq<Item<Endpoint>>, c: SubChannelId)
    requires forall i | 0 <= i < |items| :: items[i].scid != c
    ensures For(items, c) == []
  {
    if items != [] {
      NothingFor(items[1..], c);
    }
  }

  lemma {:induction false} NothingPassed(calls: seq<Call>, c: SubChannelId)
    requires forall i | 0 <= i < |calls| :: calls[i].item.scid != c
    ensures Passed(calls, c) == []
  {
    if calls != [] {
      NothingPassed(calls[..|calls| - 1], c);
    }
  }

  lemma {:induction false} NothingDue(results: seq<SubSelectionResult>, c: SubChannelId)
    requires forall i | 0 <= i < |results| && results[i].MessageReceived? :: results[i].item.scid != c
    ensures Due(results, c) == []
  {
    if results != [] {
      NothingDue(results[1..], c);
    }
  }

  lemma ServedNext(arrived: seq<Item<Endpoint>>, calls: seq<Call>, rest: seq<SubSelectionResult>,
                   queue: seq<Item<Endpoint>>, handler: Handler, c: SubChannelId)
    requires Served(arrived, calls, rest, queue, c) && rest != [] && rest[0].MessageReceived?
    ensures Served(arrived, calls + [Call(handler, rest[0].item)], rest[1..], queue, c)
  {
  }

  lemma ServedNot(arrived: seq<Item<Endpoint>>, calls: seq<Call>, rest: seq<SubSelectionResult>,
                  queue: seq<Item<Endpoint>>, c: SubChannelId)
    requires Served(arrived, calls, rest, queue, c) && rest != []
    requires rest[0].MessageReceived? ==> rest[0].item.scid != c
    ensures Served(arrived, calls, rest[1..], queue, c)
  {
  }

  /** All that the router works on: its routes, its requests, and the messages it serves. */
  datatype Desk = Desk(t: Routes, queue: seq<Item<Endpoint>>, msgs: seq<RouterMsg>, phase: Phase, calls: seq<Call>,
                       arrived: seq<Item<Endpoint>>)

  /** As long as the router runs, with `rest` of the results of a `select` still to be served. */
  ghost predicate InOrder(rest: seq<SubSelectionResult>, w: SubChannelId, wakeupId: nat, d: Desk) {
    && QueueOk(d.queue, w, d.t.ids) && Filed(w, wakeupId, d.t) && AllExpected(rest, w, wakeupId, d.t)
    && Requests(d.msgs, d.phase, w, d.t) && Matched(rest, w, d) && RightHandlers(d.calls, d.t.routed)
    && (forall c | c in d.t.routed :: Served(d.arrived, d.calls, rest, d.queue, c))
    && (forall i | 0 <= i < |d.arrived| :: d.arrived[i].scid in d.t.routed)
  }

  /** Each wakeup on its way stands for a request, or for the shutdown whose message is still to come. */
  predicate Matched(rest: seq<SubSelectionResult>, w: SubChannelId, d: Desk) {
    |Due(rest, w)| + |For(d.queue, w)| == |d.msgs| + if d.phase == Waking then 1 else 0
  }

  lemma RestExpected(rest: seq<SubSelectionResult>, w: SubChannelId, wakeupId: nat, t: Routes)
    requires rest != [] && AllExpected(rest, w, wakeupId, t)
    ensures AllExpected(rest[1..], w, wakeupId, t)
  {
  }

  /** A message is passed to its handler, which is on file. */
  lemma PassKeepsOrder(rest: seq<SubSelectionResult>, w: SubChannelId, wakeupId: nat, d: Desk)
    requires InOrder(rest, w, wakeupId, d) && rest != [] && rest[0].MessageReceived? && rest[0].id != wakeupId
    ensures rest[0].id in d.t.handlers
    ensures InOrder(rest[1..], w, wakeupId, d.(calls := d.calls + [Call(d.t.handlers[rest[0].id], rest[0].item)]))
  {
    assert Expected(rest[0], w, wakeupId, d.t);
    RestExpected(rest, w, wakeupId, d.t);
    var calls := d.calls + [Call(d.t.handlers[rest[0].id], rest[0].item)];
    forall c | c in d.t.routed ensures Served(d.arrived, calls, rest[1..], d.queue, c) {
      ServedNext(d.arrived, d.calls, rest, d.queue, d.t.handlers[rest[0].id], c);
    }
  }

  /** A handler is taken off file: nothing that follows needs it. */
  lemma CloseKeepsOrder(rest: seq<SubSelectionResult>, w: SubChannelId, wakeupId: nat, d: Desk, id: nat)
    requires InOrder(rest, w, wakeupId, d) && rest != [] && rest[0] == ChannelClosed(id)
    ensures InOrder(rest[1..], w, wakeupId, d.(t := d.t.(handlers := d.t.handlers - {id})))
  {
    var t' := d.t.(handlers := d.t.handlers - {id});
    assert Expected(rest[0], w, wakeupId, d.t);
    forall i | 0 <= i < |rest| - 1 ensures Expected(rest[1..][i], w, wakeupId, t') {
      assert Expected(rest[i + 1], w, wakeupId, d.t) && rest[1..][i] == rest[i + 1] && rest[i + 1].id != id;
    }
    forall c | c in d.t.routed ensures Served(d.arrived, d.calls, rest[1..], d.queue, c) {
      ServedNot(d.arrived, d.calls, rest, d.queue, c);
    }
  }

  /** A wakeup is served: there is a request for it, or a shutdown is about to send its message. */
  lemma WakeupHasRequest(rest: seq<SubSelectionResult>, w: SubChannelId, wakeupId: nat, d: Desk)
    requires InOrder(rest, w, wakeupId, d) && rest != [] && rest[0].MessageReceived? && rest[0].id == wakeupId
    ensures d.msgs == [] ==> d.phase == Waking
    ensures d.msgs != [] && d.msgs[0].Shutdown? ==> |d.msgs| == 1 && d.phase == Closing
    ensures |Due(rest[1..], w)| == |Due(rest, w)| - 1
    ensures forall c | c in d.t.routed :: Served(d.arrived, d.calls, rest[1..], d.queue, c)
  {
    assert Expected(rest[0], w, wakeupId, d.t);
    forall c | c in d.t.routed ensures Served(d.arrived, d.calls, rest[1..], d.queue, c) {
      ServedNot(d.arrived, d.calls, rest, d.queue, c);
    }
  }

  /** The request is dealt with, but no route comes of it. */
  lemma RefuseKeepsOrder(rest: seq<SubSelectionResult>, w: SubChannelId, wakeupId: nat, d: Desk)
    requires InOrder(rest, w, wakeupId, d) && rest != [] && rest[0].MessageReceived? && rest[0].id == wakeupId
    requires d.msgs != [] && d.msgs[0].AddRoute?
    ensures InOrder(rest[1..], w, wakeupId, d.(msgs := d.msgs[1..]))
  {
    WakeupHasRequest(rest, w, wakeupId, d);
    RestExpected(rest, w, wakeupId, d.t);
    assert forall i | 0 <= i < |d.msgs| - 1 :: d.msgs[1..][i] == d.msgs[i + 1];
  }

  function Route(t: Routes, c: SubChannelId, handler: Handler): Routes {
    Routes(t.ids[c := t.nextId], t.handlers[t.nextId := handler], t.routed[c := handler], t.nextId + 1)
  }

  /** A new route concerns nothing that is still under way. */
  lemma RouteKeepsOrder(rest: seq<SubSelectionResult>, w: SubChannelId, wakeupId: nat, d: Desk, c: SubChannelId,
                        handler: Handler)
    requires InOrder(rest, w, wakeupId, d) && c != w && c !in d.t.routed && c !in d.t.ids
    requires forall i | 0 <= i < |d.msgs| && d.msgs[i].AddRoute? :: d.msgs[i].receiver.scid != c
    ensures InOrder(rest, w, wakeupId, d.(t := Route(d.t, c, handler)))
  {
    RouteExpected(rest, w, wakeupId, d.t, c, handler);
    RouteServed(rest, w, wakeupId, d, c);
    RouteFiled(w, wakeupId, d, c, handler);
    hide AllExpected, Served, QueueOk, Due, For, Filed, Requests, RightHandlers;
  }

  lemma RouteFiled(w: SubChannelId, wakeupId: nat, d: Desk, c: SubChannelId, handler: Handler)
    requires Filed(w, wakeupId, d.t) && QueueOk(d.queue, w, d.t.ids) && Requests(d.msgs, d.phase, w, d.t)
    requires c != w && c !in d.t.routed && c !in d.t.ids && RightHandlers(d.calls, d.t.routed)
    requires forall i | 0 <= i < |d.msgs| && d.msgs[i].AddRoute? :: d.msgs[i].receiver.scid != c
    ensures var t := Route(d.t, c, handler);
            && Filed(w, wakeupId, t) && QueueOk(d.queue, w, t.ids) && Requests(d.msgs, d.phase, w, t)
            && RightHandlers(d.calls, t.routed)
  {
  }

  lemma RouteExpected(rest: seq<SubSelectionResult>, w: SubChannelId, wakeupId: nat, t: Routes, c: SubChannelId,
                      handler: Handler)
    requires AllExpected(rest, w, wakeupId, t) && c != w && c !in t.routed && c !in t.ids
    ensures AllExpected(rest, w, wakeupId, Route(t, c, handler))
  {
  }

  lemma RouteServed(rest: seq<SubSelectionResult>, w: SubChannelId, wakeupId: nat, d: Desk, c: SubChannelId)
    requires InOrder(rest, w, wakeupId, d) && c != w && c !in d.t.routed && c !in d.t.ids
    ensures Served(d.arrived, d.calls, rest, d.queue, c)
  {
    NothingFor(d.arrived, c);
    NothingFor(d.queue, c);
    NothingPassed(d.calls, c);
    assert forall i | 0 <= i < |rest| :: Expected(rest[i], w, wakeupId, d.t);
    NothingDue(rest, c);
  }

  /** The subchannel of a request is routed to the handler. */
  predicate Granted(msg: RouterMsg, routed: map<SubChannelId, Handler>) {
    msg.AddRoute? && msg.receiver.scid in routed && routed[msg.receiver.scid] == msg.handler
  }

  /** Every message but those that still wait has been answered; what was granted is routed. */
  ghost predicate AllAnswered(asked: seq<RouterMsg>, answers: seq<bool>, msgs: seq<RouterMsg>,
                              routed: map<SubChannelId, Handler>)
  {
    && |answers| <= |asked| && asked[|answers|..] == msgs
    && forall i | 0 <= i < |answers| && answers[i] :: Granted(asked[i], routed)
  }

  lemma AskedMore(asked: seq<RouterMsg>, answers: seq<bool>, msgs: seq<RouterMsg>,
                  routed: map<SubChannelId, Handler>, msg: RouterMsg)
    requires AllAnswered(asked, answers, msgs, routed)
    ensures AllAnswered(asked + [msg], answers, msgs + [msg], routed)
  {
    assert (asked + [msg])[|answers|..] == asked[|answers|..] + [msg];
  }

  /** The first request that waits is answered. */
  lemma AnsweredOne(asked: seq<RouterMsg>, answers: seq<bool>, msgs: seq<RouterMsg>,
                    routed: map<SubChannelId, Handler>)
    requires AllAnswered(asked, answers, msgs, routed)
    requires msgs != [] && msgs[0].AddRoute? && msgs[0].receiver.scid !in routed
    ensures AllAnswered(asked, answers + [true], msgs[1..], routed[msgs[0].receiver.scid := msgs[0].handler])
    ensures AllAnswered(asked, answers + [false], msgs[1..], routed)
  {
    assert asked[|answers|] == msgs[0] && asked[|answers| + 1..] == msgs[1..];
  }

  /** The router thread together with what it shares with its proxy. */
  class Router {
    const subreceivers: SubReceiverSet
    const w: SubChannelId
    const wakeupId: nat
    ghost const origin: Origins
    var msgs: seq<RouterMsg>
    var phase: Phase
    var handlers: map<nat, Handler>
    var calls: seq<Call>
    var stopped: bool
    var routed: map<SubChannelId, Handler>
    ghost var arrived: seq<Item<Endpoint>>
    ghost var asked: seq<RouterMsg>
    ghost var answers: seq<bool>
    ghost var sets: set<MultiReceiverSet>
    ghost var machines: set<StateMachine>

    ghost function View(): Desk
      reads this, subreceivers
    {
      Desk(Routes(subreceivers.ids, handlers, routed, subreceivers.nextId), subreceivers.queue, msgs, phase, calls,
           arrived)
    }

    ghost predicate Serving(rest: seq<SubSelectionResult>)
      reads this, subreceivers
    {
      && subreceivers.Bookkept() && InOrder(rest, w, wakeupId, View()) && Accounted()
      && subreceivers.multiReceiverSet in sets
      && forall i | 0 <= i < |msgs| && msgs[i].AddRoute? ::
           msgs[i].receiver.multiReceiverSet in sets && msgs[i].receiver.machine in machines
    }

    /**
     `asked` are all messages to the router. Those it has dealt with are answered: if with yes, the
     subchannel is routed to the handler.
     */
    ghost predicate Accounted()
      reads this`asked, this`answers, this`msgs, this`routed
    {
      AllAnswered(asked, answers, msgs, routed)
    }

    /** What has been passed of each subchannel is the first of what arrived, and went to the right handler. */
    ghost predicate PassedInOrder()
      reads this
    {
      RightHandlers(calls, routed) && forall c | c in routed :: Passed(calls, c) <= For(arrived, c)
    }

    /** No other set takes the channels of `origin`, and all requests are for subreceivers of these channels. */
    ghost predicate Exclusive()
      reads this`msgs, subreceivers`added, subreceivers`multiReceiverSet, subreceivers.multiReceiverSet, origin.Values
    {
      subreceivers.Gathered(origin) && forall i | 0 <= i < |msgs| && msgs[i].AddRoute? :: Belongs(msgs[i].receiver)
    }

    ghost predicate Belongs(receiver: SubReceiver) {
      receiver.chan in origin && origin[receiver.chan] == receiver.multiReceiverSet
    }

    /** Others only ask for routes of subreceivers of these channels. */
    ghost predicate AllBelong(actions: seq<Action>) {
      forall i | 0 <= i < |actions| && actions[i].Ask? :: Belongs(actions[i].receiver)
    }

    /** All answers since the n-th were yes. */
    ghost predicate Granting(n: nat)
      reads this`answers
    {
      forall i | n <= i < |answers| :: answers[i]
    }

    /** The router listens to its wakeup channel first of all; nothing can be wrong with that one. */
    constructor (wakeup: SubReceiver, tx: Tx, ghost origin: Origins)
      requires wakeup.multiReceiverSet.pending.Some?
      modifies wakeup.multiReceiverSet, wakeup.machine
      ensures Serving([]) && !stopped && phase == Open && msgs == [] && calls == [] && routed == map[] && arrived == []
      ensures asked == [] && answers == []
      ensures w == wakeup.scid && fresh(subreceivers) && this.origin == origin
      ensures old(Untouched(origin)) && wakeup.chan in origin && origin[wakeup.chan] == wakeup.multiReceiverSet
              ==> Exclusive()
    {
      var s := new SubReceiverSet(tx);
      ghost var own := wakeup.chan in origin && origin[wakeup.chan] == wakeup.multiReceiverSet;
      var id := s.AddOpaque(wakeup, if own then origin else map[wakeup.chan := wakeup.multiReceiverSet]);
      this.origin := origin;
      subreceivers, w, wakeupId := s, wakeup.scid, 0;
      msgs, phase, handlers, calls, stopped := [], Open, map[], [], false;
      routed, arrived := map[], [];
      asked, answers := [], [];
      sets, machines := {s.multiReceiverSet}, {};
    }

    // -------------------------------------------------------------------------------------
    // What others do, at any time
    // -------------------------------------------------------------------------------------

    predicate New(c: SubChannelId)
      reads this, subreceivers
    {
      && c != w && c !in routed && c !in subreceivers.ids
      && forall i | 0 <= i < |msgs| && msgs[i].AddRoute? :: msgs[i].receiver.scid != c
    }

    /** `RouterProxy::add_route`: the request first, then the wakeup, unless a shutdown has begun. */
    method RequestRoute(ghost rest: seq<SubSelectionResult>, receiver: SubReceiver, handler: Handler) returns (ok: bool)
      requires Serving(rest) && New(receiver.scid)
      modifies this`msgs, this`asked, this`sets, this`machines, subreceivers`queue
      ensures Serving(rest) && ok == (phase == Open)
      ensures var more := if ok then [AddRoute(receiver, handler)] else [];
              msgs == old(msgs) + more && asked == old(asked) + more
      ensures sets <= old(sets) + {receiver.multiReceiverSet} && machines <= old(machines) + {receiver.machine}
      ensures sets >= old(sets) && machines >= old(machines)
      ensures subreceivers.queue == old(subreceivers.queue) + if ok then [WakeupOf(w)] else []
    {
      hide Served, AllExpected, Matched, RightHandlers, For, Due, Passed, Filed;
      if phase != Open {
        return false;
      }
      AskedMore(asked, answers, msgs, routed, AddRoute(receiver, handler));
      AskKeepsOrder(rest, w, wakeupId, View(), AddRoute(receiver, handler));
      QueueWakeup(rest, w, wakeupId, View());
      hide InOrder, AllAnswered;
      msgs, asked := msgs + [AddRoute(receiver, handler)], asked + [AddRoute(receiver, handler)];
      subreceivers.Deposit(WakeupOf(w));
      sets, machines := sets + {receiver.multiReceiverSet}, machines + {receiver.machine};
      ok := true;
    }

    /** The first half of `RouterProxy::shutdown`: the wakeup goes out. */
    method BeginShutdown(ghost rest: seq<SubSelectionResult>)
      requires Serving(rest)
      modifies this`phase, subreceivers`queue
      ensures Serving(rest) && phase == if old(phase) == Open then Waking else old(phase)
      ensures subreceivers.queue == old(subreceivers.queue) + if old(phase) == Open then [WakeupOf(w)] else []
    {
      if phase == Open {
        WakeKeepsOrder(rest, w, wakeupId, View());
        assert QueueOk(subreceivers.queue + [WakeupOf(w)], w, subreceivers.ids);
        hide InOrder;
        phase := Waking;
        subreceivers.Deposit(WakeupOf(w));
      }
    }

    /** The second half: the message follows. */
    method EndShutdown(ghost rest: seq<SubSelectionResult>)
      requires Serving(rest) && phase == Waking
      modifies this`phase, this`msgs, this`asked
      ensures Serving(rest) && phase == Closing && msgs == old(msgs) + [Shutdown] && asked == old(asked) + [Shutdown]
    {
      AskedMore(asked, answers, msgs, routed, Shutdown);
      phase := Closing;
      msgs, asked := msgs + [Shutdown], asked + [Shutdown];
    }

    /** A demultiplexer passes on an item of a routed subchannel. By module `RouterRuns`, nothing else ever comes. */
    method Arrive(ghost rest: seq<SubSelectionResult>, item: Item<Endpoint>)
      requires Serving(rest) && item.scid != w && item.scid in subreceivers.ids
               && Marker(item.scid) !in subreceivers.queue
      modifies this`arrived, subreceivers`queue
      ensures Serving(rest) && arrived == old(arrived) + [item]
      ensures subreceivers.queue == old(subreceivers.queue) + [item]
    {
      hide Served, AllExpected, Requests, Matched, RightHandlers, For;
      ArriveKeepsOrder(rest, w, wakeupId, View(), item);
      ArriveQueued(subreceivers.queue, w, subreceivers.ids, item);
      hide InOrder;
      arrived := arrived + [item];
      subreceivers.Deposit(item);
    }

    /** Since `n` items had arrived, those that did for a subchannel are the ones in the queue. */
    ghost predicate QueuedSince(n: nat)
      reads this, subreceivers
    {
      n <= |arrived| && forall c | c != w :: For(subreceivers.queue, c) == For(arrived[n..], c)
    }

    /** Anything another thread may do, if it can be done now. */
    method Other(ghost rest: seq<SubSelectionResult>, action: Action, ghost n: nat)
      requires Serving(rest) && QueuedSince(n)
      modifies this`msgs, this`asked, this`phase, this`sets, this`machines, this`arrived, subreceivers`queue
      ensures Serving(rest) && QueuedSince(n) && arrived[..n] == old(arrived[..n]) && old(asked) <= asked
      ensures old(Exclusive()) && AllBelong([action]) ==> Exclusive()
      ensures sets <= old(sets) + SetsIn([action]) && machines <= old(machines) + MachinesIn([action])
      ensures old(sets) <= sets && old(machines) <= machines
    {
      hide InOrder, For, SubReceiverSet.Gathered;
      match action {
        case Ask(receiver, handler) =>
          assert [action][0] == action;
          assert receiver.multiReceiverSet in SetsIn([action]) && receiver.machine in MachinesIn([action]);
          if New(receiver.scid) {
            var ok := RequestRoute(rest, receiver, handler);
            WakeupIsNoItem(old(subreceivers.queue), w);
            assert !ok ==> subreceivers.queue == old(subreceivers.queue);
          }
        case StartShutdown =>
          WakeupIsNoItem(subreceivers.queue, w);
          BeginShutdown(rest);
          assert old(phase) != Open ==> subreceivers.queue == old(subreceivers.queue);
        case FinishShutdown =>
          if phase == Waking {
            EndShutdown(rest);
          }
        case Deliver(item) =>
          if item.scid != w && item.scid in subreceivers.ids && Marker(item.scid) !in subreceivers.queue {
            ItemIsBoth(subreceivers.queue, arrived, n, item);
            Arrive(rest, item);
          }
      }
    }

    method Others(ghost rest: seq<SubSelectionResult>, actions: seq<Action>, ghost n: nat)
      requires Serving(rest) && QueuedSince(n)
      modifies this`msgs, this`asked, this`phase, this`sets, this`machines, this`arrived, subreceivers`queue
      ensures Serving(rest) && QueuedSince(n) && arrived[..n] == old(arrived[..n]) && old(asked) <= asked
      ensures old(Exclusive()) && AllBelong(actions) ==> Exclusive()
      ensures sets <= old(sets) + SetsIn(actions) && machines <= old(machines) + MachinesIn(actions)
      ensures old(sets) <= sets && old(machines) <= machines
    {
      hide InOrder, For, Exclusive;
      for i := 0 to |actions|
        invariant Serving(rest) && QueuedSince(n) && arrived[..n] == old(arrived[..n]) && old(asked) <= asked
        invariant old(Exclusive()) && AllBelong(actions) ==> Exclusive()
        invariant sets <= old(sets) + SetsIn(actions) && machines <= old(machines) + MachinesIn(actions)
        invariant old(sets) <= sets && old(machines) <= machines
      {
        TouchedAt(actions, i);
        Other(rest, actions[i], n);
      }
    }

    // -------------------------------------------------------------------------------------
    // What the router does
    // -------------------------------------------------------------------------------------

    /** The first result is a message for a handler. */
    method Pass(ghost rest: seq<SubSelectionResult>, id: nat, item: Item<Endpoint>)
      requires Serving(rest) && rest != [] && rest[0] == MessageReceived(id, item) && id != wakeupId
      modifies this`calls
      ensures Serving(rest[1..])
    {
      hide InOrder, SubReceiverSet.Bookkept;
      PassKeepsOrder(rest, w, wakeupId, View());
      if id in handlers {
        calls := calls + [Call(handlers[id], item)];
      }
    }

    /** The first result is the end of a channel. */
    method Close(ghost rest: seq<SubSelectionResult>, id: nat)
      requires Serving(rest) && rest != [] && rest[0] == ChannelClosed(id)
      modifies this`handlers
      ensures Serving(rest[1..]) && id !in handlers
    {
      hide InOrder, SubReceiverSet.Bookkept;
      CloseKeepsOrder(rest, w, wakeupId, View(), id);
      handlers := handlers - {id};
    }

    /** The first result is a wakeup. There is a request for it, or one that need only be waited for. */
    method Wake(ghost rest: seq<SubSelectionResult>)
      requires Serving(rest) && rest != [] && rest[0].MessageReceived? && rest[0].id == wakeupId && !stopped
      modifies this`msgs, this`asked, this`answers, this`phase, this`stopped, this`handlers, this`routed
      modifies subreceivers`nextId, subreceivers`ids, subreceivers`rxs
      modifies subreceivers`multiReceiverSet, subreceivers`added, sets, machines
      ensures stopped ==> msgs == [] && phase == Closing && PassedInOrder()
      ensures !stopped ==> Serving(rest[1..])
      ensures stopped <==> old(msgs) == [] || old(msgs)[0].Shutdown?
      ensures !stopped ==> old(msgs) != [] && HasAnswered(old(msgs)[0])
      ensures !stopped && old(Exclusive()) ==> Exclusive() && answers == old(answers) + [true]
    {
      hide InOrder, SubReceiverSet.Bookkept, For, Passed, Due, RightHandlers;
      WakeupHasRequest(rest, w, wakeupId, View());
      SoFarInOrder(rest, w, wakeupId, View());
      if msgs == [] {
        EndShutdown(rest);
      }
      var msg := msgs[0];
      match msg
      case Shutdown =>
        msgs := msgs[1..];
        stopped := true;
      case AddRoute(receiver, handler) =>
        Grant(rest, receiver, handler);
    }

    /**
     The request is answered: with yes unless the set refuses the subreceiver. If it does, nothing
     comes of the request; otherwise the subreceiver is in the set under a new id, for which the
     handler is on file.
     */
    twostate predicate HasAnswered(msg: RouterMsg)
      reads this, subreceivers, subreceivers.multiReceiverSet
      reads if msg.AddRoute? then {msg.receiver.multiReceiverSet} else {}
    {
      && msg.AddRoute? && old(msgs) != [] && msgs == old(msgs)[1..] && asked == old(asked)
      && var granted := !old(subreceivers.Refuses(msg.receiver));
         var id, c := old(subreceivers.nextId), msg.receiver.scid;
         && answers == old(answers) + [granted]
         && handlers == (if granted then old(handlers)[id := msg.handler] else old(handlers))
         && routed == (if granted then old(routed)[c := msg.handler] else old(routed))
         && subreceivers.ids == (if granted then old(subreceivers.ids)[c := id] else old(subreceivers.ids))
    }

    /** The subreceiver joins the set, if it can. */
    method Join(receiver: SubReceiver) returns (id: Result<nat>)
      requires subreceivers.Bookkept() && Orderly(subreceivers.queue, subreceivers.ids)
      requires receiver.scid !in subreceivers.ids && subreceivers.multiReceiverSet in sets
      requires receiver.multiReceiverSet in sets && receiver.machine in machines
      modifies subreceivers`nextId, subreceivers`ids, subreceivers`rxs
      modifies subreceivers`multiReceiverSet, subreceivers`added, sets, machines
      ensures subreceivers.Bookkept() && subreceivers.multiReceiverSet in sets
      ensures if id.Ok? then
                && id.value == old(subreceivers.nextId) && subreceivers.nextId == id.value + 1
                && subreceivers.ids == old(subreceivers.ids)[receiver.scid := id.value]
              else subreceivers.nextId == old(subreceivers.nextId) && subreceivers.ids == old(subreceivers.ids)
      ensures id.Ok? <==> !old(subreceivers.Refuses(receiver))
      ensures old(subreceivers.Gathered(origin)) && Belongs(receiver) ==> id.Ok? && subreceivers.Gathered(origin)
    {
      hide SubReceiverSet.Gathered, SubReceiverSet.Bookkept, Orderly, SubReceiverSet.Refuses;
      ghost var own := map[receiver.chan := receiver.multiReceiverSet];
      id := subreceivers.AddOpaque(receiver, if Belongs(receiver) then origin else own);
    }

    /** The subreceiver joins the set, and the handler is filed, or nothing happens. */
    method Enroll(receiver: SubReceiver, handler: Handler)
      requires subreceivers.Bookkept() && Orderly(subreceivers.queue, subreceivers.ids)
      requires receiver.scid !in subreceivers.ids && subreceivers.multiReceiverSet in sets
      requires receiver.multiReceiverSet in sets && receiver.machine in machines
      modifies this`answers, this`handlers, this`routed
      modifies subreceivers`nextId, subreceivers`ids, subreceivers`rxs
      modifies subreceivers`multiReceiverSet, subreceivers`added, sets, machines
      ensures subreceivers.Bookkept() && subreceivers.multiReceiverSet in sets
      ensures var granted, d := !old(subreceivers.Refuses(receiver)), old(View());
              && answers == old(answers) + [granted]
              && View() == if granted then d.(t := Route(d.t, receiver.scid, handler)) else d
      ensures old(subreceivers.Gathered(origin)) && Belongs(receiver) ==>
                subreceivers.Gathered(origin) && !old(subreceivers.Refuses(receiver))
    {
      hide SubReceiverSet.Gathered, SubReceiverSet.Bookkept, Orderly, SubReceiverSet.Refuses;
      var id := Join(receiver);
      answers := answers + [id.Ok?];
      if id.Ok? {
        handlers := handlers[id.value := handler];
        routed := routed[receiver.scid := handler];
      }
    }

    /** A route is added, or at least the attempt is acknowledged. */
    method Grant(ghost rest: seq<SubSelectionResult>, receiver: SubReceiver, handler: Handler)
      requires Serving(rest) && rest != [] && rest[0].MessageReceived? && rest[0].id == wakeupId
      requires msgs != [] && msgs[0] == AddRoute(receiver, handler)
      modifies this`msgs, this`answers, this`handlers, this`routed
      modifies subreceivers`nextId, subreceivers`ids, subreceivers`rxs
      modifies subreceivers`multiReceiverSet, subreceivers`added, sets, machines
      ensures Serving(rest[1..]) && HasAnswered(old(msgs)[0])
      ensures old(Exclusive()) ==> Exclusive() && answers == old(answers) + [true]
    {
      hide InOrder, SubReceiverSet.Bookkept, Orderly, SubReceiverSet.Refuses, SubReceiverSet.Gathered, AllAnswered;
      GrantKeepsOrder(rest, w, wakeupId, View());
      AnsweredOne(asked, answers, msgs, routed);
      msgs := msgs[1..];
      Enroll(receiver, handler);
    }

    /** One result is served. */
    method ServeOne(results: seq<SubSelectionResult>, i: nat)
      requires i < |results| && Serving(results[i..]) && !stopped
      modifies this`msgs, this`asked, this`answers, this`phase, this`stopped, this`handlers, this`routed, this`calls
      modifies subreceivers`nextId, subreceivers`ids, subreceivers`rxs
      modifies subreceivers`multiReceiverSet, subreceivers`added, sets, machines
      ensures stopped ==> msgs == [] && phase == Closing && PassedInOrder()
      ensures !stopped ==> Serving(results[i + 1..]) && old(asked) <= asked && old(answers) <= answers
      ensures !stopped ==> |answers| + |Due(results[i + 1..], w)| == old(|answers|) + |Due(results[i..], w)|
      ensures !stopped && old(Exclusive()) ==> Exclusive() && Granting(old(|answers|))
    {
      hide InOrder, Due, SubReceiverSet.Gathered;
      assert results[i..][1..] == results[i + 1..];
      DueRest(results[i..], w, wakeupId, View());
      match results[i] {
        case MessageReceived(id, item) =>
          if id == wakeupId {
            Wake(results[i..]);
          } else {
            Pass(results[i..], id, item);
          }
        case ChannelClosed(id) => Close(results[i..], id);
      }
    }

    /**
     Results are served one after the other, until there are none or the router stops. Before each
     of them, others may act: `others[i]` is what they do before the i-th.
     */
    method Serve(results: seq<SubSelectionResult>, others: seq<seq<Action>>, ghost n: nat)
      requires Serving(results) && !stopped && QueuedSince(n) && n <= |arrived|
      modifies this, subreceivers`queue, subreceivers`nextId, subreceivers`ids, subreceivers`rxs
      modifies subreceivers`multiReceiverSet, subreceivers`added
      modifies sets, machines, SetsIn(Flat(others)), MachinesIn(Flat(others))
      ensures stopped ==> msgs == [] && phase == Closing && PassedInOrder()
      ensures !stopped ==> Serving([]) && QueuedSince(n)
      ensures n <= |arrived| && arrived[..n] == old(arrived[..n])
      ensures !stopped ==> old(asked) <= asked && old(answers) <= answers
      ensures !stopped ==> |answers| == old(|answers|) + |Due(results, w)|
      ensures !stopped && old(Exclusive()) && AllBelong(Flat(others)) ==> Exclusive() && Granting(old(|answers|))
    {
      var i := 0;
      hide Exclusive, InOrder, PassedInOrder, For, Due, SetsIn, MachinesIn, Flat, SubReceiverSet.Bookkept, Serving;
      while i < |results| && !stopped
        invariant 0 <= i <= |results|
        invariant stopped ==> msgs == [] && phase == Closing && PassedInOrder()
        invariant !stopped ==> Serving(results[i..]) && QueuedSince(n)
        invariant n <= |arrived| && arrived[..n] == old(arrived[..n])
        invariant !stopped ==> old(asked) <= asked && old(answers) <= answers
        invariant !stopped ==> |answers| + |Due(results[i..], w)| == old(|answers|) + |Due(results, w)|
        invariant !stopped && old(Exclusive()) && AllBelong(Flat(others)) ==> Exclusive() && Granting(old(|answers|))
        invariant sets <= old(sets) + SetsIn(Flat(others)) && machines <= old(machines) + MachinesIn(Flat(others))
        decreases |results| - i
      {
        if i < |others| {
          FlatHolds(others, i);
          FlatHas(others, i);
          Others(results[i..], others[i], n);
        }
        ServeOne(results, i);
        i := i + 1;
      }
      assert !stopped ==> results[i..] == [];
      NothingDue([], w);
    }

    /** A `select`: what is in the queue, or comes into it in some rounds, is about to be served. */
    method Collect(rounds: seq<Round>) returns (selected: Result<seq<SubSelectionResult>>)
      requires Serving([])
      requires subreceivers.queue == [] ==> Comes(Awaited([], rounds).0, w, subreceivers.ids)
      modifies this`arrived, subreceivers`rxs, subreceivers`ids, subreceivers`queue, subreceivers`reported
      ensures arrived == old(arrived) + Brought(old(subreceivers.queue), rounds)
      ensures selected.Err? <==> Awaited(old(subreceivers.queue), rounds).1
      ensures selected.Err? ==> PassedInOrder()
      ensures selected.Ok? ==> Serving(selected.value) && QueuedSince(|arrived|) && subreceivers.queue == []
    {
      hide InOrder, Awaited, Brought, Comes, For, Passed, SubReceiverSet.Bookkept, Reports, Remaining, Identified;
      hide AllAnswered, RightHandlers, Orderly, ClosedOnce;
      ghost var d := View();
      ghost var e := d.(arrived := d.arrived + Brought(d.queue, rounds), queue := Awaited(d.queue, rounds).0);
      ArrivalsKeepOrder(w, wakeupId, d, rounds);
      SoFarInOrder([], w, wakeupId, e);
      SelectKeepsOrder(w, wakeupId, e, subreceivers);
      ghost var reported := subreceivers.reported;
      arrived := arrived + Brought(subreceivers.queue, rounds);
      selected := subreceivers.Select(rounds);
      if selected.Ok? {
        ReportedOnce(subreceivers, reported, selected.value);
        assert arrived[|arrived|..] == [];
      }
    }

    /**
     One turn of the loop: what is in the queue of the set is reported, or else what its underlying
     set has queued in some `rounds`; that is served, in order, while others go on acting. The
     router stops if and only if the underlying set fails first or a shutdown is served. Unless it
     stops, every message that had arrived for a routed subchannel before serving began has then
     been passed to its handler, exactly once and in order. If it stops, what has been passed is
     the first of what arrived; if it does because of a failure, that is no more than before.
     Unless it stops, every request that waited when the turn began has been answered; those that
     were granted are routed to their handlers, and all are if no other set takes their channels.
     */
    method Turn(rounds: seq<Round>, others: seq<seq<Action>>)
      requires Serving([]) && !stopped
      requires subreceivers.queue == [] ==> Comes(Awaited([], rounds).0, w, subreceivers.ids)
      modifies this, subreceivers, sets, machines, SetsIn(Flat(others)), MachinesIn(Flat(others))
      ensures stopped <==> Awaited(old(subreceivers.queue), rounds).1 || (msgs == [] && phase == Closing)
      ensures stopped ==> PassedInOrder()
      ensures Awaited(old(subreceivers.queue), rounds).1 ==> calls == old(calls) && msgs == old(msgs)
      ensures !stopped ==>
                && Serving([]) && RightHandlers(calls, routed)
                && forall c | c in routed ::
                     For(old(arrived) + Brought(old(subreceivers.queue), rounds), c) == Passed(calls, c)
      ensures !stopped ==>
                && old(asked) <= asked && old(answers) <= answers && |old(asked)| <= |answers|
                && forall i | 0 <= i < |old(asked)| && answers[i] :: Granted(old(asked)[i], routed)
      ensures !stopped && old(Exclusive()) && AllBelong(Flat(others)) ==> Exclusive() && Granting(old(|answers|))
    {
      hide Exclusive, InOrder, Awaited, Brought, Comes, For, Passed, Due;
      var selected := Collect(rounds);
      if selected.Err? {
        stopped := true;
        return;
      }
      AllDue(selected.value, w, wakeupId, View());
      ghost var n, before := |arrived|, arrived;
      assert arrived[..n] == before;
      Serve(selected.value, others, n);
      if !stopped {
        AllServed(w, wakeupId, View(), n);
        StillOpen([], w, wakeupId, View());
      }
    }
  }

  /** What the underlying set has queued by the time there is something to report. */
  function Brought(queue: seq<Item<Endpoint>>, rounds: seq<Round>): seq<Item<Endpoint>> {
    if queue == [] then Awaited([], rounds).0 else []
  }

  /** Items that may come for a set with these ids, if nothing is queued yet; none for the wakeup. */
  ghost predicate Comes(items: seq<Item<Endpoint>>, w: SubChannelId, ids: Ids) {
    Orderly(items, ids) && forall i | 0 <= i < |items| :: items[i].scid != w
  }

  lemma ComesLast(items: seq<Item<Endpoint>>, w: SubChannelId, ids: Ids)
    requires Comes(items, w, ids) && items != []
    ensures var n := |items| - 1;
            && Comes(items[..n], w, ids) && items[n].scid != w && items[n].scid in ids
            && Marker(items[n].scid) !in items[..n]
  {
  }

  lemma {:induction false} ArriveOneByOne(w: SubChannelId, wakeupId: nat, d: Desk, items: seq<Item<Endpoint>>)
    requires InOrder([], w, wakeupId, d) && d.queue == [] && Comes(items, w, d.t.ids)
    ensures InOrder([], w, wakeupId, d.(arrived := d.arrived + items, queue := items))
  {
    hide InOrder, Comes;
    if items == [] {
      assert d.(arrived := d.arrived + [], queue := []) == d;
    } else {
      var n := |items| - 1;
      var first, last := items[..n], items[n];
      ComesLast(items, w, d.t.ids);
      ArriveOneByOne(w, wakeupId, d, first);
      ArriveKeepsOrder([], w, wakeupId, d.(arrived := d.arrived + first, queue := first), last);
      assert first + [last] == items && d.arrived + first + [last] == d.arrived + items;
    }
  }

  /** What has arrived when a `select` is about to report is in order. */
  lemma ArrivalsKeepOrder(w: SubChannelId, wakeupId: nat, d: Desk, rounds: seq<Round>)
    requires InOrder([], w, wakeupId, d) && (d.queue == [] ==> Comes(Awaited([], rounds).0, w, d.t.ids))
    ensures InOrder([], w, wakeupId,
                    d.(arrived := d.arrived + Brought(d.queue, rounds), queue := Awaited(d.queue, rounds).0))
  {
    if d.queue == [] {
      ArriveOneByOne(w, wakeupId, d, Awaited([], rounds).0);
    } else {
      assert d.(arrived := d.arrived + [], queue := d.queue) == d;
    }
  }

  /** Serving a wakeup leaves one fewer, and serving another result leaves them all. */
  lemma DueRest(rest: seq<SubSelectionResult>, w: SubChannelId, wakeupId: nat, d: Desk)
    requires InOrder(rest, w, wakeupId, d) && rest != []
    ensures |Due(rest, w)|
            == |Due(rest[1..], w)| + if rest[0].MessageReceived? && rest[0].id == wakeupId then 1 else 0
  {
    assert Expected(rest[0], w, wakeupId, d.t);
  }

  /** Every request has its wakeup among the results, if none is left in the queue. */
  lemma AllDue(rest: seq<SubSelectionResult>, w: SubChannelId, wakeupId: nat, d: Desk)
    requires InOrder(rest, w, wakeupId, d) && d.queue == []
    ensures |Due(rest, w)| >= |d.msgs|
  {
    NothingFor([], w);
  }

  /** As long as no shutdown has been served, its message is still there. */
  lemma StillOpen(rest: seq<SubSelectionResult>, w: SubChannelId, wakeupId: nat, d: Desk)
    requires InOrder(rest, w, wakeupId, d)
    ensures d.phase == Closing ==> d.msgs != []
  {
  }

  /** Each of these channels still holds its receiver back in a set of its own. */
  ghost predicate Untouched(origin: Origins)
    reads origin.Values
  {
    && (forall a, b | a in origin && b in origin && a != b :: origin[a] != origin[b])
    && forall ch | ch in origin ::
         origin[ch].pending == Some(ch) && origin[ch].registered == [] && origin[ch].mergedInto == None
  }

  /** What other threads do: they ask for routes, shut the router down, or pass messages on. */
  datatype Action =
    | Ask(receiver: SubReceiver, handler: Handler)
    | StartShutdown
    | FinishShutdown
    | Deliver(item: Item<Endpoint>)

  function Flat(others: seq<seq<Action>>): seq<Action> {
    if others == [] then [] else others[0] + Flat(others[1..])
  }

  ghost function SetsIn(actions: seq<Action>): set<MultiReceiverSet> {
    set i | 0 <= i < |actions| && actions[i].Ask? :: actions[i].receiver.multiReceiverSet
  }

  ghost function MachinesIn(actions: seq<Action>): set<StateMachine> {
    set i | 0 <= i < |actions| && actions[i].Ask? :: actions[i].receiver.machine
  }

  lemma TouchedAt(actions: seq<Action>, i: nat)
    requires i < |actions|
    ensures SetsIn([actions[i]]) <= SetsIn(actions) && MachinesIn([actions[i]]) <= MachinesIn(actions)
  {
  }

  lemma {:induction false} FlatHolds(others: seq<seq<Action>>, i: nat)
    requires i < |others|
    ensures SetsIn(others[i]) <= SetsIn(Flat(others)) && MachinesIn(others[i]) <= MachinesIn(Flat(others))
    decreases i
  {
    TouchedBoth(others[0], Flat(others[1..]));
    if i > 0 {
      FlatHolds(others[1..], i - 1);
    }
  }

  lemma {:induction false} FlatHas(others: seq<seq<Action>>, i: nat)
    requires i < |others|
    ensures forall j | 0 <= j < |others[i]| :: others[i][j] in Flat(others)
    decreases i
  {
    if i > 0 {
      FlatHas(others[1..], i - 1);
    }
  }

  lemma TouchedBoth(a: seq<Action>, b: seq<Action>)
    ensures SetsIn(a) + SetsIn(b) <= SetsIn(a + b) && MachinesIn(a) + MachinesIn(b) <= MachinesIn(a + b)
  {
    assert forall i | 0 <= i < |a| :: (a + b)[i] == a[i];
    assert forall i | 0 <= i < |b| :: (a + b)[|a| + i] == b[i];
  }

  lemma WakeupIsNoItem(queue: seq<Item<Endpoint>>, w: SubChannelId)
    ensures forall c | c != w :: For(queue + [WakeupOf(w)], c) == For(queue, c)
  {
    forall c | c != w ensures For(queue + [WakeupOf(w)], c) == For(queue, c) {
      ForAppend(queue, WakeupOf(w), c);
    }
  }

  lemma ItemIsBoth(queue: seq<Item<Endpoint>>, arrived: seq<Item<Endpoint>>, n: nat, item: Item<Endpoint>)
    requires n <= |arrived|
    ensures forall c | For(queue, c) == For(arrived[n..], c) ::
              For(queue + [item], c) == For((arrived + [item])[n..], c)
    ensures (arrived + [item])[..n] == arrived[..n]
  {
    assert (arrived + [item])[n..] == arrived[n..] + [item];
    forall c | For(queue, c) == For(arrived[n..], c) ensures For(queue + [item], c) == For((arrived + [item])[n..], c) {
      ForAppend(queue, item, c);
      ForAppend(arrived[n..], item, c);
    }
  }

  lemma SoFarInOrder(rest: seq<SubSelectionResult>, w: SubChannelId, wakeupId: nat, d: Desk)
    requires InOrder(rest, w, wakeupId, d)
    ensures RightHandlers(d.calls, d.t.routed) && forall c | c in d.t.routed :: Passed(d.calls, c) <= For(d.arrived, c)
  {
    forall c | c in d.t.routed ensures Passed(d.calls, c) <= For(d.arrived, c) {
      assert Served(d.arrived, d.calls, rest, d.queue, c);
    }
  }

  lemma {:induction false} ForConcat(a: seq<Item<Endpoint>>, b: seq<Item<Endpoint>>, c: SubChannelId)
    ensures For(a + b, c) == For(a, c) + For(b, c)
  {
    if a == [] {
      assert a + b == b;
    } else {
      assert (a + b)[1..] == a[1..] + b;
      ForConcat(a[1..], b, c);
    }
  }

  lemma GrantKeepsOrder(rest: seq<SubSelectionResult>, w: SubChannelId, wakeupId: nat, d: Desk)
    requires InOrder(rest, w, wakeupId, d) && rest != [] && rest[0].MessageReceived? && rest[0].id == wakeupId
    requires d.msgs != [] && d.msgs[0].AddRoute?
    ensures var msg, e := d.msgs[0], d.(msgs := d.msgs[1..]);
            && msg.receiver.scid !in d.t.ids && msg.receiver.scid !in d.t.routed && Orderly(d.queue, d.t.ids)
            && InOrder(rest[1..], w, wakeupId, e)
            && InOrder(rest[1..], w, wakeupId, e.(t := Route(e.t, msg.receiver.scid, msg.handler)))
  {
    RefuseKeepsOrder(rest, w, wakeupId, d);
    assert forall i | 0 <= i < |d.msgs| - 1 :: d.msgs[1..][i] == d.msgs[i + 1];
    RouteKeepsOrder(rest[1..], w, wakeupId, d.(msgs := d.msgs[1..]), d.msgs[0].receiver.scid, d.msgs[0].handler);
  }

  lemma ClosedOnceSince(before: seq<SubSelectionResult>, results: seq<SubSelectionResult>)
    requires ClosedOnce(before + results)
    ensures ClosedOnce(results)
  {
    var all := before + results;
    assert forall i | 0 <= i < |results| :: all[|before| + i] == results[i];
  }

  lemma ReportedOnce(s: SubReceiverSet, before: seq<SubSelectionResult>, results: seq<SubSelectionResult>)
    requires s.Bookkept() && s.reported == before + results
    ensures ClosedOnce(results)
  {
    ClosedOnceSince(before, results);
  }

  lemma SameBefore<T>(a: seq<T>, b: seq<T>, c: seq<T>)
    requires a + c == b + c
    ensures a == b
  {
    assert |a| == |b|;
    assert a == (a + c)[..|a|] && b == (b + c)[..|b|];
  }

  /** Everything has been passed but what is in the queue, which has arrived since. */
  lemma AllServed(w: SubChannelId, wakeupId: nat, d: Desk, n: nat)
    requires InOrder([], w, wakeupId, d) && n <= |d.arrived|
    requires forall c | c != w :: For(d.queue, c) == For(d.arrived[n..], c)
    ensures RightHandlers(d.calls, d.t.routed)
    ensures forall c | c in d.t.routed :: For(d.arrived[..n], c) == Passed(d.calls, c)
  {
    forall c | c in d.t.routed ensures For(d.arrived[..n], c) == Passed(d.calls, c) {
      assert Served(d.arrived, d.calls, [], d.queue, c) && c != w;
      assert d.arrived[..n] + d.arrived[n..] == d.arrived;
      ForConcat(d.arrived[..n], d.arrived[n..], c);
      assert Due([], c) == [];
      assert Passed(d.calls, c) + [] == Passed(d.calls, c);
      SameBefore(For(d.arrived[..n], c), Passed(d.calls, c), For(d.queue, c));
    }
  }

  /** What the set reports is in order; the queue has moved into it. */
  lemma SelectKeepsOrder(w: SubChannelId, wakeupId: nat, d: Desk, s: SubReceiverSet)
    requires InOrder([], w, wakeupId, d) && s.Bookkept() && s.ids == d.t.ids && s.nextId == d.t.nextId
    ensures Identified(d.queue, d.t.ids)
    ensures ClosedOnce(Reports(d.queue, d.t.ids)) ==>
              InOrder(Reports(d.queue, d.t.ids), w, wakeupId,
                      d.(t := d.t.(ids := Remaining(d.queue, d.t.ids)), queue := []))
  {
    DistinctIds(s);
    ReportsExpected(d.queue, w, wakeupId, d.t);
    var results := Reports(d.queue, d.t.ids);
    DueIsFor(d.queue, d.t.ids, w);
    hide Reports, Due, For, Expected, SubReceiverSet.Bookkept, Served, Filed;
    assert For([], w) == [] by { NothingFor([], w); }
    assert Due([], w) == [] by { NothingDue([], w); }
    forall c | c in d.t.routed ensures Served(d.arrived, d.calls, results, [], c) {
      assert Served(d.arrived, d.calls, [], d.queue, c);
      SelectServed(d.arrived, d.calls, d.queue, d.t.ids, c);
    }
  }

  lemma DistinctIds(s: SubReceiverSet)
    requires s.Bookkept()
    ensures forall c, d | c in s.ids && d in s.ids && c != d :: s.ids[c] != s.ids[d]
  {
  }

  lemma SelectServed(arrived: seq<Item<Endpoint>>, calls: seq<Call>, queue: seq<Item<Endpoint>>, ids: Ids,
                     c: SubChannelId)
    requires Identified(queue, ids) && Served(arrived, calls, [], queue, c)
    ensures Served(arrived, calls, Reports(queue, ids), [], c)
  {
    DueIsFor(queue, ids, c);
  }

  lemma AskKeepsOrder(rest: seq<SubSelectionResult>, w: SubChannelId, wakeupId: nat, d: Desk, msg: RouterMsg)
    requires InOrder(rest, w, wakeupId, d) && d.phase == Open && msg.AddRoute?
    requires msg.receiver.scid != w && msg.receiver.scid !in d.t.routed && msg.receiver.scid !in d.t.ids
    requires forall i | 0 <= i < |d.msgs| && d.msgs[i].AddRoute? :: d.msgs[i].receiver.scid != msg.receiver.scid
    ensures InOrder(rest, w, wakeupId, d.(msgs := d.msgs + [msg], queue := d.queue + [WakeupOf(w)]))
  {
    QueueWakeup(rest, w, wakeupId, d);
  }

  lemma WakeKeepsOrder(rest: seq<SubSelectionResult>, w: SubChannelId, wakeupId: nat, d: Desk)
    requires InOrder(rest, w, wakeupId, d) && d.phase == Open
    ensures InOrder(rest, w, wakeupId, d.(phase := Waking, queue := d.queue + [WakeupOf(w)]))
  {
    QueueWakeup(rest, w, wakeupId, d);
  }

  /** A wakeup in the queue is one more for the router, and nothing to any routed subchannel. */
  lemma QueueWakeup(rest: seq<SubSelectionResult>, w: SubChannelId, wakeupId: nat, d: Desk)
    requires InOrder(rest, w, wakeupId, d)
    ensures QueueOk(d.queue + [WakeupOf(w)], w, d.t.ids)
    ensures |For(d.queue + [WakeupOf(w)], w)| == |For(d.queue, w)| + 1
    ensures forall c | c in d.t.routed :: Served(d.arrived, d.calls, rest, d.queue + [WakeupOf(w)], c)
  {
    assert QueueOk(d.queue + [WakeupOf(w)], w, d.t.ids);
    ForAppend(d.queue, WakeupOf(w), w);
    hide QueueOk, Requests, AllExpected, RightHandlers;
    forall c | c in d.t.routed ensures Served(d.arrived, d.calls, rest, d.queue + [WakeupOf(w)], c) {
      ForAppend(d.queue, WakeupOf(w), c);
    }
  }

  lemma ArriveKeepsOrder(rest: seq<SubSelectionResult>, w: SubChannelId, wakeupId: nat, d: Desk, item: Item<Endpoint>)
    requires InOrder(rest, w, wakeupId, d) && item.scid != w && item.scid in d.t.ids && Marker(item.scid) !in d.queue
    ensures InOrder(rest, w, wakeupId, d.(arrived := d.arrived + [item], queue := d.queue + [item]))
  {
    hide Requests, AllExpected, RightHandlers, QueueOk, For, Served;
    var d' := d.(arrived := d.arrived + [item], queue := d.queue + [item]);
    ForAppend(d.queue, item, w);
    assert For(d'.queue, w) == For(d.queue, w) + [] && Matched(rest, w, d');
    assert item.scid in d.t.routed;
    forall c | c in d.t.routed ensures Served(d'.arrived, d.calls, rest, d'.queue, c) {
      ArriveServed(d.arrived, d.calls, rest, d.queue, item, c);
    }
    ArriveQueued(d.queue, w, d.t.ids, item);
  }

  lemma ArriveServed(arrived: seq<Item<Endpoint>>, calls: seq<Call>, rest: seq<SubSelectionResult>,
                     queue: seq<Item<Endpoint>>, item: Item<Endpoint>, c: SubChannelId)
    requires Served(arrived, calls, rest, queue, c)
    ensures Served(arrived + [item], calls, rest, queue + [item], c)
  {
    ForAppend(queue, item, c);
    ForAppend(arrived, item, c);
  }

  lemma ArriveQueued(queue: seq<Item<Endpoint>>, w: SubChannelId, ids: Ids, item: Item<Endpoint>)
    requires QueueOk(queue, w, ids) && item.scid != w && item.scid in ids && Marker(item.scid) !in queue
    ensures QueueOk(queue + [item], w, ids)
  {
  }
}
