/**
 A set of subreceivers and the demultiplexers behind it: the state machines of added subchannels
 share the sending end of the set's queue, and what they put there is always in order.
 */
module SetRuns {
  import opened Basics
  import opened Protocol
  import opened SubchannelLifecycle
  import opened Demux
  import opened Wire
  import Multiplexing
  import opened ReceiverSet

  /** A message that has been read off a channel, and the channels that are closed by then. */
  datatype Arrival = Arrival(ch: Chan, closed: set<Chan>, msg: WireMessage)

  /**
   What one call of `MultiReceiverSet::select` does: it has the messages handled that have come
   in, or if there are none it has probes run. Each of `polls` is a channel, a subchannel on it,
   and the carriers whose probes fail.
   */
  datatype Ask = Batch(batch: seq<Arrival>) | Probes(polls: seq<(Chan, SubChannelId, set<SubChannelId>)>)

  datatype Outcome = Reported(results: seq<SubSelectionResult>) | Missing | Failed

  /**
   `demux` are the demultiplexers of the channels, `tx` is the sending end of the set's queue
   `queue`, and `added` are the subchannels whose subreceivers were ever added to the set.
   */
  datatype Hub = Hub(tx: Tx, demux: map<Chan, State>, queue: seq<Item<Endpoint>>, ids: Ids, nextId: nat,
                     added: set<SubChannelId>)
  {
    predicate Attached(ch: Chan, c: SubChannelId) {
      ch in demux && c in demux[ch].tables.subChannels
    }

    function Machine(ch: Chan, c: SubChannelId): SM<Endpoint>
      requires Attached(ch, c)
    {
      demux[ch].tables.subChannels[c]
    }

    function SetMachine(ch: Chan, c: SubChannelId, m: SM<Endpoint>): Hub
      requires ch in demux
    {
      this.(demux := demux[ch := demux[ch].(tables := demux[ch].tables.Update(c, m))])
    }

    /** A subchannel is created on a channel, with a queue whose receiving end is gone at once. */
    function Attach(ch: Chan, c: SubChannelId, nobody: Tx): Hub
      requires ch in demux
    {
      SetMachine(ch, c, Initial(nobody, Origin))
    }

    /** Its subreceiver is added to the set. */
    function Add(ch: Chan, c: SubChannelId): Hub
      requires Attached(ch, c)
    {
      SetMachine(ch, c, Machine(ch, c).SwitchSender(tx))
        .(ids := ids[c := nextId], nextId := nextId + 1, added := added + {c})
    }

    /** A demultiplexer, with the set's queue among those it sends to. */
    function Lent(ch: Chan): State
      requires ch in demux
    {
      demux[ch].(tables := Tables(demux[ch].tables.subChannels, map[tx := queue], {}))
    }

    /** A message is handled, if its channel is in use. */
    function Handle(a: Arrival): (h: Hub)
      ensures h.demux.Keys == demux.Keys && h.tx == tx && h.ids == ids && h.nextId == nextId
    {
      if a.ch !in demux then this
      else
        var st := OnMessage(a.closed, Lent(a.ch), a.msg, false).st;
        if tx in st.tables.local then this.(demux := demux[a.ch := st], queue := st.tables.local[tx]) else this
    }

    predicate Breaks(a: Arrival) {
      a.ch in demux && OnMessage(a.closed, Lent(a.ch), a.msg, false).result.Err?
    }

    /** Messages are handled one after the other, up to the first that fails. The flag says that one did. */
    function HandleAll(batch: seq<Arrival>): (r: (Hub, bool))
      ensures r.0.tx == tx && r.0.ids == ids && r.0.nextId == nextId
      decreases |batch|
    {
      if batch == [] then (this, false)
      else if Breaks(batch[0]) then (Handle(batch[0]), true)
      else Handle(batch[0]).HandleAll(batch[1..])
    }

    /** The probes of a subchannel are run. */
    ghost function Poll(ch: Chan, c: SubChannelId, failing: set<SubChannelId>): (h: Hub)
      ensures h.tx == tx && h.ids == ids && h.nextId == nextId
    {
      if !Attached(ch, c) then this
      else
        var (m, _, handed) := Machine(ch, c).Poll(failing);
        SetMachine(ch, c, m).(queue := queue + if handed == Some(tx) then [Marker(c)] else [])
    }

    ghost function PollAll(polls: seq<(Chan, SubChannelId, set<SubChannelId>)>): (h: Hub)
      ensures h.tx == tx && h.ids == ids && h.nextId == nextId
      decreases |polls|
    {
      if polls == [] then this else Poll(polls[0].0, polls[0].1, polls[0].2).PollAll(polls[1..])
    }

    ghost function Asked(ask: Ask): (r: (Hub, bool))
      ensures r.0.tx == tx && r.0.ids == ids && r.0.nextId == nextId
    {
      match ask
      case Batch(batch) => HandleAll(batch)
      case Probes(polls) => (PollAll(polls), false)
    }

    /** As long as the queue is empty, there is another call. */
    ghost function Await(asks: seq<Ask>): (r: (Hub, bool))
      ensures r.0.tx == tx && r.0.ids == ids && r.0.nextId == nextId
      decreases |asks|
    {
      if queue != [] || asks == [] then (this, false)
      else
        var (h, failed) := Asked(asks[0]);
        if failed then (h, true) else h.Await(asks[1..])
    }

    /** Everything in the queue is reported. */
    function Report(): Hub {
      this.(queue := [], ids := Remaining(queue, ids))
    }

    ghost function Select(asks: seq<Ask>): (Hub, Outcome) {
      var (h, failed) := Await(asks);
      if failed then (h, Failed)
      else if Identified(h.queue, h.ids) then (h.Report(), Reported(Reports(h.queue, h.ids)))
      else (h, Missing)
    }
  }

  /**
   An added subchannel has an id until its end has been reported: its machine sends to the set
   exactly as long as there is no marker for it in the queue. No other machine sends to the set.
   */
  predicate Linked(h: Hub, c: SubChannelId, m: SM<Endpoint>) {
    if c in h.ids then c in h.added && m.maybe == if Marker(c) in h.queue then None else Some(h.tx)
    else m.maybe != Some(h.tx)
  }

  ghost predicate Inv(h: Hub) {
    && (forall a, b, c :: h.Attached(a, c) && h.Attached(b, c) ==> a == b)
    && (forall ch, c :: h.Attached(ch, c) ==> Linked(h, c, h.Machine(ch, c)))
    && Orderly(h.queue, h.ids)
  }

  // ---------------------------------------------------------------------------------------
  // One machine moves on
  // ---------------------------------------------------------------------------------------

  /** What a machine may do to the queue of the set: nothing, a message, or a marker when it gives its sender away. */
  predicate Puts(tx: Tx, c: SubChannelId, m: SM<Endpoint>, m': SM<Endpoint>, items: seq<Item<Endpoint>>) {
    || (items == [] && m.maybe == Some(tx) && m'.maybe == m.maybe)
    || (items == [] && m.maybe != Some(tx) && m'.maybe in {None, m.maybe})
    || (|items| == 1 && items[0].Resolved? && items[0].scid == c && m.maybe == Some(tx) && m'.maybe == m.maybe)
    || (items == [Marker(c)] && m.maybe == Some(tx) && m'.maybe == None)
  }

  ghost predicate Moves(d: Tables<Endpoint>, d': Tables<Endpoint>, tx: Tx, c: SubChannelId) {
    && tx in d.local && tx in d'.local && d'.subChannels.Keys == d.subChannels.Keys
    && (forall a | a in d.subChannels && a != c :: d'.subChannels[a] == d.subChannels[a])
    && if c in d.subChannels then
         exists items :: d'.local[tx] == d.local[tx] + items && Puts(tx, c, d.subChannels[c], d'.subChannels[c], items)
       else d'.local[tx] == d.local[tx]
  }

  lemma StaysPut(d: Tables<Endpoint>, tx: Tx, c: SubChannelId)
    requires tx in d.local
    ensures Moves(d, d, tx, c)
  {
    assert d.local[tx] == d.local[tx] + [];
    if c in d.subChannels {
      assert Puts(tx, c, d.subChannels[c], d.subChannels[c], []);
    }
  }

  lemma UpdateMoves(d: Tables<Endpoint>, tx: Tx, c: SubChannelId, m: SM<Endpoint>)
    requires tx in d.local && c in d.subChannels && m.maybe == d.subChannels[c].maybe
    ensures Moves(d, d.Update(c, m), tx, c)
  {
    assert d.local[tx] == d.local[tx] + [];
    assert Puts(tx, c, d.subChannels[c], m, []);
  }

  lemma FinishMoves(d: Tables<Endpoint>, tx: Tx, c: SubChannelId, m: SM<Endpoint>)
    requires d.local.Keys == {tx} && d.hungUp == {} && c in d.subChannels && m.maybe == d.subChannels[c].maybe
    ensures Moves(d, Finish(d, c, m.HandOut()).tables, tx, c)
  {
    var (m', handed) := m.HandOut();
    var items: seq<Item<Endpoint>> := if handed == Some(tx) then [Marker(c)] else [];
    assert Finish(d, c, (m', handed)).tables.local[tx] == d.local[tx] + items;
    assert Puts(tx, c, d.subChannels[c], m', items);
  }

  lemma DataMoves(d: Tables<Endpoint>, tx: Tx, c: SubChannelId, payload: Payload, senders: seq<Embed<Endpoint>>)
    requires d.local.Keys == {tx} && d.hungUp == {}
    ensures Moves(d, ActData(d, c, payload, senders, false).tables, tx, c)
  {
    StaysPut(d, tx, c);
    if c in d.subChannels && d.subChannels[c].maybe == Some(tx) {
      var items: seq<Item<Endpoint>> := [Resolved(c, payload, senders)];
      assert ActData(d, c, payload, senders, false).tables.local[tx] == d.local[tx] + items;
      assert Puts(tx, c, d.subChannels[c], d.subChannels[c], items);
    }
  }

  /** The subchannel that a message is about. */
  function About(msg: WireMessage): SubChannelId {
    match msg
    case Connect(_) => 0
    case SubChannelName(scid) => scid
    case Data(scid, _, _) => scid
    case Sending(scid, _, _) => scid
    case SendingViaIpcChannel(scid, _) => scid
    case Received(scid, _, _) => scid
    case ReceiveFailed(scid, _) => scid
    case Disconnect(scid, _) => scid
  }

  lemma SendingMoves(closed: set<Chan>, st: State, msg: WireMessage, tx: Tx)
    requires msg.Sending? && st.tables.local.Keys == {tx} && st.tables.hungUp == {}
    ensures Moves(st.tables, OnMessage(closed, st, msg, false).st.tables, tx, msg.scid)
  {
    var d, c := st.tables, msg.scid;
    StaysPut(d, tx, c);
    if c in d.subChannels {
      var l := Resolve(closed, st, msg.viaChan);
      var m := d.subChannels[c];
      match l.result
      case Ok(ep) => UpdateMoves(d, tx, c, m.ToBeSent(msg.via, OnResponses(ep)));
      case Err(_) =>
        var told := m.ToBeSent(msg.via, AlwaysFailing);
        FinishMoves(d, tx, c, told.(inFlight := told.inFlight - multiset{msg.via}));
    }
  }

  lemma MessageMoves(closed: set<Chan>, st: State, msg: WireMessage, tx: Tx)
    requires st.tables.local.Keys == {tx} && st.tables.hungUp == {}
    ensures Moves(st.tables, OnMessage(closed, st, msg, false).st.tables, tx, About(msg))
  {
    var d, c := st.tables, About(msg);
    StaysPut(d, tx, c);
    match msg
    case Data(_, payload, senders) =>
      ResolvesUpTo(closed, st, senders);
      DataMoves(d, tx, c, payload, ResolveAll(closed, st, senders).embeds);
    case Sending(_, _, _) => SendingMoves(closed, st, msg, tx);
    case SendingViaIpcChannel(_, n) =>
      if c in d.subChannels {
        UpdateMoves(d, tx, c, d.subChannels[c].ToBeSent(EMPTY_SUBCHANNEL_ID, OnKeepalive(n)));
      }
    case Received(_, via, source) =>
      if c in d.subChannels {
        UpdateMoves(d, tx, c, d.subChannels[c].Received(via, source));
      }
    case ReceiveFailed(_, via) =>
      if c in d.subChannels {
        FinishMoves(d, tx, c, d.subChannels[c].(inFlight := d.subChannels[c].inFlight - multiset{via}));
      }
    case Disconnect(_, source) =>
      if c in d.subChannels {
        FinishMoves(d, tx, c, d.subChannels[c].(sources := d.subChannels[c].sources - {source}));
      }
    case _ =>
  }

  // ---------------------------------------------------------------------------------------
  // Every event keeps the set in order
  // ---------------------------------------------------------------------------------------

  /** What a linked machine puts into the queue is in order there. */
  lemma PutKeepsOrder(h: Hub, c: SubChannelId, m: SM<Endpoint>, m': SM<Endpoint>, items: seq<Item<Endpoint>>)
    requires Orderly(h.queue, h.ids) && Linked(h, c, m) && Puts(h.tx, c, m, m', items)
    ensures Orderly(h.queue + items, h.ids) && Linked(h.(queue := h.queue + items), c, m')
    ensures forall a :: a != c ==> (Marker(a) in h.queue + items <==> Marker(a) in h.queue)
  {
    var q := h.queue + items;
    assert forall i | 0 <= i < |h.queue| :: h.queue[i].Marker? ==> h.queue[i] == Marker(h.queue[i].scid);
    assert forall i | 0 <= i < |q| :: q[i] == if i < |h.queue| then h.queue[i] else items[i - |h.queue|];
  }

  /** One demultiplexer has moved on by one machine. */
  lemma MoveKeeps(h: Hub, ch: Chan, st: State, c: SubChannelId)
    requires Inv(h) && ch in h.demux && Moves(h.Lent(ch).tables, st.tables, h.tx, c)
    ensures Inv(h.(demux := h.demux[ch := st], queue := st.tables.local[h.tx]))
  {
    var t := h.(demux := h.demux[ch := st], queue := st.tables.local[h.tx]);
    assert forall a, b :: t.Attached(a, b) <==> h.Attached(a, b);
    if h.Attached(ch, c) {
      var m, m' := h.Machine(ch, c), st.tables.subChannels[c];
      var items :| t.queue == h.queue + items && Puts(h.tx, c, m, m', items);
      assert Linked(h, c, m);
      PutKeepsOrder(h, c, m, m', items);
      forall a, b | t.Attached(a, b) ensures Linked(t, b, t.Machine(a, b)) {
        assert Linked(h, b, h.Machine(a, b));
        if b == c {
          assert a == ch;
        }
      }
    } else {
      forall a, b | t.Attached(a, b) ensures Linked(t, b, t.Machine(a, b)) {
        assert Linked(h, b, h.Machine(a, b));
      }
    }
  }

  lemma HandleKeeps(h: Hub, a: Arrival)
    requires Inv(h)
    ensures Inv(h.Handle(a))
  {
    if a.ch in h.demux {
      var st := h.Lent(a.ch);
      assert st.tables.local.Keys == {h.tx};
      MessageMoves(a.closed, st, a.msg, h.tx);
      MoveKeeps(h, a.ch, OnMessage(a.closed, st, a.msg, false).st, About(a.msg));
    }
  }

  lemma PollKeeps(h: Hub, ch: Chan, c: SubChannelId, failing: set<SubChannelId>)
    requires Inv(h)
    ensures Inv(h.Poll(ch, c, failing))
  {
    if !h.Attached(ch, c) {
      return;
    }
    var m := h.Machine(ch, c);
    var (m', _, handed) := m.Poll(failing);
    var items: seq<Item<Endpoint>> := if handed == Some(h.tx) then [Marker(c)] else [];
    var t := h.Poll(ch, c, failing);
    assert Puts(h.tx, c, m, m', items) && Linked(h, c, m);
    PutKeepsOrder(h, c, m, m', items);
    assert forall a, b :: t.Attached(a, b) <==> h.Attached(a, b);
    forall a, b | t.Attached(a, b) ensures Linked(t, b, t.Machine(a, b)) {
      assert Linked(h, b, h.Machine(a, b));
      if b == c {
        assert a == ch;
      }
    }
  }

  lemma AttachKeeps(h: Hub, ch: Chan, c: SubChannelId, nobody: Tx)
    requires Inv(h) && ch in h.demux && nobody != h.tx && c !in h.ids && forall a :: !h.Attached(a, c)
    ensures Inv(h.Attach(ch, c, nobody))
  {
    var t := h.Attach(ch, c, nobody);
    forall a, b | t.Attached(a, b) ensures Linked(t, b, t.Machine(a, b)) && (b == c ==> a == ch) {
      if b != c {
        assert h.Attached(a, b) && Linked(h, b, h.Machine(a, b));
      } else {
        assert !h.Attached(a, c);
      }
    }
    assert forall a, b | b != c :: t.Attached(a, b) <==> h.Attached(a, b);
  }

  /** Also if the machine has given its sender away before: it gets another. */
  lemma AddKeeps(h: Hub, ch: Chan, c: SubChannelId)
    requires Inv(h) && h.Attached(ch, c) && c !in h.added && c !in h.ids
    ensures Inv(h.Add(ch, c))
  {
    var t := h.Add(ch, c);
    assert forall i | 0 <= i < |h.queue| :: h.queue[i].scid != c;
    assert Marker(c) !in h.queue;
    forall a, b | t.Attached(a, b) ensures Linked(t, b, t.Machine(a, b)) && (b == c ==> a == ch) {
      assert h.Attached(a, b) && Linked(h, b, h.Machine(a, b));
      assert h.Attached(a, c) && h.Attached(ch, c) ==> a == ch;
    }
    assert forall a, b :: t.Attached(a, b) <==> h.Attached(a, b);
  }

  /** The ids that remain are those of the subchannels without a marker. */
  lemma {:induction false} RemainingIs(items: seq<Item<Endpoint>>, ids: Ids)
    ensures Remaining(items, ids) == map c | c in ids && Marker(c) !in items :: ids[c]
  {
    if items != [] {
      var ids' := if items[0].Marker? then ids - {items[0].scid} else ids;
      RemainingIs(items[1..], ids');
      assert forall c :: Marker(c) in items <==> items[0] == Marker(c) || Marker(c) in items[1..];
    }
  }

  lemma ReportKeeps(h: Hub)
    requires Inv(h)
    ensures Inv(h.Report())
  {
    RemainingIs(h.queue, h.ids);
    var t := h.Report();
    assert forall a, b :: t.Attached(a, b) <==> h.Attached(a, b);
    forall a, b | t.Attached(a, b) ensures Linked(t, b, t.Machine(a, b)) {
      assert h.Attached(a, b) && Linked(h, b, h.Machine(a, b));
    }
  }

  lemma {:induction false} HandleAllKeeps(h: Hub, batch: seq<Arrival>)
    requires Inv(h)
    ensures Inv(h.HandleAll(batch).0)
    decreases |batch|
  {
    if batch != [] {
      HandleKeeps(h, batch[0]);
      HandleAllKeeps(h.Handle(batch[0]), batch[1..]);
    }
  }

  lemma {:induction false} PollAllKeeps(h: Hub, polls: seq<(Chan, SubChannelId, set<SubChannelId>)>)
    requires Inv(h)
    ensures Inv(h.PollAll(polls))
    decreases |polls|
  {
    if polls != [] {
      PollKeeps(h, polls[0].0, polls[0].1, polls[0].2);
      PollAllKeeps(h.Poll(polls[0].0, polls[0].1, polls[0].2), polls[1..]);
    }
  }

  lemma AskedKeeps(h: Hub, ask: Ask)
    requires Inv(h)
    ensures Inv(h.Asked(ask).0)
  {
    match ask
    case Batch(batch) => HandleAllKeeps(h, batch);
    case Probes(polls) => PollAllKeeps(h, polls);
  }

  lemma {:induction false} AwaitKeeps(h: Hub, asks: seq<Ask>)
    requires Inv(h)
    ensures Inv(h.Await(asks).0)
    decreases |asks|
  {
    if h.queue == [] && asks != [] {
      AskedKeeps(h, asks[0]);
      AwaitKeeps(h.Asked(asks[0]).0, asks[1..]);
    }
  }

  /** Also one that fails: what it has had queued stays in order. */
  lemma SelectKeeps(h: Hub, asks: seq<Ask>)
    requires Inv(h)
    ensures Inv(h.Select(asks).0) && !h.Select(asks).1.Missing?
  {
    AwaitKeeps(h, asks);
    OrderlyIsIdentified(h.Await(asks).0.queue, h.Await(asks).0.ids);
    ReportKeeps(h.Await(asks).0);
    hide Inv;
  }

  // ---------------------------------------------------------------------------------------
  // When `select` fails
  // ---------------------------------------------------------------------------------------

  /** A set does not mind if a subchannel has lost its receiver. */
  predicate Fails(h: Hub, a: Arrival) {
    a.ch in h.demux && Multiplexing.FailsAs(a.closed, h.Lent(a.ch), a.msg, false)
  }

  /**
   That a subchannel loses its last source fails exactly if its subreceiver is not in the set and
   nobody has been given its sender yet: there is no queue for the marker.
   */
  lemma DisconnectFailsIff(h: Hub, ch: Chan, c: SubChannelId, x: Source, closed: set<Chan>)
    requires Inv(h) && h.Attached(ch, c)
    ensures Fails(h, Arrival(ch, closed, Disconnect(c, x)))
            <==> && c !in h.ids && h.Machine(ch, c).maybe.Some?
                 && h.Machine(ch, c).sources <= {x} && h.Machine(ch, c).inFlight == multiset{}
  {
    assert Linked(h, c, h.Machine(ch, c));
  }

  /** So that of a new one fails, until its subreceiver is added. */
  lemma NewIsUnadded(h: Hub, ch: Chan, c: SubChannelId, nobody: Tx, closed: set<Chan>)
    requires Inv(h) && ch in h.demux && nobody != h.tx && c !in h.ids && forall a :: !h.Attached(a, c)
    ensures var t := h.Attach(ch, c, nobody);
            && t.Attached(ch, c) && Fails(t, Arrival(ch, closed, Disconnect(c, Origin)))
            && !Fails(t.Add(ch, c), Arrival(ch, closed, Disconnect(c, Origin)))
  {
    AttachKeeps(h, ch, c, nobody);
    DisconnectFailsIff(h.Attach(ch, c, nobody), ch, c, Origin, closed);
  }

  /** A message that fails puts nothing into the queue. */
  lemma BreaksIff(h: Hub, a: Arrival)
    requires Inv(h)
    ensures h.Breaks(a) <==> Fails(h, a)
    ensures h.Breaks(a) ==> h.Handle(a).queue == h.queue
  {
    if a.ch in h.demux {
      Multiplexing.FailsExactly(a.closed, h.Lent(a.ch), a.msg, false);
      if h.Breaks(a) {
        FailurePutsNothing(a.closed, h.Lent(a.ch), a.msg, h.tx);
      }
    }
  }

  lemma FailurePutsNothing(closed: set<Chan>, st: State, msg: WireMessage, tx: Tx)
    requires st.tables.local.Keys == {tx} && OnMessage(closed, st, msg, false).result.Err?
    ensures OnMessage(closed, st, msg, false).st.tables.local == st.tables.local
  {
    if msg.Data? {
      ResolvesUpTo(closed, st, msg.senders);
      hide ResolveAll, FirstBroken;
    } else if msg.Sending? {
      hide Refused;
      RefusalPutsNothing(Resolve(closed, st, msg.viaChan).st.tables, msg.scid, msg.via);
    } else {
      ActPutsNothing(st.tables, Plain(msg));
      hide Act;
    }
  }

  lemma RefusalPutsNothing(d: Tables<Endpoint>, c: SubChannelId, via: SubChannelId)
    ensures Refused(d, c, via).result.Err? ==> Refused(d, c, via).tables.local == d.local
  {
    hide Machine.Refuse;
  }

  lemma ActPutsNothing(d: Tables<Endpoint>, msg: MultiMessage<Endpoint>)
    requires !msg.Data?
    ensures Act(d, msg, false).result.Err? ==> Act(d, msg, false).tables.local == d.local
  {
    hide Machine.ReceiveFailed, Machine.Disconnect;
  }

  /** The set after the first `i` messages of a batch. */
  function Upto(h: Hub, batch: seq<Arrival>, i: nat): Hub
    requires i <= |batch|
    decreases i
  {
    if i == 0 then h else Upto(h.Handle(batch[0]), batch[1..], i - 1)
  }

  /** The first `i` messages can be handled, and the next fails. */
  predicate FailsAt(h: Hub, batch: seq<Arrival>, i: nat) {
    && i < |batch| && Fails(Upto(h, batch, i), batch[i])
    && forall j | 0 <= j < i :: !Fails(Upto(h, batch, j), batch[j])
  }

  lemma FailsLater(h: Hub, batch: seq<Arrival>, i: nat)
    requires 0 < i < |batch|
    ensures FailsAt(h, batch, i) <==> !Fails(h, batch[0]) && FailsAt(h.Handle(batch[0]), batch[1..], i - 1)
  {
    var t, rest := h.Handle(batch[0]), batch[1..];
    assert forall j | 0 < j <= i :: Upto(h, batch, j) == Upto(t, rest, j - 1) && batch[j] == rest[j - 1];
    assert Upto(h, batch, 0) == h;
    if !Fails(h, batch[0]) && FailsAt(t, rest, i - 1) {
      forall j | 0 <= j < i ensures !Fails(Upto(h, batch, j), batch[j]) {
        assert j > 0 ==> !Fails(Upto(t, rest, j - 1), rest[j - 1]);
      }
    }
    if FailsAt(h, batch, i) {
      forall j | 0 <= j < i - 1 ensures !Fails(Upto(t, rest, j), rest[j]) {
        assert !Fails(Upto(h, batch, j + 1), batch[j + 1]);
      }
    }
  }

  ghost predicate BatchFails(h: Hub, batch: seq<Arrival>) {
    exists i: nat :: FailsAt(h, batch, i)
  }

  /**
   A batch fails exactly if one of its messages does. What those before it have put into the queue
   stays there; the one that fails puts nothing there, and those behind it are lost.
   */
  lemma {:induction false} BatchFailsIff(h: Hub, batch: seq<Arrival>)
    requires Inv(h)
    ensures h.HandleAll(batch).1 <==> BatchFails(h, batch)
    ensures forall i: nat | FailsAt(h, batch, i) ::
              && h.HandleAll(batch).0 == Upto(h, batch, i + 1)
              && h.HandleAll(batch).0.queue == Upto(h, batch, i).queue
    ensures !h.HandleAll(batch).1 ==> h.HandleAll(batch).0 == Upto(h, batch, |batch|)
    decreases |batch|
  {
    if batch != [] {
      BreaksIff(h, batch[0]);
      var t, rest := h.Handle(batch[0]), batch[1..];
      HandleKeeps(h, batch[0]);
      BatchFailsIff(t, rest);
      hide Fails, Inv;
      forall i: nat | FailsAt(h, batch, i)
        ensures h.HandleAll(batch).1 && h.HandleAll(batch).0 == Upto(h, batch, i + 1)
        ensures h.HandleAll(batch).0.queue == Upto(h, batch, i).queue
      {
        if i > 0 {
          FailsLater(h, batch, i);
        }
      }
      if h.Breaks(batch[0]) {
        assert FailsAt(h, batch, 0);
      } else if h.HandleAll(batch).1 {
        var j: nat :| FailsAt(t, rest, j);
        FailsLater(h, batch, j + 1);
      }
    }
  }

  /** The set after `k` calls. */
  ghost function AskedUpto(h: Hub, asks: seq<Ask>, k: nat): Hub
    requires k <= |asks|
    decreases k
  {
    if k == 0 then h else AskedUpto(h.Asked(asks[0]).0, asks[1..], k - 1)
  }

  ghost predicate AskFails(h: Hub, ask: Ask) {
    ask.Batch? && BatchFails(h, ask.batch)
  }

  /** The first `k` calls find nothing, and the next has a message handled that fails. */
  ghost predicate FailsIn(h: Hub, asks: seq<Ask>, k: nat) {
    && k < |asks| && AskFails(AskedUpto(h, asks, k), asks[k]) && AskedUpto(h, asks, k).queue == []
    && forall j | 0 <= j < k :: AskedUpto(h, asks, j).queue == [] && !AskFails(AskedUpto(h, asks, j), asks[j])
  }

  lemma FailsLaterIn(h: Hub, asks: seq<Ask>, k: nat)
    requires 0 < k < |asks|
    ensures FailsIn(h, asks, k)
            <==> h.queue == [] && !AskFails(h, asks[0]) && FailsIn(h.Asked(asks[0]).0, asks[1..], k - 1)
  {
    hide AskFails, Hub.Asked;
    var t, rest := h.Asked(asks[0]).0, asks[1..];
    assert forall j | 0 < j <= k :: AskedUpto(h, asks, j) == AskedUpto(t, rest, j - 1) && asks[j] == rest[j - 1];
    assert AskedUpto(h, asks, 0) == h;
    if h.queue == [] && !AskFails(h, asks[0]) && FailsIn(t, rest, k - 1) {
      forall j | 0 <= j < k ensures AskedUpto(h, asks, j).queue == [] && !AskFails(AskedUpto(h, asks, j), asks[j]) {
        assert j > 0 ==> AskedUpto(t, rest, j - 1).queue == [] && !AskFails(AskedUpto(t, rest, j - 1), rest[j - 1]);
      }
    }
    if FailsIn(h, asks, k) {
      forall j | 0 <= j < k - 1 ensures AskedUpto(t, rest, j).queue == [] && !AskFails(AskedUpto(t, rest, j), rest[j]) {
        assert AskedUpto(h, asks, j + 1).queue == [] && !AskFails(AskedUpto(h, asks, j + 1), asks[j + 1]);
      }
    }
  }

  lemma {:induction false} AwaitFailsIff(h: Hub, asks: seq<Ask>)
    requires Inv(h)
    ensures h.Await(asks).1 <==> exists k: nat :: FailsIn(h, asks, k)
    decreases |asks|
  {
    if h.queue == [] && asks != [] {
      var t, rest := h.Asked(asks[0]).0, asks[1..];
      if asks[0].Batch? {
        BatchFailsIff(h, asks[0].batch);
      }
      assert h.Asked(asks[0]).1 <==> AskFails(h, asks[0]);
      AskedKeeps(h, asks[0]);
      AwaitFailsIff(t, rest);
      hide Hub.Asked, Inv, AskFails;
      forall k: nat | FailsIn(h, asks, k) ensures h.Await(asks).1 {
        if k > 0 {
          FailsLaterIn(h, asks, k);
        }
      }
      if AskFails(h, asks[0]) {
        assert FailsIn(h, asks, 0);
      } else if h.Await(asks).1 {
        var j: nat :| FailsIn(t, rest, j);
        FailsLaterIn(h, asks, j + 1);
      }
    }
  }

  // ---------------------------------------------------------------------------------------
  // Runs
  // ---------------------------------------------------------------------------------------

  datatype Event =
    | Attach(ch: Chan, c: SubChannelId, nobody: Tx)
    | Add(ch: Chan, c: SubChannelId)
    | Select(asks: seq<Ask>)

  /** Subchannel ids are fresh, and a subreceiver is added once. */
  ghost predicate Enabled(h: Hub, e: Event) {
    match e
    case Attach(ch, c, nobody) => ch in h.demux && nobody != h.tx && c !in h.ids && forall a :: !h.Attached(a, c)
    case Add(ch, c) => h.Attached(ch, c) && c !in h.added && c !in h.ids
    case Select(_) => true
  }

  ghost function Next(h: Hub, e: Event): Hub
    requires Enabled(h, e)
  {
    match e
    case Attach(ch, c, nobody) => h.Attach(ch, c, nobody)
    case Add(ch, c) => h.Add(ch, c)
    case Select(asks) => h.Select(asks).0
  }

  lemma NextKeeps(h: Hub, e: Event)
    requires Inv(h) && Enabled(h, e)
    ensures Inv(Next(h, e))
  {
    match e
    case Attach(ch, c, nobody) => AttachKeeps(h, ch, c, nobody);
    case Add(ch, c) => AddKeeps(h, ch, c);
    case Select(asks) => SelectKeeps(h, asks);
  }

  ghost predicate IsRun(h: Hub, events: seq<Event>)
    decreases |events|
  {
    events == [] || (Enabled(h, events[0]) && IsRun(Next(h, events[0]), events[1..]))
  }

  ghost function After(h: Hub, events: seq<Event>): Hub
    requires IsRun(h, events)
    decreases |events|
  {
    if events == [] then h else After(Next(h, events[0]), events[1..])
  }

  /** A new set, and channels on which nothing has been created yet. */
  predicate Start(h: Hub) {
    && h.queue == [] && h.ids == map[] && h.added == {}
    && forall ch | ch in h.demux :: h.demux[ch].tables.subChannels == map[]
  }

  lemma {:induction false} RunKeeps(h: Hub, events: seq<Event>)
    requires Inv(h) && IsRun(h, events)
    ensures Inv(After(h, events))
    decreases |events|
  {
    if events != [] {
      NextKeeps(h, events[0]);
      RunKeeps(Next(h, events[0]), events[1..]);
    }
  }

  /**
   In every run of creating, adding and selecting, with any messages handled and probes run, a
   `select` never misses an id: it fails if and only if a message fails that it has handled before
   there is something to report. A subchannel with an id sends to the set until its marker is in
   the queue, nothing follows the marker, and once that is reported nothing more ever comes.
   */
  lemma SelectNeverMisses(h: Hub, events: seq<Event>, asks: seq<Ask>)
    requires Start(h) && IsRun(h, events)
    ensures var t := After(h, events);
            && Orderly(t.queue, t.ids)
            && (forall ch, c | t.Attached(ch, c) :: Linked(t, c, t.Machine(ch, c)))
            && (t.Select(asks).1.Failed? <==> exists k: nat :: FailsIn(t, asks, k))
            && (!t.Select(asks).1.Failed? ==> t.Select(asks).1.Reported?)
  {
    RunKeeps(h, events);
    SelectKeeps(After(h, events), asks);
    AwaitFailsIff(After(h, events), asks);
    hide FailsIn, Linked;
  }

  // ---------------------------------------------------------------------------------------
  // The class that does it
  // ---------------------------------------------------------------------------------------

  /** What `SubReceiverSet.Select` sees of the underlying set. */
  ghost function RoundsOf(h: Hub, asks: seq<Ask>): seq<Round>
    decreases |asks|
  {
    if asks == [] then []
    else
      var (t, failed) := h.Asked(asks[0]);
      [Round(t.queue, failed)] + RoundsOf(t, asks[1..])
  }

  lemma {:induction false} AwaitAgrees(h: Hub, asks: seq<Ask>)
    ensures Awaited(h.queue, RoundsOf(h, asks)) == (h.Await(asks).0.queue, h.Await(asks).1)
    decreases |asks|
  {
    if h.queue == [] && asks != [] {
      AwaitAgrees(h.Asked(asks[0]).0, asks[1..]);
    }
  }

  /**
   A subreceiver that is added after its machine has given its sender away loses its end no more
   than others: the machine, which is empty, gives the new sender away when it is polled next.
   */
  lemma AddedLate(h: Hub, ch: Chan, c: SubChannelId)
    requires h.Attached(ch, c) && h.Machine(ch, c).Empty()
    ensures var t := h.Add(ch, c).Poll(ch, c, {});
            t.queue == h.queue + [Marker(c)] && t.Attached(ch, c) && t.Machine(ch, c).maybe == None
  {
  }
}
