/**
 Any number of sources and targets (`src/mux/sender/sender_id.rs`) at work: subsenders are
 embedded, sent, received and forwarded, weak entries expire, and yet an identifier sent alone
 always reaches a target that knows it.
 */
module Dedup {
  import opened Basics
  import opened Protocol
  import opened Wire
  import Demux

  /** A source: the connection it sends over, and the connections it has sent. */
  datatype Table = Table(self: Endpoint, sent: set<Endpoint>) {
    function Insert(ep: Endpoint): Table {
      this.(sent := sent + {ep})
    }
  }

  /** Each identifier sent alone is known, or has come with its sender before. */
  predicate CoherentPacket(keys: set<Uuid>, p: Packet) {
    p == []
    || var n := |p| - 1;
       CoherentPacket(keys, p[..n]) && (p[n].sender.ById? ==> p[n].sender.uuid in keys + Fulls(p[..n]))
  }

  predicate CoherentQueue(keys: set<Uuid>, q: seq<Packet>)
    decreases |q|
  {
    q == [] || (CoherentPacket(keys, q[0]) && CoherentQueue(keys + Fulls(q[0]), q[1..]))
  }

  /** What a target that knows `keys` will know after it has read the queue. */
  function Known(keys: set<Uuid>, q: seq<Packet>): set<Uuid>
    decreases |q|
  {
    if q == [] then keys else Known(keys + Fulls(q[0]), q[1..])
  }

  lemma {:induction false} QueueAppend(keys: set<Uuid>, q: seq<Packet>, p: Packet)
    ensures Known(keys, q + [p]) == Known(keys, q) + Fulls(p)
    ensures CoherentQueue(keys, q + [p]) <==> CoherentQueue(keys, q) && CoherentPacket(Known(keys, q), p)
    decreases |q|
  {
    if q == [] {
      assert [p][1..] == [];
    } else {
      assert (q + [p])[1..] == q[1..] + [p];
      QueueAppend(keys + Fulls(q[0]), q[1..], p);
    }
  }

  lemma {:induction false} PacketMonotone(keys: set<Uuid>, keys': set<Uuid>, p: Packet)
    requires CoherentPacket(keys, p) && keys <= keys'
    ensures CoherentPacket(keys', p)
  {
    if p != [] {
      PacketMonotone(keys, keys', p[..|p| - 1]);
    }
  }

  lemma PacketNext(keys: set<Uuid>, p: Packet, e: Embed<Ref>)
    ensures Fulls(p + [e]) == Fulls(p) + if e.sender.Full? then {e.sender.uuid} else {}
    ensures CoherentPacket(keys, p + [e])
            <==> CoherentPacket(keys, p) && (e.sender.ById? ==> e.sender.uuid in keys + Fulls(p))
  {
  }

  type Names = map<Uuid, Chan>

  type Homes = map<SubChannelId, Chan>

  /** An identifier stands for the channel of the subchannel it is sent along with. */
  predicate Truthful(names: Names, home: Homes, e: Embed<Ref>) {
    && e.scid in home && e.sender.uuid in names && names[e.sender.uuid] == home[e.scid]
    && (e.sender.Full? ==> e.sender.chan == home[e.scid])
  }

  predicate TruthfulPacket(names: Names, home: Homes, p: Packet) {
    forall i | 0 <= i < |p| :: Truthful(names, home, p[i])
  }

  predicate EndpointOk(names: Names, ep: Endpoint) {
    ep.uuid in names && names[ep.uuid] == ep.chan
  }

  predicate TargetOk(names: Names, target: map<Uuid, Endpoint>) {
    forall id | id in target :: target[id].uuid == id && EndpointOk(names, target[id])
  }

  // ---------------------------------------------------------------------------------------
  // Reading a packet
  // ---------------------------------------------------------------------------------------

  /** No sender that comes along leads to a closed channel. */
  predicate Reachable(closed: set<Chan>, p: Packet) {
    forall i | 0 <= i < |p| && p[i].sender.Full? :: p[i].sender.chan !in closed
  }

  /** The state after some references have been resolved: the target has learnt `learnt`, nothing else changed. */
  predicate Learnt(st: State, st': State, learnt: set<Uuid>) {
    && st'.target.Keys == st.target.Keys + learnt
    && (forall id | id in st.target :: st'.target[id] == st.target[id])
    && st'.tables == st.tables && st'.clients == st.clients
  }

  /** A resolved subsender is connected to the channel its subchannel was created on. */
  predicate Arrived(names: Names, home: Homes, e: Embed<Ref>, r: Embed<Endpoint>) {
    r.scid == e.scid && e.scid in home && r.sender.chan == home[e.scid] && EndpointOk(names, r.sender)
  }

  lemma ReferenceResolves(closed: set<Chan>, st: State, e: Embed<Ref>, names: Names, home: Homes)
    requires Truthful(names, home, e) && TargetOk(names, st.target)
    requires if e.sender.ById? then e.sender.uuid in st.target else e.sender.chan !in closed
    ensures var l := Resolve(closed, st, e.sender);
            && l.result.Ok? && Arrived(names, home, e, Embed(e.scid, l.result.value))
            && Learnt(st, l.st, if e.sender.Full? then {e.sender.uuid} else {}) && TargetOk(names, l.st.target)
  {
  }

  /** A packet has been resolved, each subsender in it to an endpoint of the right channel. */
  predicate Resolves(names: Names, home: Homes, st: State, p: Packet, l: Lookups) {
    && l.error == None && |l.embeds| == |p|
    && (forall i | 0 <= i < |p| :: Arrived(names, home, p[i], l.embeds[i]))
    && Learnt(st, l.st, Fulls(p)) && TargetOk(names, l.st.target)
  }

  lemma ResolvesNext(closed: set<Chan>, st: State, p: Packet, l: Lookups, e: Embed<Ref>, names: Names, home: Homes)
    requires Resolves(names, home, st, p, l) && Truthful(names, home, e)
    requires if e.sender.ById? then e.sender.uuid in st.target.Keys + Fulls(p) else e.sender.chan !in closed
    ensures Resolves(names, home, st, p + [e], ResolveNext(closed, l, e))
  {
  }

  /** A coherent packet is resolved without an error. */
  lemma {:induction false} PacketResolves(closed: set<Chan>, st: State, p: Packet, names: Names, home: Homes)
    requires CoherentPacket(st.target.Keys, p) && TruthfulPacket(names, home, p) && TargetOk(names, st.target)
    requires Reachable(closed, p)
    ensures Resolves(names, home, st, p, ResolveAll(closed, st, p))
  {
    if p != [] {
      var n := |p| - 1;
      assert forall i | 0 <= i < n :: p[..n][i] == p[i];
      PacketResolves(closed, st, p[..n], names, home);
      assert Truthful(names, home, p[n]) && p == p[..n] + [p[n]];
      hide Truthful, TargetOk, Resolves;
      ResolvesNext(closed, st, p[..n], ResolveAll(closed, st, p[..n]), p[n], names, home);
    }
  }

  // ---------------------------------------------------------------------------------------
  // The state
  // ---------------------------------------------------------------------------------------

  type SourceId = nat

  /**
   `names` are the identifiers drawn so far, with the channel each stands for, and `ends` the
   connections that exist. `drafts` holds the references collected by each `send` in progress,
   under the source of the subsender it sends on.
   */
  datatype Net = Net(
    names: Names,
    home: Homes,
    ends: set<Endpoint>,
    tables: map<SourceId, Table>,
    drafts: map<SourceId, Packet>,
    queue: map<Chan, seq<Packet>>,
    target: map<Chan, map<Uuid, Endpoint>>,
    supply: ClientId)
  {
    /** A new connection to a channel, under a fresh identifier. */
    function Create(ch: Chan, id: Uuid): Net {
      this.(names := names[id := ch], ends := ends + {Endpoint(ch, id, supply)}, supply := supply + 1)
    }

    /** Another connection under the same identifier, made from one that was sent in the raw. */
    function Reconnect(ep: Endpoint): Net {
      this.(ends := ends + {Endpoint(ep.chan, ep.uuid, supply)}, supply := supply + 1)
    }

    /** A subsender that uses a connection gets a source of its own. */
    function NewTable(s: SourceId, ep: Endpoint): Net {
      this.(tables := tables[s := Table(ep, {})])
    }

    /** A `send` begins on a subsender with source `s`. */
    function Begin(s: SourceId): Net {
      this.(drafts := drafts[s := []])
    }

    function Insert(s: SourceId, ep: Endpoint): Net
      requires s in tables
    {
      this.(tables := tables[s := tables[s].Insert(ep)])
    }

    function Enqueue(ch: Chan, p: Packet): Net
      requires ch in queue
    {
      this.(queue := queue[ch := queue[ch] + [p]])
    }

    predicate CanEmbed(s: SourceId, via: SubChannelId, x: SourceId, c: SubChannelId) {
      && s in tables && s in drafts && x in tables && (x == s || x !in drafts)
      && via in home && home[via] == tables[s].self.chan
      && c in home && home[c] == tables[x].self.chan && home[c] in queue
    }

    /** The `send` announces a subsender of `c` with source `x` on the way of `c`. */
    function Tell(s: SourceId, via: SubChannelId, x: SourceId, c: SubChannelId): Net
      requires CanEmbed(s, via, x, c)
    {
      Insert(x, tables[s].self).Enqueue(home[c], [Embed(via, RefFor(tables[x].sent, tables[s].self))])
    }

    /** The `send` adds a reference for the subsender to its message. */
    function Collect(s: SourceId, x: SourceId, c: SubChannelId): Net
      requires s in tables && s in drafts && x in tables
    {
      Insert(s, tables[x].self)
        .(drafts := drafts[s := drafts[s] + [Embed(c, RefFor(tables[s].sent, tables[x].self))]])
    }

    /** The `send` has its data message sent. */
    function End(s: SourceId): Net
      requires s in tables && s in drafts && tables[s].self.chan in queue
    {
      Enqueue(tables[s].self.chan, drafts[s]).(drafts := drafts - {s})
    }

    /** The last strong reference to a connection goes, and with it the weak ones. */
    function Expire(ep: Endpoint): Net {
      this.(tables := map s | s in tables :: tables[s].(sent := tables[s].sent - {ep}))
    }

    predicate CanRead(ch: Chan, closed: set<Chan>) {
      ch in queue && ch in target && queue[ch] != [] && Reachable(closed, queue[ch][0])
    }

    function Reader(ch: Chan): State
      requires ch in target
    {
      State(Demux.Tables(map[], map[], {}), target[ch], {}, supply)
    }

    /** The demultiplexer of a channel resolves the references of the message at the head. */
    function Read(ch: Chan, closed: set<Chan>): Net
      requires CanRead(ch, closed)
    {
      var l := ResolveAll(closed, Reader(ch), queue[ch][0]);
      this.(queue := queue[ch := queue[ch][1..]], target := target[ch := l.st.target],
            ends := ends + (set i | 0 <= i < |l.embeds| :: l.embeds[i].sender), supply := l.st.supply)
    }
  }

  // ---------------------------------------------------------------------------------------
  // The invariant
  // ---------------------------------------------------------------------------------------

  predicate Namely(n: Net) {
    && n.queue.Keys == n.target.Keys
    && (forall ep | ep in n.ends :: EndpointOk(n.names, ep))
    && (forall ch | ch in n.target :: TargetOk(n.names, n.target[ch]))
    && (forall ch | ch in n.queue :: QueueOk(n.names, n.home, n.queue[ch]))
    && n.drafts.Keys <= n.tables.Keys
    && (forall s | s in n.drafts :: TruthfulPacket(n.names, n.home, n.drafts[s]))
    && (forall s | s in n.tables :: TableOk(n, s))
  }

  predicate QueueOk(names: Names, home: Homes, q: seq<Packet>) {
    forall i | 0 <= i < |q| :: TruthfulPacket(names, home, q[i])
  }

  predicate TableOk(n: Net, s: SourceId)
    requires s in n.tables
  {
    var t := n.tables[s];
    && EndpointOk(n.names, t.self) && t.self.chan in n.queue
    && forall ep | ep in t.sent :: EndpointOk(n.names, ep)
  }

  /** The identifiers known at a channel once its queue has been read. */
  function KnownAt(n: Net, ch: Chan): set<Uuid>
    requires ch in n.queue && ch in n.target
  {
    Known(n.target[ch].Keys, n.queue[ch])
  }

  /**
   What a source has sent will be known to its target, or is in the message it is working on;
   the latter never applies to the connection that the source itself sends over.
   */
  predicate Backed(t: Table, known: set<Uuid>, draft: Option<Packet>) {
    match draft
    case None => forall ep | ep in t.sent :: ep.uuid in known
    case Some(p) =>
      && CoherentPacket(known, p)
      && (forall ep | ep in t.sent :: ep.uuid in known + Fulls(p))
      && (t.self in t.sent ==> t.self.uuid in known)
  }

  function DraftOf(n: Net, s: SourceId): Option<Packet> {
    if s in n.drafts then Some(n.drafts[s]) else None
  }

  predicate Inv(n: Net) {
    && Namely(n)
    && (forall ch | ch in n.queue :: CoherentQueue(n.target[ch].Keys, n.queue[ch]))
    && (forall s | s in n.tables :: Backed(n.tables[s], KnownAt(n, n.tables[s].self.chan), DraftOf(n, s)))
  }

  // ---------------------------------------------------------------------------------------
  // Every event keeps the invariant
  // ---------------------------------------------------------------------------------------

  lemma BackedMonotone(t: Table, known: set<Uuid>, known': set<Uuid>, draft: Option<Packet>)
    requires Backed(t, known, draft) && known <= known'
    ensures Backed(t, known', draft)
  {
    if draft.Some? {
      PacketMonotone(known, known', draft.value);
    }
  }

  lemma CreateKeeps(n: Net, ch: Chan, id: Uuid)
    requires Inv(n) && id !in n.names
    ensures Inv(n.Create(ch, id))
  {
    hide CoherentQueue, CoherentPacket, Fulls;
  }

  lemma ReconnectKeeps(n: Net, ep: Endpoint)
    requires Inv(n) && ep in n.ends
    ensures Inv(n.Reconnect(ep))
  {
  }

  lemma NewTableKeeps(n: Net, s: SourceId, ep: Endpoint)
    requires Inv(n) && s !in n.tables && ep in n.ends && ep.chan in n.queue
    ensures Inv(n.NewTable(s, ep))
  {
  }

  lemma BeginKeeps(n: Net, s: SourceId)
    requires Inv(n) && s in n.tables && s !in n.drafts
    ensures Inv(n.Begin(s))
  {
  }

  /** The next reference to an expired connection brings its sender again; others are as before. */
  lemma ExpireKeeps(n: Net, ep: Endpoint)
    requires Inv(n)
    ensures Inv(n.Expire(ep))
    ensures forall s, e | s in n.tables ::
              && s in n.Expire(ep).tables
              && RefFor(n.Expire(ep).tables[s].sent, e) == if e == ep then Full(ep.chan, ep.uuid)
                                                           else RefFor(n.tables[s].sent, e)
  {
    var t := n.Expire(ep);
    forall s | s in t.tables
      ensures TableOk(t, s) && Backed(t.tables[s], KnownAt(t, t.tables[s].self.chan), DraftOf(t, s))
    {
      assert TableOk(n, s);
      assert Backed(n.tables[s], KnownAt(n, n.tables[s].self.chan), DraftOf(n, s));
    }
  }

  /** A packet that is coherent with what will be known enters a queue. */
  lemma EnqueueKeeps(n: Net, ch: Chan, p: Packet)
    requires Inv(n) && ch in n.queue && TruthfulPacket(n.names, n.home, p) && CoherentPacket(KnownAt(n, ch), p)
    ensures Inv(n.Enqueue(ch, p))
    ensures KnownAt(n.Enqueue(ch, p), ch) == KnownAt(n, ch) + Fulls(p)
  {
    var t := n.Enqueue(ch, p);
    QueueAppend(n.target[ch].Keys, n.queue[ch], p);
    forall s | s in t.tables
      ensures TableOk(t, s) && Backed(t.tables[s], KnownAt(t, t.tables[s].self.chan), DraftOf(t, s))
    {
      assert TableOk(n, s);
      BackedMonotone(n.tables[s], KnownAt(n, n.tables[s].self.chan), KnownAt(t, n.tables[s].self.chan), DraftOf(n, s));
    }
    forall h | h in t.queue
      ensures CoherentQueue(t.target[h].Keys, t.queue[h]) && QueueOk(t.names, t.home, t.queue[h])
    {
      assert CoherentQueue(n.target[h].Keys, n.queue[h]);
      assert QueueOk(n.names, n.home, n.queue[h]);
    }
  }

  /** A source records a connection that will be known at its target. */
  lemma InsertKeeps(n: Net, s: SourceId, ep: Endpoint)
    requires Inv(n) && s in n.tables && EndpointOk(n.names, ep) && n.tables[s].self.chan in n.queue
    requires ep.uuid in KnownAt(n, n.tables[s].self.chan)
    ensures Inv(n.Insert(s, ep))
  {
    var t := n.Insert(s, ep);
    forall x | x in t.tables
      ensures TableOk(t, x) && Backed(t.tables[x], KnownAt(t, t.tables[x].self.chan), DraftOf(t, x))
    {
      assert TableOk(n, x);
      assert Backed(n.tables[x], KnownAt(n, n.tables[x].self.chan), DraftOf(n, x));
    }
  }

  /** The announcement carries an identifier alone only if the target will know it. */
  lemma TellKeeps(n: Net, s: SourceId, via: SubChannelId, x: SourceId, c: SubChannelId)
    requires Inv(n) && n.CanEmbed(s, via, x, c)
    ensures Inv(n.Tell(s, via, x, c))
    ensures n.home[c] in n.Tell(s, via, x, c).target
    ensures n.tables[s].self.uuid in KnownAt(n.Tell(s, via, x, c), n.home[c])
  {
    var ep := n.tables[s].self;
    var e := Embed(via, RefFor(n.tables[x].sent, ep));
    assert TableOk(n, s) && TableOk(n, x);
    assert Backed(n.tables[x], KnownAt(n, n.home[c]), DraftOf(n, x));
    PacketNext(KnownAt(n, n.home[c]), [], e);
    assert [] + [e] == [e];
    EnqueueKeeps(n, n.home[c], [e]);
    var m := n.Enqueue(n.home[c], [e]);
    InsertKeeps(m, x, ep);
    assert m.Insert(x, ep) == n.Tell(s, via, x, c);
  }

  lemma CollectTable(t: Table, known: set<Uuid>, p: Packet, c: SubChannelId, ep: Endpoint)
    requires Backed(t, known, Some(p)) && (ep == t.self ==> ep.uuid in known)
    ensures Backed(t.Insert(ep), known, Some(p + [Embed(c, RefFor(t.sent, ep))]))
  {
  }

  lemma CollectKeeps(n: Net, s: SourceId, x: SourceId, c: SubChannelId)
    requires Inv(n) && s in n.tables && s in n.drafts && x in n.tables
    requires c in n.home && n.home[c] == n.tables[x].self.chan
    requires n.tables[s].self.chan in n.queue
    requires n.tables[x].self == n.tables[s].self ==> n.tables[s].self.uuid in KnownAt(n, n.tables[s].self.chan)
    ensures Inv(n.Collect(s, x, c))
  {
    var t := n.Collect(s, x, c);
    assert TableOk(n, x);
    CollectTable(n.tables[s], KnownAt(n, n.tables[s].self.chan), n.drafts[s], c, n.tables[x].self);
    forall y | y in t.tables
      ensures TableOk(t, y) && Backed(t.tables[y], KnownAt(t, t.tables[y].self.chan), DraftOf(t, y))
    {
      assert TableOk(n, y);
      assert Backed(n.tables[y], KnownAt(n, n.tables[y].self.chan), DraftOf(n, y));
    }
    forall y | y in t.drafts ensures TruthfulPacket(t.names, t.home, t.drafts[y]) {
      assert TruthfulPacket(n.names, n.home, n.drafts[y]);
    }
  }

  /** One subsender of a `send` in progress: announced first, then added to the message. */
  lemma EmbedKeeps(n: Net, s: SourceId, via: SubChannelId, x: SourceId, c: SubChannelId)
    requires Inv(n) && n.CanEmbed(s, via, x, c)
    ensures n.Tell(s, via, x, c).tables.Keys == n.tables.Keys && n.Tell(s, via, x, c).drafts == n.drafts
    ensures Inv(n.Tell(s, via, x, c).Collect(s, x, c))
  {
    TellKeeps(n, s, via, x, c);
    var m := n.Tell(s, via, x, c);
    assert TableOk(n, s);
    assert m.tables[s].self == n.tables[s].self && m.tables[x].self == n.tables[x].self;
    CollectKeeps(m, s, x, c);
  }

  lemma EndKeeps(n: Net, s: SourceId)
    requires Inv(n) && s in n.tables && s in n.drafts && n.tables[s].self.chan in n.queue
    ensures Inv(n.End(s))
  {
    var ch := n.tables[s].self.chan;
    assert Backed(n.tables[s], KnownAt(n, ch), DraftOf(n, s));
    EnqueueKeeps(n, ch, n.drafts[s]);
    var m := n.Enqueue(ch, n.drafts[s]);
    var t := n.End(s);
    forall x | x in t.tables
      ensures TableOk(t, x) && Backed(t.tables[x], KnownAt(t, t.tables[x].self.chan), DraftOf(t, x))
    {
      assert TableOk(m, x);
      assert Backed(m.tables[x], KnownAt(m, m.tables[x].self.chan), DraftOf(m, x));
    }
  }

  lemma ReadEffect(n: Net, ch: Chan, closed: set<Chan>)
    requires Inv(n) && n.CanRead(ch, closed)
    ensures var t := n.Read(ch, closed);
            && t.names == n.names && t.home == n.home && t.tables == n.tables && t.drafts == n.drafts
            && t.queue == n.queue[ch := n.queue[ch][1..]] && t.target.Keys == n.target.Keys
            && t.target[ch].Keys == n.target[ch].Keys + Fulls(n.queue[ch][0]) && TargetOk(t.names, t.target[ch])
            && (forall h | h in n.target && h != ch :: t.target[h] == n.target[h])
            && (forall ep | ep in t.ends :: EndpointOk(t.names, ep))
  {
    assert QueueOk(n.names, n.home, n.queue[ch]);
    PacketResolves(closed, n.Reader(ch), n.queue[ch][0], n.names, n.home);
  }

  lemma ReadNamely(n: Net, ch: Chan, closed: set<Chan>)
    requires Inv(n) && n.CanRead(ch, closed)
    ensures Namely(n.Read(ch, closed))
  {
    ReadEffect(n, ch, closed);
    hide ResolveAll, TargetOk, EndpointOk, Net.Read, TruthfulPacket, Backed, CoherentQueue, Known;
    var t := n.Read(ch, closed);
    forall h | h in t.queue ensures QueueOk(t.names, t.home, t.queue[h]) {
      assert QueueOk(n.names, n.home, n.queue[h]);
    }
    forall s | s in t.tables ensures TableOk(t, s) {
      assert TableOk(n, s);
    }
  }

  lemma ReadKeeps(n: Net, ch: Chan, closed: set<Chan>)
    requires Inv(n) && n.CanRead(ch, closed)
    ensures Inv(n.Read(ch, closed))
  {
    ReadNamely(n, ch, closed);
    ReadEffect(n, ch, closed);
    hide ResolveAll, TargetOk, Net.Read, CoherentPacket, Fulls, Namely, Backed;
    var t := n.Read(ch, closed);
    forall h | h in t.queue
      ensures CoherentQueue(t.target[h].Keys, t.queue[h]) && KnownAt(t, h) == KnownAt(n, h)
    {
      assert CoherentQueue(n.target[h].Keys, n.queue[h]);
    }
  }

  // ---------------------------------------------------------------------------------------
  // Runs
  // ---------------------------------------------------------------------------------------

  datatype Event =
    | Create(ch: Chan, id: Uuid)
    | Reconnect(ep: Endpoint)
    | NewTable(s: SourceId, ep: Endpoint)
    | Begin(s: SourceId)
    | Include(s: SourceId, via: SubChannelId, x: SourceId, c: SubChannelId)
    | End(s: SourceId)
    | Expire(ep: Endpoint)
    | Read(ch: Chan, closed: set<Chan>)

  predicate Enabled(n: Net, e: Event)
    requires Inv(n)
  {
    match e
    case Create(ch, id) => id !in n.names
    case Reconnect(ep) => ep in n.ends
    case NewTable(s, ep) => s !in n.tables && ep in n.ends && ep.chan in n.queue
    case Begin(s) => s in n.tables && s !in n.drafts
    case Include(s, via, x, c) => n.CanEmbed(s, via, x, c)
    case End(s) => s in n.tables && s in n.drafts && n.tables[s].self.chan in n.queue
    case Expire(ep) => true
    case Read(ch, closed) => n.CanRead(ch, closed)
  }

  ghost function Next(n: Net, e: Event): Net
    requires Inv(n) && Enabled(n, e)
  {
    match e
    case Create(ch, id) => n.Create(ch, id)
    case Reconnect(ep) => n.Reconnect(ep)
    case NewTable(s, ep) => n.NewTable(s, ep)
    case Begin(s) => n.Begin(s)
    case Include(s, via, x, c) => EmbedKeeps(n, s, via, x, c); n.Tell(s, via, x, c).Collect(s, x, c)
    case End(s) => n.End(s)
    case Expire(ep) => n.Expire(ep)
    case Read(ch, closed) => n.Read(ch, closed)
  }

  lemma NextKeeps(n: Net, e: Event)
    requires Inv(n) && Enabled(n, e)
    ensures Inv(Next(n, e))
  {
    match e
    case Create(ch, id) => CreateKeeps(n, ch, id);
    case Reconnect(ep) => ReconnectKeeps(n, ep);
    case NewTable(s, ep) => NewTableKeeps(n, s, ep);
    case Begin(s) => BeginKeeps(n, s);
    case Include(s, via, x, c) => EmbedKeeps(n, s, via, x, c);
    case End(s) => EndKeeps(n, s);
    case Expire(ep) => ExpireKeeps(n, ep);
    case Read(ch, closed) => ReadKeeps(n, ch, closed);
  }

  ghost predicate IsRun(n: Net, events: seq<Event>)
    requires Inv(n)
    decreases |events|
  {
    events == [] || (Enabled(n, events[0]) && (NextKeeps(n, events[0]); IsRun(Next(n, events[0]), events[1..])))
  }

  ghost function After(n: Net, events: seq<Event>): Net
    requires Inv(n) && IsRun(n, events)
    decreases |events|
  {
    if events == [] then n
    else
      NextKeeps(n, events[0]);
      After(Next(n, events[0]), events[1..])
  }

  /** Channels with nothing in them, and no connection yet. */
  predicate Start(n: Net) {
    && n.names == map[] && n.ends == {} && n.tables == map[] && n.drafts == map[]
    && n.queue.Keys == n.target.Keys
    && (forall ch | ch in n.queue :: n.queue[ch] == [] && n.target[ch] == map[])
  }

  lemma StartInv(n: Net)
    requires Start(n)
    ensures Inv(n)
  {
  }

  lemma {:induction false} RunKeeps(n: Net, events: seq<Event>)
    requires Inv(n) && IsRun(n, events)
    ensures Inv(After(n, events)) && After(n, events).home == n.home
    decreases |events|
  {
    if events != [] {
      NextKeeps(n, events[0]);
      RunKeeps(Next(n, events[0]), events[1..]);
    }
  }

  /**
   In every run, the message at the head of any queue is resolved without a failing lookup, and
   each subsender in it to a connection to the channel its subchannel was created on.
   */
  lemma LookupsNeverFail(n: Net, events: seq<Event>, t: Net, ch: Chan, closed: set<Chan>)
    requires Start(n) && (StartInv(n); IsRun(n, events) && t == After(n, events)) && t.CanRead(ch, closed)
    ensures var l := ResolveAll(closed, t.Reader(ch), t.queue[ch][0]);
            && l.error == None && |l.embeds| == |t.queue[ch][0]|
            && forall i | 0 <= i < |l.embeds| ::
                 var c := t.queue[ch][0][i].scid;
                 c in n.home && l.embeds[i].scid == c && l.embeds[i].sender.chan == n.home[c]
  {
    StartInv(n);
    RunKeeps(n, events);
    assert QueueOk(t.names, t.home, t.queue[ch]);
    assert forall i | 0 <= i < |t.queue[ch][0]| :: Truthful(t.names, t.home, t.queue[ch][0][i]);
    PacketResolves(closed, t.Reader(ch), t.queue[ch][0], t.names, t.home);
  }

  // ---------------------------------------------------------------------------------------
  // Where the scheme needs its assumptions
  // ---------------------------------------------------------------------------------------

  lemma {:induction false} FailureStops(closed: set<Chan>, st: State, p: Packet)
    requires !Reachable(closed, p)
    ensures ResolveAll(closed, st, p).error.Some?
  {
    var n := |p| - 1;
    if !Reachable(closed, p[..n]) {
      FailureStops(closed, st, p[..n]);
    } else {
      assert forall i | 0 <= i < n && p[i].sender.Full? :: p[..n][i].sender.chan !in closed;
      assert p[n].sender.Full? && p[n].sender.chan in closed;
    }
  }

  /** A coherent message is resolved if and only if every sender in it can be connected to. */
  lemma ResolvedIffReachable(closed: set<Chan>, st: State, p: Packet, names: Names, home: Homes)
    requires CoherentPacket(st.target.Keys, p) && TruthfulPacket(names, home, p) && TargetOk(names, st.target)
    ensures ResolveAll(closed, st, p).error.None? <==> Reachable(closed, p)
  {
    if Reachable(closed, p) {
      PacketResolves(closed, st, p, names, home);
    } else {
      FailureStops(closed, st, p);
    }
  }

  /**
   If one cannot, the senders behind it are forgotten: the target has learnt what came before it
   and nothing else, so the identifiers behind it will not be found when they are sent alone.
   */
  lemma FailureForgets(closed: set<Chan>, st: State, p: Packet, i: nat, names: Names, home: Homes)
    requires i < |p| && CoherentPacket(st.target.Keys, p[..i]) && TruthfulPacket(names, home, p[..i])
    requires TargetOk(names, st.target) && Reachable(closed, p[..i]) && p[i].sender.Full? && p[i].sender.chan in closed
    ensures ResolveAll(closed, st, p).st.target.Keys == st.target.Keys + Fulls(p[..i])
  {
    PacketResolves(closed, st, p[..i], names, home);
    assert p[..i + 1][..i] == p[..i];
    ResolveStops(closed, st, p, i + 1);
  }

  /** A `send` is given up after it has recorded what it meant to send. */
  function Abort(n: Net, s: SourceId): Net {
    n.(drafts := n.drafts - {s})
  }

  /**
   Giving up a `send` does no harm if and only if none of the connections it recorded is new to
   the target: those would be referred to by an identifier that never arrived.
   */
  lemma AbortHarmlessIff(n: Net, s: SourceId)
    requires Inv(n) && s in n.tables && s in n.drafts && n.tables[s].self.chan in n.queue
    ensures Inv(Abort(n, s))
            <==> forall ep | ep in n.tables[s].sent && ep.uuid in Fulls(n.drafts[s]) ::
                   ep.uuid in KnownAt(n, n.tables[s].self.chan)
  {
    AbortNamely(n, s);
    hide Namely, QueueOk, TableOk, CoherentPacket, CoherentQueue, Known;
    var t, known := Abort(n, s), KnownAt(n, n.tables[s].self.chan);
    assert Backed(n.tables[s], known, DraftOf(n, s));
    forall x | x in t.tables && x != s ensures Backed(t.tables[x], KnownAt(t, t.tables[x].self.chan), DraftOf(t, x)) {
      assert Backed(n.tables[x], KnownAt(n, n.tables[x].self.chan), DraftOf(n, x));
    }
    assert Inv(t) <==> Backed(t.tables[s], known, None);
  }

  lemma AbortNamely(n: Net, s: SourceId)
    requires Inv(n) && s in n.tables && s in n.drafts
    ensures Namely(Abort(n, s))
  {
  }

  /**
   A `send` may use the source of another `send` in progress for its announcement if and only
   if the connection it announces is new to that source, or known to its target already.
   */
  lemma ConcurrentTellIff(n: Net, s: SourceId, via: SubChannelId, x: SourceId, c: SubChannelId)
    requires Inv(n) && s in n.tables && x in n.tables && c in n.home && n.home[c] in n.queue
    requires n.home[c] == n.tables[x].self.chan
    ensures CoherentQueue(n.target[n.home[c]].Keys,
                          n.queue[n.home[c]] + [[Embed(via, RefFor(n.tables[x].sent, n.tables[s].self))]])
            <==> n.tables[s].self !in n.tables[x].sent || n.tables[s].self.uuid in KnownAt(n, n.home[c])
  {
    var e := Embed(via, RefFor(n.tables[x].sent, n.tables[s].self));
    QueueAppend(n.target[n.home[c]].Keys, n.queue[n.home[c]], [e]);
    PacketNext(KnownAt(n, n.home[c]), [], e);
    assert [] + [e] == [e];
  }
}
