/**
 Runs of the whole system, and what holds in every run.
 */
module Runs {
  import opened Basics
  import opened Protocol
  import opened SubchannelLifecycle
  import Demux
  import Life = Subchannel
  import opened System
  import opened Copies
  import opened Delivery

  // ---------------------------------------------------------------------------------------
  // Polling and crashing
  // ---------------------------------------------------------------------------------------

  /** What a probe can find out: its channel is dead, or its transport is over. */
  predicate Fails(w: World, c: SubChannelId, probe: Probe<Chan>)
    requires c in w.book
  {
    match probe
    case OnResponses(ch) => ch in w.dead
    case OnKeepalive(n) => n !in w.book[c].carried
    case AlwaysFailing => true
  }

  /** A poll follows upon an empty home queue; each probe that fails has reason to. */
  ghost predicate CanPoll(w: World, c: SubChannelId, failing: set<SubChannelId>) {
    && w.Shaped() && c in w.home && w.home[c] !in w.dead && w.queue[w.home[c]] == []
    && forall v | v in failing :: v in w.Machine(c).probes && Fails(w, c, w.Machine(c).probes[v])
  }

  lemma PollShaped(w: World, c: SubChannelId, failing: set<SubChannelId>)
    requires w.Shaped() && c in w.home
    ensures w.Poll(c, failing).Shaped()
  {
    var h, d := w.home[c], w.Poll(c, failing).demux[w.home[c]];
    forall a | a in w.home && w.home[a] == h ensures Owns(d, a) {
      PollOwns(w.demux[h], c, failing, a);
    }
    Refit(w.home, w.queue.Keys, w.demux, w.book.Keys, h, d);
  }

  lemma PollOwns(d: Demux.Tables<Chan>, c: SubChannelId, failing: set<SubChannelId>, a: SubChannelId)
    requires Owns(d, c) && Owns(d, a)
    ensures var (m, _, handed) := d.subChannels[c].Poll(failing);
            && Owns(d.Update(c, m), a)
            && (handed.Some? && d.Update(c, m).Accepts(handed.value)
                ==> Owns(d.Update(c, m).Push(handed.value, Demux.Marker(c)), a))
  {
  }

  lemma PollOther(w: World, c: SubChannelId, failing: set<SubChannelId>, d: SubChannelId)
    requires w.Shaped() && c in w.home && d in w.home && d != c && w.Poll(c, failing).Shaped()
    ensures w.Poll(c, failing).View(d) == w.View(d)
    ensures TablesOk(w.home, w.demux, d) ==> TablesOk(w.home, w.Poll(c, failing).demux, d)
  {
    hide Life.Sub.Poll, Purge, Life.On;
  }

  lemma PollSubject(w: World, c: SubChannelId, failing: set<SubChannelId>)
    requires w.Shaped() && c in w.home && w.Poll(c, failing).Shaped()
    ensures w.Poll(c, failing).View(c) == w.View(c).Poll(failing)
  {
  }

  lemma PollTables(w: World, c: SubChannelId, failing: set<SubChannelId>)
    requires w.Shaped() && c in w.home && w.Poll(c, failing).Shaped() && TablesOk(w.home, w.demux, c)
    ensures TablesOk(w.home, w.Poll(c, failing).demux, c)
    ensures LocalCargo(w.Poll(c, failing).Local(c)) == LocalCargo(w.Local(c))
  {
    PollMoves(w, c, failing);
    hide World.Poll, World.Shaped, Machine.Poll;
    PolledProbes(w.Machine(c), failing);
    MarkedCargo(w.Local(c), w.Poll(c, failing).Local(c), c);
  }

  lemma PollMoves(w: World, c: SubChannelId, failing: set<SubChannelId>)
    requires w.Shaped() && c in w.home && w.Poll(c, failing).Shaped()
    ensures w.Poll(c, failing).Machine(c) == w.Machine(c).Poll(failing).0
    ensures w.Poll(c, failing).Local(c) == w.Local(c) || w.Poll(c, failing).Local(c) == w.Local(c) + [Demux.Marker(c)]
  {
    hide Machine.Poll, Life.Sub.Poll, World.View;
  }

  lemma PolledProbes(m: Life.SM, failing: set<SubChannelId>)
    ensures forall v | v in m.Poll(failing).0.probes :: v in m.probes && m.Poll(failing).0.probes[v] == m.probes[v]
  {
  }

  lemma PollCoupled(w: World, c: SubChannelId, failing: set<SubChannelId>)
    requires Base(w) && Coupled(w) && c in w.home && w.Poll(c, failing).Shaped()
    ensures Coupled(w.Poll(c, failing))
  {
    var t := w.Poll(c, failing);
    assert TablesOk(w.home, w.demux, c);
    PollTables(w, c, failing);
    forall u, d | u in t.home && d in t.home && t.home[u] !in t.dead ensures CoupledAt(t, u, d) {
      assert CoupledAt(w, u, d);
      PollCoupledAt(w, c, failing, u, d);
    }
  }

  lemma PollCoupledAt(w: World, c: SubChannelId, failing: set<SubChannelId>, u: SubChannelId, d: SubChannelId)
    requires w.Shaped() && c in w.home && w.Poll(c, failing).Shaped() && u in w.home && d in w.home
             && CoupledAt(w, u, d)
    requires LocalCargo(w.Poll(c, failing).Local(c)) == LocalCargo(w.Local(c))
    ensures CoupledAt(w.Poll(c, failing), u, d)
  {
    hide Purge;
    if u != c {
      assert w.Poll(c, failing).Local(u) == w.Local(u);
    }
  }

  lemma PollBase(w: World, c: SubChannelId, failing: set<SubChannelId>)
    requires Base(w) && c in w.home
    ensures Base(w.Poll(c, failing))
  {
    PollShaped(w, c, failing);
    PollTables(w, c, failing);
    var t := w.Poll(c, failing);
    forall d | d in t.home ensures TablesOk(t.home, t.demux, d) {
      if d != c {
        PollOther(w, c, failing, d);
      }
    }
  }

  /** Polling keeps the whole system in order exactly if no copy is on a living carrier whose probe fails. */
  lemma PollGoodIff(w: World, c: SubChannelId, failing: set<SubChannelId>)
    requires Good(w) && CanPoll(w, c, failing)
    ensures Good(w.Poll(c, failing)) <==> Life.PollHarmless(w.View(c), failing)
  {
    var t := w.Poll(c, failing);
    PollBase(w, c, failing);
    PollCoupled(w, c, failing);
    PollSubject(w, c, failing);
    Life.PollKeepsInvIff(w.View(c), failing);
    hide Base, Coupled, Life.Inv, Life.PollHarmless, World.Poll;
    forall d | d in w.home && d != c ensures t.View(d) == w.View(d) {
      PollOther(w, c, failing, d);
    }
  }

  lemma CrashShaped(w: World, h: Chan)
    requires w.Shaped() && h in w.queue
    ensures w.Crash(h).Shaped()
  {
    hide World.View, Life.Sub.GoDown;
    assert w.Crash(h).book.Keys == w.book.Keys;
  }

  lemma CrashView(w: World, h: Chan, c: SubChannelId)
    requires w.Shaped() && h in w.queue && c in w.home && w.home[c] != h && w.Crash(h).Shaped()
    ensures w.Crash(h).View(c) == w.View(c).GoDown(HomedAt(w.home, h))
  {
    hide World.Crash, World.Machine, World.Local, World.Gone, World.DownVias, Purge, Life.On;
    CrashFrame(w, h, c);
  }

  lemma CrashFrame(w: World, h: Chan, c: SubChannelId)
    requires w.Shaped() && h in w.queue && c in w.home && w.home[c] != h && w.Crash(h).Shaped()
    ensures var t := w.Crash(h);
            && t.home == w.home && t.Machine(c) == w.Machine(c) && t.queue[w.home[c]] == w.queue[w.home[c]]
            && t.Local(c) == w.Local(c) && t.Gone(c) == w.Gone(c)
            && t.DownVias() == w.DownVias() + HomedAt(w.home, h)
            && t.book[c] == w.book[c].Purged(w.View(c).GoDown(HomedAt(w.home, h)))
  {
    hide World.View, Life.Sub.GoDown;
  }

  lemma CrashAlive(w: World, h: Chan)
    requires w.Shaped() && Alive(w) && h in w.queue && w.Crash(h).Shaped()
    ensures Alive(w.Crash(h))
  {
    forall c | c in w.home && w.home[c] !in w.Crash(h).dead ensures Life.Inv(w.Crash(h).View(c)) {
      CrashView(w, h, c);
      Life.GoDownKeepsInv(w.View(c), HomedAt(w.home, h));
    }
  }

  lemma CountedPurged(b: Book, s: Life.Sub, queued: seq<Embed<Chan>>, local: seq<Embed<Chan>>, vias: set<SubChannelId>,
                      v: SubChannelId, c: SubChannelId)
    requires Counted(b, queued, local, v, c) && v !in vias && s.transit == b.transit && s.pending == b.pending
    ensures Counted(b.Purged(s.GoDown(vias)), queued, local, v, c)
  {
    assert Purge(b.transit, vias)[v] == b.transit[v];
    assert Purge(b.pending, vias)[v] == b.pending[v];
  }

  lemma CrashCoupled(w: World, h: Chan)
    requires w.Shaped() && Coupled(w) && h in w.queue && w.Crash(h).Shaped()
    ensures Coupled(w.Crash(h))
  {
    var t := w.Crash(h);
    hide Counted, Book.Purged;
    forall u, c | u in t.home && c in t.home && t.home[u] !in t.dead ensures CoupledAt(t, u, c) {
      assert CoupledAt(w, u, c);
      CountedPurged(w.book[c], w.View(c), QueuedCargo(w.queue[w.home[u]], u), LocalCargo(w.Local(u)),
                    HomedAt(w.home, h), u, c);
    }
  }

  lemma CrashGood(w: World, h: Chan)
    requires Good(w) && h in w.queue
    ensures Good(w.Crash(h))
  {
    CrashShaped(w, h);
    CrashAlive(w, h);
    CrashCoupled(w, h);
  }

  // ---------------------------------------------------------------------------------------
  // Runs
  // ---------------------------------------------------------------------------------------

  /**
   `(c, x, ch)` names a live copy of subchannel `c` at source `x` that sends to channel `ch`.
   What must be sent fails on a dead channel: then nothing is announced, sent or rebuilt.
   */
  datatype Event =
    | Clone(c: SubChannelId, x: Source, ch: Chan)
    | Drop(c: SubChannelId, x: Source, ch: Chan)
    | Vanish(c: SubChannelId, x: Source, ch: Chan)
    | Learn(c: SubChannelId, x: Source)
    | Announce(c: SubChannelId, x: Source, ch: Chan, via: SubChannelId, viaSource: Source, viaChan: Chan)
    | Abandon(rider: Rider, via: SubChannelId)
    | Transmit(via: SubChannelId, x: Source, ch: Chan, payload: Payload, riders: seq<Rider>)
    | Deliver(h: Chan, fault: Fault)
    | Recv(c: SubChannelId, fault: Fault)
    | DropReceiver(c: SubChannelId)
    | Poll(c: SubChannelId, failing: set<SubChannelId>)
    | Crash(h: Chan)
    | BeginTransport(c: SubChannelId, x: Source, ch: Chan)
    | EndTransport(c: SubChannelId, n: nat)
    | LoseTransport(c: SubChannelId, n: nat)

  lemma GoodShape(w: World)
    requires Good(w)
    ensures Base(w) && w.Shaped() && w.book.Keys == w.home.Keys && forall c | c in w.home :: w.home[c] in w.queue
  {
  }

  ghost predicate Enabled(w: World, e: Event)
    requires Good(w)
  {
    GoodShape(w);
    hide Good, Base, World.Shaped;
    match e
    case Clone(c, x, ch) => w.Holds(c, x, ch)
    case Drop(c, x, ch) => w.Spare(c, x, ch)
    case Vanish(c, x, ch) => w.Spare(c, x, ch)
    case Learn(c, _) => c in w.home && w.Gone(c)
    case Announce(c, x, ch, via, viaSource, viaChan) =>
      w.Holds(c, x, ch) && ch !in w.dead && w.Holds(via, viaSource, viaChan)
    case Abandon(r, via) => w.CanBoard(r, via)
    case Transmit(via, x, ch, _, riders) => w.Holds(via, x, ch) && ch !in w.dead && w.CanBoardAll(riders, via)
    case Deliver(h, fault) => w.CanDeliver(h) && CanFail(w.queue[h][0], fault)
    case Recv(c, fault) => w.CanRecv(c) && CanTake(w, c, fault)
    case DropReceiver(c) => c in w.home && w.home[c] !in w.dead && !w.Gone(c)
    case Poll(c, failing) => CanPoll(w, c, failing)
    case Crash(h) => h in w.queue
    case BeginTransport(c, x, ch) => w.Spare(c, x, ch) && ch !in w.dead
    case EndTransport(c, n) => c in w.home && w.home[c] !in w.dead && n in w.book[c].carried
    case LoseTransport(c, n) => c in w.home && n in w.book[c].carried
  }

  /**
   Two things that can happen need care: an announcement is not recorded though its copy may
   yet arrive, and a poll gives up copies on a carrier that lives, because transports share
   their probe or because the carrier could not be connected to once. Both can be told before.
   */
  ghost predicate Safe(w: World, e: Event)
    requires Good(w) && Enabled(w, e)
  {
    GoodShape(w);
    hide Good, Base, World.Shaped;
    match e
    case Deliver(h, fault) => DeliverSafe(w, h, fault)
    case Poll(c, failing) => Life.PollHarmless(w.View(c), failing)
    case _ => true
  }

  ghost function Next(w: World, e: Event): World
    requires Good(w) && Enabled(w, e)
  {
    GoodShape(w);
    hide Good, Base, World.Shaped, CanTake, CanFail;
    match e
    case Clone(c, x, ch) => w.Clone(c, x)
    case Drop(c, x, ch) => w.Drop(c, x, ch)
    case Vanish(c, x, ch) => w.Vanish(c, x)
    case Learn(c, x) => w.Learn(c, x)
    case Announce(c, x, ch, via, _, viaChan) => w.Announce(c, x, ch, via, viaChan)
    case Abandon(r, via) => w.Abandon(r, via)
    case Transmit(via, _, ch, payload, riders) => w.Transmit(via, ch, payload, riders)
    case Deliver(h, fault) => Delivery.Deliver(w, h, fault)
    case Recv(c, fault) => Delivery.Recv(w, c, fault)
    case DropReceiver(c) => Delivery.DropReceiver(w, c)
    case Poll(c, failing) => w.Poll(c, failing)
    case Crash(h) => w.Crash(h)
    case BeginTransport(c, x, ch) => w.BeginTransport(c, x, ch)
    case EndTransport(c, n) => w.EndTransport(c, n, w.home[c])
    case LoseTransport(c, n) => w.LoseTransport(c, n)
  }

  /** An event keeps the whole system in order exactly if it is safe. */
  lemma NextGoodIff(w: World, e: Event)
    requires Good(w) && Enabled(w, e)
    ensures Good(Next(w, e)) <==> Safe(w, e)
  {
    GoodShape(w);
    hide Good, Base, World.Shaped, DeliverSafe, Life.PollHarmless, CanTake, CanFail;
    match e
    case Deliver(h, fault) => DeliverGoodIff(w, h, fault);
    case Recv(c, fault) => RecvGood(w, c, fault);
    case DropReceiver(c) => DropReceiverGood(w, c);
    case Poll(c, failing) => PollGoodIff(w, c, failing);
    case Crash(h) => CrashGood(w, h);
    case BeginTransport(_, _, _) => TransportNextGood(w, e);
    case EndTransport(_, _) => TransportNextGood(w, e);
    case LoseTransport(_, _) => TransportNextGood(w, e);
    case _ => CopyNextGood(w, e);
  }

  lemma TransportNextGood(w: World, e: Event)
    requires Good(w) && Enabled(w, e) && (e.BeginTransport? || e.EndTransport? || e.LoseTransport?)
    ensures Good(Next(w, e))
  {
    GoodShape(w);
    hide Good, World.Shaped, World.BeginTransport, World.EndTransport, World.LoseTransport;
    if e.BeginTransport? {
      BeginTransportGood(w, e.c, e.x, e.ch);
    } else if e.EndTransport? {
      EndTransportGood(w, e.c, e.n, w.home[e.c]);
    } else {
      LoseTransportGood(w, e.c, e.n);
    }
  }

  lemma CopyNextGood(w: World, e: Event)
    requires Good(w) && Enabled(w, e)
    requires e.Clone? || e.Drop? || e.Vanish? || e.Learn? || e.Announce? || e.Abandon? || e.Transmit?
    ensures Good(Next(w, e))
  {
    GoodShape(w);
    hide Good, World.Shaped, World.Clone, World.Drop, World.Vanish, World.Learn, World.Announce, World.Abandon,
         World.Transmit;
    match e
    case Clone(c, x, ch) => CloneGood(w, c, x, ch);
    case Drop(c, x, ch) => DropGood(w, c, x, ch);
    case Vanish(c, x, ch) => VanishGood(w, c, x, ch);
    case Learn(c, x) => LearnGood(w, c, x);
    case Announce(c, x, ch, via, _, viaChan) =>
      EndsLeadHome(w, via, e.viaSource, viaChan);
      AnnounceGood(w, c, x, ch, via, viaChan);
    case Abandon(r, via) => AbandonGood(w, r, via);
    case Transmit(via, x, ch, payload, riders) => TransmitGood(w, via, x, ch, payload, riders);
  }

  lemma EndsLeadHome(w: World, c: SubChannelId, x: Source, ch: Chan)
    requires Base(w) && w.Holds(c, x, ch)
    ensures c in w.home && w.home[c] == ch
  {
  }

  /** Any sequence of events that can happen and are safe. */
  ghost predicate IsRun(w: World, events: seq<Event>)
    requires Good(w)
    decreases |events|
  {
    events == []
    || (Enabled(w, events[0]) && Safe(w, events[0])
        && (NextGoodIff(w, events[0]); IsRun(Next(w, events[0]), events[1..])))
  }

  ghost function After(w: World, events: seq<Event>): World
    requires Good(w) && IsRun(w, events)
    decreases |events|
  {
    if events == [] then w
    else
      NextGoodIff(w, events[0]);
      After(Next(w, events[0]), events[1..])
  }

  /** Nothing has happened: each subchannel has one subsender, where it was created. */
  ghost predicate Start(w: World) {
    && w.Shaped() && w.dead == {}
    && (forall ch | ch in w.queue :: w.queue[ch] == [])
    && (forall c | c in w.home :: (c, Origin, w.home[c]) in w.ends)
    && (forall c, x, ch | (c, x, ch) in w.ends :: c in w.home && x == Origin && ch == w.home[c])
    && forall c | c in w.home ::
         && w.Local(c) == [] && w.book[c].taken == [] && w.book[c].handed == []
         && !w.Gone(c) && Life.Fresh(w.View(c))
  }

  lemma StartBase(w: World)
    requires Start(w)
    ensures Base(w)
  {
    hide Life.Fresh;
    forall c | c in w.home ensures TablesOk(w.home, w.demux, c) {
      assert w.Local(c) == [] && Life.Fresh(w.View(c));
      StartTables(w, c);
    }
  }

  lemma StartTables(w: World, c: SubChannelId)
    requires w.Shaped() && c in w.home && w.Local(c) == [] && Life.Fresh(w.View(c))
    ensures TablesOk(w.home, w.demux, c)
  {
  }

  lemma StartGood(w: World)
    requires Start(w)
    ensures Good(w)
  {
    StartBase(w);
    forall c | c in w.home ensures Life.Inv(w.View(c)) {
      Life.FreshInv(w.View(c));
    }
    hide Life.Inv, Base;
    forall v, c | v in w.home && c in w.home ensures CoupledAt(w, v, c) {
      assert w.queue[w.home[v]] == [] && w.Local(v) == [] && Life.Fresh(w.View(c));
      StartCoupledAt(w, v, c);
    }
  }

  lemma StartCoupledAt(w: World, v: SubChannelId, c: SubChannelId)
    requires w.Shaped() && v in w.home && c in w.home && w.queue[w.home[v]] == [] && w.Local(v) == []
    requires Life.Fresh(w.View(c))
    ensures CoupledAt(w, v, c)
  {
  }

  lemma {:induction false} RunGood(w: World, events: seq<Event>)
    requires Good(w) && IsRun(w, events)
    ensures Good(After(w, events))
    decreases |events|
  {
    if events != [] {
      NextGoodIff(w, events[0]);
      RunGood(Next(w, events[0]), events[1..]);
    }
  }

  /** State `t` is reached from a start state `w` by a run. */
  ghost predicate Reaches(w: World, events: seq<Event>, t: World) {
    Start(w) && (StartGood(w); IsRun(w, events) && t == After(w, events))
  }
}
