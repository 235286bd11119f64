/**
 What users of subchannels may rely on, in every run of the whole system.
 */
module Guarantees {
  import opened Basics
  import opened Protocol
  import opened SubchannelLifecycle
  import Demux
  import Life = Subchannel
  import opened System
  import opened Copies
  import opened Delivery
  import opened Runs
  import opened Histories

  // ---------------------------------------------------------------------------------------
  // No premature disconnection
  // ---------------------------------------------------------------------------------------

  /** What makes `recv` report that the subchannel is disconnected. */
  ghost predicate ReportsDisconnected(w: World, c: SubChannelId)
    requires w.Shaped() && c in w.home
  {
    if w.Local(c) == [] then w.Machine(c).maybe.None? else w.Local(c)[0].Marker?
  }

  /** No copy of `c` is inside a message that somebody could still receive. */
  ghost predicate NowhereInside(w: World, c: SubChannelId)
    requires w.Shaped() && c in w.home
  {
    forall v | v in w.home && w.home[v] !in w.dead ::
      Count(QueuedCargo(w.queue[w.home[v]], v), c) == 0 && Count(LocalCargo(w.Local(v)), c) == 0
  }

  lemma MarkerMeansClosed(s: Life.Sub, i: nat)
    requires Life.Inv(s) && !s.gone && i < |s.log| && s.log[i] == Life.Closed
    ensures s.m.maybe.None? && i == |s.log| - 1
  {
  }

  /** A copy inside a message is a copy on its carrier. */
  lemma DesertedNowhereInside(w: World, c: SubChannelId)
    requires w.Shaped() && Coupled(w) && c in w.home && Life.Deserted(w.View(c))
    ensures NowhereInside(w, c)
  {
    forall v | v in w.home && w.home[v] !in w.dead
      ensures Count(QueuedCargo(w.queue[w.home[v]], v), c) == 0 && Count(LocalCargo(w.Local(v)), c) == 0
    {
      assert CoupledAt(w, v, c);
    }
  }

  /** What was sent to a subchannel, but for the messages that were lost. */
  ghost function Undamaged(b: Book): seq<Payload>
    requires |b.fates| <= |b.sent|
  {
    Life.Kept(b.sent[..|b.fates|], b.fates)
  }

  /**
   For each item that was taken, the history says whether it was handed out: it was not if it was
   a message that could not be rebuilt.
   */
  ghost predicate Paired(b: Book) {
    |b.handed| == |b.taken|
  }

  /** Every message has been taken that was sent and not lost, and the marker is next or has been taken. */
  ghost predicate AllReceived(t: World, c: SubChannelId)
    requires t.Shaped() && c in t.home
  {
    && |t.book[c].fates| == |t.book[c].sent|
    && exists marker: seq<Item> :: marker <= [Demux.Marker(c)]
         && Outs(t.book[c].taken) == Life.Letters(Undamaged(t.book[c])) + Outs(marker)
         && t.Local(c) == if marker == [] then [Demux.Marker(c)] else []
  }

  /**
   In every run, when the receiver of a subchannel reports that it is disconnected, no subsender
   for it is left anywhere and every message sent to it has been taken by a `recv` but for those
   lost, to be handed out if it could be rebuilt.
   */
  lemma NoPrematureDisconnection(w: World, events: seq<Event>, t: World, c: SubChannelId)
    requires Reaches(w, events, t) && t.Shaped() && c in t.home && t.home[c] !in t.dead && !t.Gone(c)
    requires ReportsDisconnected(t, c)
    ensures Life.Deserted(t.View(c)) && NowhereInside(t, c) && AllReceived(t, c)
    ensures Paired(t.book[c])
  {
    StartGood(w);
    RunGood(w, events);
    ClosedIsFinal(t, c);
    HandedMatches(w, events, t, c);
  }

  lemma PairedNext(w: World, e: Event, c: SubChannelId)
    requires Good(w) && Enabled(w, e) && Good(Next(w, e)) && c in w.home && c in w.book && Paired(w.book[c])
    ensures c in Next(w, e).home && c in Next(w, e).book && Paired(Next(w, e).book[c])
  {
    hide Good, Enabled, Next, TollOf, Tells, Paired, CanPoll, World.Poll, Safe, Life.PollHarmless;
    if e.Poll? {
      PollIsNext(w, e);
      PollPairs(w, e.c, e.failing, c);
    } else {
      LeaksExactly(w, e, c);
      TellsPaired(w, Next(w, e), c, TollOf(w, e, c));
    }
  }

  lemma TellsPaired(w: World, t: World, c: SubChannelId, toll: Toll)
    requires c in w.home && c in w.book && Tells(w, t, c, toll) && Paired(w.book[c])
    ensures c in t.home && c in t.book && Paired(t.book[c])
  {
  }

  lemma PollPairs(w: World, a: SubChannelId, failing: set<SubChannelId>, c: SubChannelId)
    requires w.Shaped() && a in w.home && c in w.book && Paired(w.book[c])
    ensures w.Poll(a, failing).home == w.home && c in w.Poll(a, failing).book && Paired(w.Poll(a, failing).book[c])
  {
    hide World.View, Machine.Poll, Life.Sub.Poll;
  }

  lemma {:induction false} PairedRun(w: World, events: seq<Event>, c: SubChannelId)
    requires Good(w) && IsRun(w, events) && c in w.home && c in w.book && Paired(w.book[c])
    ensures c in After(w, events).book && Paired(After(w, events).book[c])
    decreases |events|
  {
    hide Good, Enabled, Safe, Next, Paired;
    if events != [] {
      NextGoodIff(w, events[0]);
      PairedNext(w, events[0], c);
      PairedRun(Next(w, events[0]), events[1..], c);
    }
  }

  lemma HandedMatches(w: World, events: seq<Event>, t: World, c: SubChannelId)
    requires Reaches(w, events, t) && t.Shaped() && c in t.home
    ensures Paired(t.book[c])
  {
    StartGood(w);
    HomeNeverChanges(w, events);
    assert c in w.book && Paired(w.book[c]);
    hide Good, Start;
    PairedRun(w, events, c);
  }

  lemma ClosedIsFinal(t: World, c: SubChannelId)
    requires Good(t) && c in t.home && t.home[c] !in t.dead && !t.Gone(c) && ReportsDisconnected(t, c)
    ensures Life.Deserted(t.View(c)) && NowhereInside(t, c) && AllReceived(t, c)
  {
    var s, taken, local := t.View(c), t.book[c].taken, t.Local(c);
    assert TablesOk(t.home, t.demux, c);
    OutsAppend(taken, local);
    if local != [] {
      MarkerMeansClosed(s, |taken|);
    }
    Life.ClosedMeansDeserted(s);
    DesertedNowhereInside(t, c);
    assert local != [] ==> ItemOk(t.home, c, local[0]);
    assert s.sent[..|s.sent|] == s.sent;
    LogEnds(taken, local, Undamaged(t.book[c]), c);
  }

  /** A marker at the end of everything that was ever in a local queue has been taken out or has not. */
  lemma LogEnds(taken: seq<Item>, local: seq<Item>, sent: seq<Payload>, c: SubChannelId)
    requires Outs(taken) + Outs(local) == Life.Letters(sent) + [Life.Closed]
    requires local == [] || local[0] == Demux.Marker(c)
    ensures exists marker: seq<Item> :: marker <= [Demux.Marker(c)]
              && Outs(taken) == Life.Letters(sent) + Outs(marker)
              && local == if marker == [] then [Demux.Marker(c)] else []
  {
    var log := Outs(taken) + Outs(local);
    if local == [] {
      var marker: seq<Item> := [Demux.Marker(c)];
      assert Outs(taken) == Life.Letters(sent) + Outs(marker);
    } else {
      assert log[|taken|] == Life.Closed;
      assert local == [Demux.Marker(c)];
      assert Outs(taken) == log[..|taken|] == Life.Letters(sent) + Outs([]);
    }
  }

  // ---------------------------------------------------------------------------------------
  // Order
  // ---------------------------------------------------------------------------------------

  /**
   A subchannel is a queue: what has been received and what waits in the local queue are together
   what was sent first, in order, but for lost messages, and a marker once it is closed; what is
   queued in the channel is what was sent then. What was taken was handed out but for the messages
   that could not be rebuilt.
   */
  lemma SubchannelIsFifo(w: World, events: seq<Event>, t: World, c: SubChannelId)
    requires Reaches(w, events, t) && t.Shaped() && c in t.home && t.home[c] !in t.dead
    ensures |t.book[c].fates| <= |t.book[c].sent|
    ensures Life.Payloads(Notes(t.queue[t.home[c]], c)) == t.book[c].sent[|t.book[c].fates|..]
    ensures !t.Gone(c) ==>
              Outs(t.book[c].taken) + Outs(t.Local(c))
              == Life.Letters(Undamaged(t.book[c])) + if t.Machine(c).maybe.None? then [Life.Closed] else []
    ensures Paired(t.book[c])
  {
    StartGood(w);
    RunGood(w, events);
    OutsAppend(t.book[c].taken, t.Local(c));
    assert Life.Inv(t.View(c));
    HandedMatches(w, events, t, c);
  }

  // ---------------------------------------------------------------------------------------
  // Exact detection
  // ---------------------------------------------------------------------------------------

  /**
   In every run, once the messages about a subchannel have been handled, its machine has given its
   sender away if and only if no copy is left anywhere and it has been told of all that became of
   them. Its local queue has then got every message that was not lost, and after them one
   marker.
   */
  lemma ExactDetection(w: World, events: seq<Event>, t: World, c: SubChannelId)
    requires Reaches(w, events, t)
    requires t.Shaped() && c in t.home && t.home[c] !in t.dead && Notes(t.queue[t.home[c]], c) == []
    ensures t.Machine(c).maybe.None? <==> Life.Deserted(t.View(c)) && Life.Accounted(t.View(c))
    ensures |t.book[c].fates| == |t.book[c].sent|
    ensures !t.Gone(c) ==>
              Outs(t.book[c].taken + t.Local(c))
              == Life.Letters(Undamaged(t.book[c])) + if t.Machine(c).maybe.None? then [Life.Closed] else []
  {
    StartGood(w);
    RunGood(w, events);
    ClosedExactly(t, c);
  }

  lemma ClosedExactly(t: World, c: SubChannelId)
    requires Good(t) && c in t.home && t.home[c] !in t.dead && Notes(t.queue[t.home[c]], c) == []
    ensures t.Machine(c).maybe.None? <==> Life.Deserted(t.View(c)) && Life.Accounted(t.View(c))
    ensures |t.book[c].fates| == |t.book[c].sent|
    ensures !t.Gone(c) ==>
              Outs(t.book[c].taken + t.Local(c))
              == Life.Letters(Undamaged(t.book[c])) + if t.Machine(c).maybe.None? then [Life.Closed] else []
  {
    assert Life.Inv(t.View(c));
    Life.ClosedIffDeserted(t.View(c));
  }

  /**
   An event that takes nothing of `c`: no process dies with copies of `c` in its hands, its
   receiver is not dropped, every reference is resolved, and its messages can be rebuilt.
   */
  predicate Quiet(e: Event, c: SubChannelId) {
    && !e.Crash? && !(e.Vanish? && e.c == c) && e != DropReceiver(c)
    && (e.Deliver? || (e.Recv? && e.c == c) ==> e.fault.None?)
  }

  predicate AllQuiet(events: seq<Event>, c: SubChannelId) {
    forall i | 0 <= i < |events| :: Quiet(events[i], c)
  }

  /** So far nothing has been kept from the machine but leaks, and every message arrived. */
  ghost predicate Untroubled(w: World, c: SubChannelId) {
    && w.Shaped() && w.dead == {} && c in w.home && !w.Gone(c)
    && w.book[c].waived == multiset{} && w.book[c].orphaned == {} && w.book[c].told == {}
    && (forall i | 0 <= i < |w.book[c].fates| :: w.book[c].fates[i])
    && (forall i | 0 <= i < |w.book[c].handed| :: w.book[c].handed[i])
  }

  lemma QuietPoll(w: World, a: SubChannelId, failing: set<SubChannelId>, c: SubChannelId)
    requires w.Shaped() && a in w.home && Untroubled(w, c) && Life.PollHarmless(w.View(a), failing)
    requires w.Poll(a, failing).Shaped() && !w.Poll(a, failing).Gone(c) && w.View(a).announced[EMPTY_SUBCHANNEL_ID] == 0
    ensures Untroubled(w.Poll(a, failing), c)
  {
    if a == c {
      var s := w.View(c);
      forall v ensures s.Poll(failing).waived[v] == 0 {
        Life.SettledAt(s, failing, v);
        assert s.Poll(failing).waived == Life.Settled(s, failing).waived;
        assert v in failing ==> s.Aboard(v) == 0;
      }
      assert s.Poll(failing).waived == multiset{};
    }
  }

  lemma QuietTold(w: World, t: World, e: Event, c: SubChannelId)
    requires Good(w) && Enabled(w, e) && Untroubled(w, c) && Quiet(e, c) && !e.Poll? && c in w.book
    requires t.Shaped() && t.dead == {} && t.home == w.home && !t.Gone(c) && Tells(w, t, c, TollOf(w, e, c))
    ensures Untroubled(t, c)
  {
    hide TollOf, Enabled, Good;
    QuietToll(w, e, c);
  }

  /** Nothing is kept from the machine but leaks. */
  ghost predicate Light(toll: Toll) {
    && !toll.orphans && toll.waives == multiset{}
    && (forall i | 0 <= i < |toll.fates| :: toll.fates[i])
    && (forall i | 0 <= i < |toll.hands| :: toll.hands[i])
  }

  lemma LightTolls(n: nat, fates: seq<bool>)
    ensures Light(Nothing) && Light(Leaks(n))
    ensures (forall i | 0 <= i < |fates| :: fates[i]) ==>
              Light(Fates(fates).(leaks := n)) && Light(Hands(fates).(leaks := n)) && Light(Hands(fates))
  {
  }

  lemma QuietToll(w: World, e: Event, c: SubChannelId)
    requires Good(w) && Enabled(w, e) && Untroubled(w, c) && Quiet(e, c) && c in w.book
    ensures c in w.home && Light(TollOf(w, e, c))
  {
    hide Base, Alive, Coupled, Downed, Undelivered, Unbuilt, Judgement, Light, Leaks, Fates, Hands, CanTake;
    LightTolls(0, []);
    if e.Deliver? {
      QuietDeliverToll(w, e.h, c);
    } else if e.Recv? {
      LightTolls(Unbuilt(w, e.c, e.fault, c), if e.c == c then [true] else []);
    } else if e.Abandon? || e.LoseTransport? {
      LightTolls(1, []);
    }
  }

  lemma QuietDeliverToll(w: World, h: Chan, c: SubChannelId)
    requires Good(w) && w.CanDeliver(h) && Untroubled(w, c)
    ensures c in w.home && Light(DeliverToll(w, h, None, c))
  {
    hide Good, Light, Leaks, Fates, Hands, Undelivered;
    LightTolls(0, []);
    if w.queue[h][0].Data? {
      LightTolls(Undelivered(w, h, None, c), Judgement(w, h, None, c));
    }
  }

  /** No channel dies and the receiver stays. */
  lemma QuietHome(w: World, e: Event, t: World, c: SubChannelId)
    requires w.Shaped() && t.Shaped() && StaysHome(w, e, t) && Quiet(e, c) && Untroubled(w, c)
    ensures t.dead == {} && t.home == w.home && !t.Gone(c)
  {
  }

  lemma QuietNext(w: World, e: Event, c: SubChannelId)
    requires Good(w) && Enabled(w, e) && Safe(w, e) && Untroubled(w, c) && Quiet(e, c)
    ensures Good(Next(w, e)) && Untroubled(Next(w, e), c)
  {
    hide Base, Coupled, Alive, Tells, Life.PollHarmless, StaysHome, Untroubled, Enabled, Next, Safe;
    NextGoodIff(w, e);
    NextHome(w, e);
    var t := Next(w, e);
    GoodShape(w);
    GoodShape(t);
    QuietHome(w, e, t, c);
    UntroubledBook(w, c);
    if e.Poll? {
      PollIsNext(w, e);
      QuietPolled(w, e.c, e.failing, c);
    } else {
      LeaksExactly(w, e, c);
      QuietTold(w, t, e, c);
    }
  }

  lemma UntroubledBook(w: World, c: SubChannelId)
    requires Untroubled(w, c)
    ensures c in w.home && c in w.book
  {
  }

  lemma PollIsNext(w: World, e: Event)
    requires Good(w) && Enabled(w, e) && e.Poll?
    ensures w.Shaped() && e.c in w.home && CanPoll(w, e.c, e.failing) && Next(w, e) == w.Poll(e.c, e.failing)
    ensures Safe(w, e) ==> Life.PollHarmless(w.View(e.c), e.failing)
  {
    hide Base, Coupled, Alive, Life.PollHarmless, World.Poll;
  }

  lemma QuietPolled(w: World, a: SubChannelId, failing: set<SubChannelId>, c: SubChannelId)
    requires Good(w) && CanPoll(w, a, failing) && Life.PollHarmless(w.View(a), failing) && Untroubled(w, c)
    requires w.Poll(a, failing).Shaped() && c in w.Poll(a, failing).home && !w.Poll(a, failing).Gone(c)
    ensures Untroubled(w.Poll(a, failing), c)
  {
    hide Coupled, TablesOk, Addressed, EndsOk, Life.PollHarmless, World.Poll, Untroubled;
    assert Life.Inv(w.View(a)) && Life.CarriersKnown(w.View(a));
    QuietPoll(w, a, failing, c);
  }

  lemma {:induction false} QuietRun(w: World, events: seq<Event>, c: SubChannelId)
    requires Good(w) && IsRun(w, events) && Untroubled(w, c) && AllQuiet(events, c)
    ensures Untroubled(After(w, events), c)
    decreases |events|
  {
    hide Good, Untroubled, Enabled, Safe, Next;
    if events != [] {
      assert Quiet(events[0], c);
      QuietNext(w, events[0], c);
      QuietRun(Next(w, events[0]), events[1..], c);
    }
  }

  lemma StartUntroubled(w: World, c: SubChannelId)
    requires Start(w) && c in w.home
    ensures Untroubled(w, c)
  {
    assert Life.Fresh(w.View(c));
  }

  /**
   In particular: in every run in which no process dies with copies of `c`, its receiver stays,
   every reference is resolved and its messages can be rebuilt, once its messages are handled the
   subchannel is closed if and only if no copy is left and none has leaked; and all that was sent
   waits in its local queue or was handed out.
   */
  lemma QuietDetection(w: World, events: seq<Event>, t: World, c: SubChannelId)
    requires Reaches(w, events, t) && c in w.home && AllQuiet(events, c)
    requires t.Shaped() && c in t.home && Notes(t.queue[t.home[c]], c) == []
    ensures t.Machine(c).maybe.None? <==> Life.Deserted(t.View(c)) && t.book[c].leaked == multiset{}
    ensures !t.Gone(c) && Paired(t.book[c]) && forall i | 0 <= i < |t.book[c].handed| :: t.book[c].handed[i]
    ensures Outs(t.book[c].taken) + Outs(t.Local(c))
            == Life.Letters(t.book[c].sent) + if t.Machine(c).maybe.None? then [Life.Closed] else []
  {
    HandedMatches(w, events, t, c);
    hide Good, Start, Untroubled, IsRun, After;
    StartGood(w);
    StartUntroubled(w, c);
    RunGood(w, events);
    QuietRun(w, events, c);
    QuietlyClosed(t, c);
  }

  lemma QuietlyClosed(t: World, c: SubChannelId)
    requires Good(t) && Untroubled(t, c) && Notes(t.queue[t.home[c]], c) == []
    ensures t.Machine(c).maybe.None? <==> Life.Deserted(t.View(c)) && t.book[c].leaked == multiset{}
    ensures !t.Gone(c) && forall i | 0 <= i < |t.book[c].handed| :: t.book[c].handed[i]
    ensures Outs(t.book[c].taken) + Outs(t.Local(c))
            == Life.Letters(t.book[c].sent) + if t.Machine(c).maybe.None? then [Life.Closed] else []
  {
    hide Base, Coupled, Alive;
    ClosedExactly(t, c);
    Life.AllKept(t.book[c].sent, t.book[c].fates);
    assert t.book[c].sent[..|t.book[c].fates|] == t.book[c].sent;
    OutsAppend(t.book[c].taken, t.Local(c));
  }

  // ---------------------------------------------------------------------------------------
  // Polling
  // ---------------------------------------------------------------------------------------

  /**
   A safe poll takes every token off the carriers whose probes fail and leaves the others and the
   sources alone. It closes the subchannel if and only if no copy is left and all that the
   machine has not been told of had leaked on those carriers.
   */
  lemma PollRecovers(w: World, c: SubChannelId, failing: set<SubChannelId>)
    requires Good(w) && CanPoll(w, c, failing) && Life.PollHarmless(w.View(c), failing)
    ensures var t := w.Poll(c, failing);
            && t.Shaped() && Good(t)
            && (forall v :: t.Machine(c).inFlight[v] == if v in failing then 0 else w.Machine(c).inFlight[v])
            && t.Machine(c).sources == w.Machine(c).sources
            && (t.Machine(c).maybe.None? <==>
                  && Life.Deserted(w.View(c)) && w.book[c].orphaned == {}
                  && forall v | v !in failing :: w.book[c].leaked[v] == w.book[c].waived[v])
  {
    var s, t := w.View(c), w.Poll(c, failing);
    PollGoodIff(w, c, failing);
    PollShaped(w, c, failing);
    PollSubject(w, c, failing);
    assert s.q == [] && t.View(c) == s.Poll(failing) && Life.Inv(s);
    PollClosesIff(s, failing);
  }

  lemma PollClosesIff(s: Life.Sub, failing: set<SubChannelId>)
    requires Life.Inv(s) && s.q == [] && Life.PollHarmless(s, failing)
    ensures var m := s.Poll(failing).m;
            && (forall v :: m.inFlight[v] == if v in failing then 0 else s.m.inFlight[v]) && m.sources == s.m.sources
            && (m.maybe.None? <==> Life.Deserted(s) && s.orphaned == {}
                                   && forall v | v !in failing :: s.leaked[v] == s.waived[v])
  {
    var t := s.Poll(failing);
    Life.PolledMachine(s.m, failing);
    Life.PollKeepsInvIff(s, failing);
    Life.ClosedIffDeserted(t);
    forall v ensures t.m.inFlight[v] == if v in failing then 0 else s.m.inFlight[v] {
      Life.PurgeAt(s.m.inFlight, failing, v);
    }
    if Life.Deserted(s) {
      AccountedIff(s, t, failing);
    }
    hide Life.Inv, Machine.Poll, Purge, Life.On, Life.Accounted;
  }

  lemma AccountedIff(s: Life.Sub, t: Life.Sub, failing: set<SubChannelId>)
    requires s.announced == multiset{} && t == s.Poll(failing)
    ensures Life.Accounted(t) <==> s.orphaned == {} && forall v | v !in failing :: s.leaked[v] == s.waived[v]
  {
    assert t.leaked == Life.Settled(s, failing).leaked && t.waived == Life.Settled(s, failing).waived;
    assert t.orphaned == s.orphaned;
    hide Machine.Poll, Life.Settled, Life.Sub.Poll;
    forall v
      ensures t.leaked[v] == if v in failing then 0 else s.leaked[v]
      ensures t.waived[v] == if v in failing then 0 else s.waived[v]
    {
      Life.SettledAt(s, failing, v);
    }
    assert t.leaked == t.waived <==> forall v :: t.leaked[v] == t.waived[v];
  }

  // ---------------------------------------------------------------------------------------
  // Conservation
  // ---------------------------------------------------------------------------------------

  /** Copies of `c` on carrier `v`: announced, inside queued messages, and inside demultiplexed ones. */
  ghost function Carried(w: World, v: SubChannelId, c: SubChannelId): nat
    requires w.Shaped() && v in w.home && c in w.home
  {
    w.book[c].announced[v] + Count(QueuedCargo(w.queue[w.home[v]], v), c) + Count(LocalCargo(w.Local(v)), c)
  }

  /**
   In every run, the machine, once it has handled the queue, accounts for every copy being carried
   and for the leaked ones, and for nothing besides. Every queued note is expected when its turn
   comes.
   */
  lemma InFlightConservation(w: World, events: seq<Event>, t: World, c: SubChannelId, v: SubChannelId)
    requires Reaches(w, events, t) && t.Shaped()
    requires c in t.home && t.home[c] !in t.dead && v in t.home && t.home[v] !in t.dead
    ensures t.View(c).Final().inFlight[v] + t.book[c].waived[v] == Carried(t, v, c) + t.book[c].leaked[v]
    ensures t.book[c].waived[v] <= t.book[c].leaked[v]
    ensures Life.Timely(t.Machine(c), Notes(t.queue[t.home[c]], c))
  {
    StartGood(w);
    RunGood(w, events);
    TokensCarried(t, c, v);
  }

  lemma TokensCarried(t: World, c: SubChannelId, v: SubChannelId)
    requires Good(t) && c in t.home && t.home[c] !in t.dead && v in t.home && t.home[v] !in t.dead
    ensures t.View(c).Final().inFlight[v] + t.book[c].waived[v] == Carried(t, v, c) + t.book[c].leaked[v]
    ensures t.book[c].waived[v] <= t.book[c].leaked[v]
    ensures Life.Timely(t.Machine(c), Notes(t.queue[t.home[c]], c))
  {
    assert CoupledAt(t, v, c);
    assert Life.Covered(t.View(c), t.View(c).Final());
    assert t.View(c).Aboard(v) == Carried(t, v, c);
  }

  /** What `Timely` says of one note: the machine that will handle it expects it. */
  lemma {:induction false} TimelyAt(m: Life.SM, q: seq<Life.Note>, i: nat)
    requires Life.Timely(m, q) && i < |q|
    ensures Life.Expected(Life.Replay(m, q[..i]), q[i])
    decreases i
  {
    if i > 0 {
      TimelyAt(Life.MStep(m, q[0]), q[1..], i - 1);
      assert q[..i][0] == q[0] && q[..i][1..] == q[1..][..i - 1] && q[1..][i - 1] == q[i];
    }
  }

  // ---------------------------------------------------------------------------------------
  // Identity
  // ---------------------------------------------------------------------------------------

  /** A copy of `c` inside some message, queued or demultiplexed, refers to channel `ch`. */
  ghost predicate Refers(w: World, c: SubChannelId, ch: Chan)
    requires w.Shaped()
  {
    || (exists x :: (c, x, ch) in w.ends)
    || (exists h, i, j :: h in w.queue && 0 <= i < |w.queue[h]| && w.queue[h][i].Data?
                        && 0 <= j < |w.queue[h][i].senders| && w.queue[h][i].senders[j] == Embed(c, ch))
    || (exists v, i, j :: v in w.home && 0 <= i < |w.Local(v)| && w.Local(v)[i].Resolved?
                        && 0 <= j < |w.Local(v)[i].senders| && w.Local(v)[i].senders[j] == Embed(c, ch))
  }

  lemma {:induction false} HomeNeverChanges(w: World, events: seq<Event>)
    requires Good(w) && IsRun(w, events)
    ensures After(w, events).home == w.home
    decreases |events|
  {
    if events != [] {
      NextGoodIff(w, events[0]);
      NextHome(w, events[0]);
      HomeNeverChanges(Next(w, events[0]), events[1..]);
    }
  }

  /**
   However often a subsender is forwarded, every copy of it, held or under way, refers to the
   channel on which its subchannel was created, and its messages arrive nowhere else.
   */
  lemma ForwardingKeepsIdentity(w: World, events: seq<Event>, t: World, c: SubChannelId, ch: Chan)
    requires Reaches(w, events, t)
    ensures t.Shaped()
    ensures Refers(t, c, ch) ==> c in w.home && ch == w.home[c]
    ensures forall v, i | v in t.home && 0 <= i < |t.Local(v)| :: t.Local(v)[i].scid == v
  {
    StartGood(w);
    RunGood(w, events);
    HomeNeverChanges(w, events);
    ReferencesLeadHome(t, c, ch);
  }

  lemma ReferencesLeadHome(t: World, c: SubChannelId, ch: Chan)
    requires Good(t)
    ensures Refers(t, c, ch) ==> c in t.home && ch == t.home[c]
    ensures forall v, i | v in t.home && 0 <= i < |t.Local(v)| :: t.Local(v)[i].scid == v
  {
    hide Alive, Coupled, CoupledAt, Life.Inv;
    forall v | v in t.home ensures TablesOk(t.home, t.demux, v) {
    }
    forall v, i | v in t.home && 0 <= i < |t.Local(v)| ensures ItemOk(t.home, v, t.Local(v)[i]) {
      assert TablesOk(t.home, t.demux, v);
    }
    forall h, i, j | h in t.queue && 0 <= i < |t.queue[h]| && t.queue[h][i].Data? && 0 <= j < |t.queue[h][i].senders|
      ensures EmbedOk(t.home, t.queue[h][i].senders[j])
    {
      assert MsgOk(t.home, h, t.queue[h][i]);
    }
    forall v, i, j | v in t.home && 0 <= i < |t.Local(v)| && t.Local(v)[i].Resolved? && 0 <= j < |t.Local(v)[i].senders|
      ensures EmbedOk(t.home, t.Local(v)[i].senders[j])
    {
      assert ItemOk(t.home, v, t.Local(v)[i]);
    }
  }
}
