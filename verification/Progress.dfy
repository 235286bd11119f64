/**
 Handling messages gets somewhere: queues can be emptied, and a subchannel without subsenders
 gets closed.
 */
module Progress {
  import opened Basics
  import opened Protocol
  import opened SubchannelLifecycle
  import Demux
  import Life = Subchannel
  import opened System
  import opened Copies
  import opened Delivery
  import opened Runs
  import opened Histories
  import opened Guarantees

  // ---------------------------------------------------------------------------------------
  // Handling a queue empties it
  // ---------------------------------------------------------------------------------------

  /** A message, and a `Disconnect` for each subsender in it that may have to be sent. */
  function Weight(msg: Msg): nat {
    1 + if msg.Data? then |msg.senders| else 0
  }

  function Load(queue: seq<Msg>): nat {
    if queue == [] then 0 else Weight(queue[0]) + Load(queue[1..])
  }

  lemma {:induction false} LoadAppend(queue: seq<Msg>, msg: Msg)
    ensures Load(queue + [msg]) == Load(queue) + Weight(msg)
  {
    if queue == [] {
      assert [msg][1..] == [];
    } else {
      assert (queue + [msg])[1..] == queue[1..] + [msg];
      LoadAppend(queue[1..], msg);
    }
  }

  lemma UntrackLoad(w: World, c: SubChannelId, x: Source, ch: Chan, h: Chan)
    requires w.Shaped() && c in w.home && ch in w.queue && h in w.queue
    ensures Load(w.Untrack(c, x, ch).queue[h]) <= Load(w.queue[h]) + 1
  {
    LoadAppend(w.queue[ch], Disconnect(c, x));
    hide World.View;
  }

  lemma ReleaseOneLoad(w: World, e: Embed<Chan>, via: SubChannelId, h: Chan)
    requires w.CanMeet(e, via) && h in w.queue
    ensures Load(w.Meet(Release, e, via).queue[h]) <= Load(w.queue[h]) + 1
  {
    var x := Receiver(w.home[via]);
    var t := w.SetBook(e.scid, w.book[e.scid].Fare(Release, via, x));
    LoadAppend(w.queue[e.sender], Disconnect(e.scid, x));
    assert w.Meet(Release, e, via) == t.Untrack(e.scid, x, e.sender) && t.queue == w.queue;
    UntrackLoad(t, e.scid, x, e.sender, h);
    hide World.Meet, World.Untrack;
  }

  lemma {:induction false} ReleaseLoad(w: World, senders: seq<Embed<Chan>>, via: SubChannelId, h: Chan)
    requires w.CanMeetAll(senders, via) && h in w.queue
    ensures Load(w.MeetAll(Release, senders, via).queue[h]) <= Load(w.queue[h]) + |senders|
    decreases |senders|
  {
    hide World.Meet, World.Shaped;
    if senders != [] {
      ReleaseOneLoad(w, senders[0], via, h);
      var t := w.Meet(Release, senders[0], via);
      assert t.CanMeetAll(senders[1..], via);
      ReleaseLoad(t, senders[1..], via, h);
    }
  }

  lemma {:induction false} MeetAllApart(w: World, fate: Fate, senders: seq<Embed<Chan>>, via: SubChannelId,
                                        c: SubChannelId)
    requires w.CanMeetAll(senders, via) && c in w.book && Count(senders, c) == 0
    ensures c in w.MeetAll(fate, senders, via).book && w.MeetAll(fate, senders, via).book[c] == w.book[c]
    decreases |senders|
  {
    hide World.Meet, World.Shaped;
    if senders != [] {
      var t := w.Meet(fate, senders[0], via);
      assert t.CanMeetAll(senders[1..], via);
      MeetAllApart(t, fate, senders[1..], via, c);
    }
  }

  /** Handling a message takes something off its queue, even if it makes others be sent. */
  lemma DeliverShrinks(w: World, h: Chan)
    requires Good(w) && w.CanDeliver(h)
    ensures h in Delivery.Deliver(w, h, None).queue && Load(Delivery.Deliver(w, h, None).queue[h]) < Load(w.queue[h])
  {
    hide Base, Alive, Coupled, World.MeetAll;
    if w.queue[h][0].Data? {
      DeliverReady(w, h);
      HeadProvided(w, h);
      var p := Arrived(w, h).Popped(h);
      assert p.queue == w.queue[h := w.queue[h][1..]];
      hide Arrived, World.Popped;
      ReleaseLoad(p, w.queue[h][0].senders, w.queue[h][0].scid, h);
    }
  }

  // ---------------------------------------------------------------------------------------
  // Detection
  // ---------------------------------------------------------------------------------------

  /** Every reference in the messages is resolved. */
  ghost predicate Delivers(events: seq<Event>, h: Chan) {
    forall i | 0 <= i < |events| :: events[i] == Deliver(h, None)
  }

  /** Nobody has a copy of `c`, its machine has been told of all that became of them, and its receiver is there. */
  ghost predicate Over(w: World, c: SubChannelId) {
    && w.Shaped() && c in w.home && w.home[c] !in w.dead && !w.Gone(c)
    && Life.Deserted(w.View(c)) && Life.Accounted(w.View(c))
  }

  /** `b'` is `b` after more messages have got through. */
  ghost predicate GotThrough(b: Book, b': Book) {
    && b' == b.(fates := b'.fates) && b.fates <= b'.fates
    && forall i | |b.fates| <= i < |b'.fates| :: b'.fates[i]
  }

  /** `t` is `w` with less to be handled, as far as `c` is concerned. */
  ghost predicate Onward(w: World, t: World, c: SubChannelId) {
    && Over(t, c) && t.home == w.home && t.dead == w.dead
    && c in w.home && w.home[c] in w.queue && Load(t.queue[t.home[c]]) < Load(w.queue[w.home[c]])
    && c in w.book && GotThrough(w.book[c], t.book[c])
  }

  lemma DeliverOver(w: World, h: Chan, c: SubChannelId)
    requires Good(w) && w.CanDeliver(h) && Over(w, c) && w.home[c] == h
    ensures Good(Next(w, Deliver(h, None))) && Onward(w, Next(w, Deliver(h, None)), c)
  {
    var e := Event.Deliver(h, None);
    assert Enabled(w, e) && Safe(w, e) && Next(w, e) == Delivery.Deliver(w, h, None);
    hide Base, Alive, Coupled, Over, StaysHome, GotThrough, Onward, Delivery.Deliver, Enabled, Safe, Next;
    OverFacts(w, c);
    NextGoodIff(w, e);
    NextHome(w, e);
    DeliverShrinks(w, h);
    DeliverApart(w, h, c);
    StaysOver(w, Next(w, e), e, c);
  }

  lemma OverFacts(w: World, c: SubChannelId)
    requires Over(w, c)
    ensures c in w.book && c in w.home && !w.Gone(c) && Life.Deserted(w.View(c))
  {
  }

  lemma StaysOver(w: World, t: World, e: Event, c: SubChannelId)
    requires Over(w, c) && t.Shaped() && StaysHome(w, e, t) && e.Deliver? && c in w.book && c in t.book
    requires GotThrough(w.book[c], t.book[c]) && w.home[c] in t.queue
    requires Load(t.queue[w.home[c]]) < Load(w.queue[w.home[c]])
    ensures Onward(w, t, c)
  {
  }

  /** No copy of a deserted subchannel is inside a message. */
  lemma DeliverApart(w: World, h: Chan, c: SubChannelId)
    requires Good(w) && w.CanDeliver(h) && c in w.home && c in w.book && Life.Deserted(w.View(c)) && !w.Gone(c)
    ensures c in Delivery.Deliver(w, h, None).book && GotThrough(w.book[c], Delivery.Deliver(w, h, None).book[c])
  {
    if w.queue[h][0].Data? {
      DataApart(w, h, c);
    }
    hide World.Handled;
  }

  lemma NoneInside(w: World, h: Chan, c: SubChannelId)
    requires Good(w) && w.CanDeliver(h) && w.queue[h][0].Data? && c in w.home && Life.Deserted(w.View(c))
    ensures Count(w.queue[h][0].senders, c) == 0
  {
    HeadProvided(w, h);
    var msg := w.queue[h][0];
    assert c in w.book && Count(msg.senders, c) <= Room(Arrive, w.book[c], msg.scid, Receiver(h)) == 0;
  }

  lemma PoppedThrough(w: World, a: World, h: Chan, c: SubChannelId)
    requires w.Shaped() && w.CanDeliver(h) && w.queue[h][0].Data? && c in w.home && !w.Gone(c)
    requires w.queue[h][0].scid in w.home && w.Machine(w.queue[h][0].scid).maybe.Some?
    requires a == w.(book := a.book) && a.Shaped() && c in w.book && c in a.book && a.book[c] == w.book[c]
    ensures a.CanDeliver(h) && c in a.Popped(h).book && GotThrough(w.book[c], a.Popped(h).book[c])
  {
    hide World.Handled;
  }

  lemma DataApart(w: World, h: Chan, c: SubChannelId)
    requires Good(w) && w.CanDeliver(h) && w.queue[h][0].Data?
    requires c in w.home && c in w.book && Life.Deserted(w.View(c)) && !w.Gone(c)
    ensures c in DeliverData(w, h).book && GotThrough(w.book[c], DeliverData(w, h).book[c])
  {
    var msg := w.queue[h][0];
    NoneInside(w, h, c);
    hide Alive, Coupled, Base, Life.Deserted, World.CanMeetAll, Count;
    HeadProvided(w, h);
    MeetAllApart(w, Arrive, msg.senders, msg.scid, c);
    OnlyGoneDrops(w, h);
    DeliverReady(w, h);
    PoppedThrough(w, Arrived(w, h), h, c);
    hide Arrived, World.Popped, GotThrough;
    MeetAllApart(Arrived(w, h).Popped(h), Release, msg.senders, msg.scid, c);
  }

  lemma DeliverEnabled(w: World, c: SubChannelId)
    requires Good(w) && Over(w, c) && w.queue[w.home[c]] != []
    ensures w.CanDeliver(w.home[c]) && Enabled(w, Deliver(w.home[c], None)) && Safe(w, Deliver(w.home[c], None))
    ensures Next(w, Deliver(w.home[c], None)) == Delivery.Deliver(w, w.home[c], None)
  {
  }

  /** `t` is `w` with the queue of `c` handled, as far as `c` is concerned. */
  ghost predicate Settled(w: World, t: World, c: SubChannelId) {
    && Over(t, c) && t.home == w.home && t.dead == w.dead
    && c in w.book && GotThrough(w.book[c], t.book[c]) && t.queue[t.home[c]] == []
  }

  lemma SettledTwice(w: World, u: World, t: World, c: SubChannelId)
    requires Onward(w, u, c) && Settled(u, t, c)
    ensures Settled(w, t, c)
  {
  }

  lemma SettledAtOnce(w: World, c: SubChannelId)
    requires Good(w) && Over(w, c)
    ensures c in w.home && w.home[c] in w.queue
    ensures w.queue[w.home[c]] == [] ==> Settled(w, w, c) && IsRun(w, []) && After(w, []) == w
  {
    hide Base, Coupled, Alive;
  }

  lemma RunOfOne(w: World, e: Event)
    requires Good(w) && Enabled(w, e) && Safe(w, e)
    ensures IsRun(w, [e]) && After(w, [e]) == Next(w, e)
  {
    hide Enabled, Next, Safe, Good;
    NextGoodIff(w, e);
    assert [e][1..] == [];
  }

  lemma RunGoesOn(w: World, e: Event, more: seq<Event>)
    requires Good(w) && Enabled(w, e) && Safe(w, e) && Good(Next(w, e)) && IsRun(Next(w, e), more)
    ensures IsRun(w, [e] + more) && After(w, [e] + more) == After(Next(w, e), more)
  {
    hide Enabled, Next, Safe, Good;
    assert ([e] + more)[1..] == more;
  }

  lemma OnwardFacts(w: World, t: World, c: SubChannelId)
    requires Onward(w, t, c)
    ensures Over(t, c) && c in t.home && t.home == w.home && t.home[c] in t.queue && t.home[c] in w.queue
    ensures Load(t.queue[t.home[c]]) < Load(w.queue[w.home[c]])
  {
  }

  /** The queue of `c` can be emptied, and that does nothing to what is known about `c`. */
  lemma {:induction false} QueueDrains(w: World, c: SubChannelId) returns (events: seq<Event>)
    requires Good(w) && Over(w, c)
    ensures c in w.home && Delivers(events, w.home[c]) && IsRun(w, events)
    ensures Good(After(w, events)) && Settled(w, After(w, events), c)
    decreases Load(w.queue[w.home[c]])
  {
    hide Good, World.Shaped, Over, Settled, Onward, Next, Enabled, Safe, IsRun, After;
    SettledAtOnce(w, c);
    var h := w.home[c];
    if w.queue[h] == [] {
      events := [];
    } else {
      DeliverEnabled(w, c);
      DeliverOver(w, h, c);
      OnwardFacts(w, Next(w, Deliver(h, None)), c);
      var rest := QueueDrains(Next(w, Deliver(h, None)), c);
      RunGoesOn(w, Deliver(h, None), rest);
      SettledTwice(w, Next(w, Deliver(h, None)), After(Next(w, Deliver(h, None)), rest), c);
      events := [Deliver(h, None)] + rest;
    }
  }

  /** In `u`, `c` is closed, and its receiver has taken or finds what was sent and not lost by `t`, and one marker. */
  ghost predicate ClosedAfter(t: World, u: World, c: SubChannelId) {
    && u.Shaped() && c in u.home && c in t.book && !u.Gone(c) && u.Machine(c).maybe.None?
    && GotThrough(t.book[c], u.book[c]) && |u.book[c].fates| == |u.book[c].sent|
    && Outs(u.book[c].taken + u.Local(c)) == Life.Letters(Undamaged(u.book[c])) + [Life.Closed]
  }

  lemma SettledIsClosed(t: World, u: World, c: SubChannelId)
    requires Good(u) && Settled(t, u, c)
    ensures ClosedAfter(t, u, c)
  {
    hide Base, Coupled, Alive;
    assert Notes(u.queue[u.home[c]], c) == [];
    ClosedExactly(u, c);
  }

  /**
   In every run, once no copy of a subchannel is left and its machine has been told of all that
   became of them, handling what is queued on its channel closes it, and its receiver has taken
   or finds every message that had not been lost by then, and the marker.
   */
  lemma DetectionIsReached(w: World, events: seq<Event>, t: World, c: SubChannelId) returns (more: seq<Event>)
    requires Reaches(w, events, t) && Over(t, c)
    ensures Good(t) && c in t.home && IsRun(t, more) && Delivers(more, t.home[c])
    ensures ClosedAfter(t, After(t, more), c)
  {
    hide Base, Coupled, Alive, Life.Deserted, Settled, ClosedAfter, Over;
    StartGood(w);
    RunGood(w, events);
    more := QueueDrains(t, c);
    SettledIsClosed(t, After(t, more), c);
  }

  // ---------------------------------------------------------------------------------------
  // Where runs start
  // ---------------------------------------------------------------------------------------

  const FirstBook: Book :=
    Book(multiset{Origin}, multiset{}, multiset{}, multiset{}, multiset{}, multiset{}, multiset{}, multiset{}, {},
         [], [], [], [], {})

  /** The demultiplexer of a channel on which the given subchannels have just been created. */
  ghost function CreatedAt(home: Homes, ch: Chan): Demux.Tables<Chan> {
    Demux.Tables(map c | c in HomedAt(home, ch) :: Initial(c, Origin), map c | c in HomedAt(home, ch) :: [], {})
  }

  ghost function Created(home: Homes): World {
    World(home, map ch | ch in home.Values :: [], map ch | ch in home.Values :: CreatedAt(home, ch), {},
          map c | c in home :: FirstBook, set c | c in home :: (c, Origin, home[c]), 0)
  }

  lemma CreatedFits(home: Homes)
    requires EMPTY_SUBCHANNEL_ID !in home
    ensures Created(home).Shaped()
  {
    var w := Created(home);
    forall c | c in home
      ensures home[c] in w.demux && w.demux[home[c]] == CreatedAt(home, home[c]) && c in HomedAt(home, home[c])
    {
      assert home[c] in home.Values;
    }
    assert w.queue.Keys == w.demux.Keys;
  }

  /** Runs can start with any subchannels on any channels. */
  lemma CreatedIsStart(home: Homes)
    requires EMPTY_SUBCHANNEL_ID !in home
    ensures Start(Created(home)) && Created(home).home == home
  {
    hide World.View, World.Machine, World.Local, World.Gone, Life.Fresh, CreatedAt;
    var w := Created(home);
    CreatedFits(home);
    forall c | c in home ensures w.Local(c) == [] && w.book[c] == FirstBook && !w.Gone(c) && Life.Fresh(w.View(c)) {
      CreatedLife(home, c);
    }
    hide World.Shaped;
  }

  lemma CreatedLife(home: Homes, c: SubChannelId)
    requires EMPTY_SUBCHANNEL_ID !in home && c in home && Created(home).Shaped()
    ensures var w := Created(home);
            w.Local(c) == [] && w.book[c] == FirstBook && !w.Gone(c) && Life.Fresh(w.View(c))
  {
    var w := Created(home);
    assert c in HomedAt(home, home[c]);
    assert home[c] in home.Values && w.demux[home[c]] == CreatedAt(home, home[c]);
    assert w.Machine(c) == Initial(c, Origin) && w.Local(c) == [] && !w.Gone(c);
    assert w.queue[home[c]] == [] && w.book[c] == FirstBook;
    hide World.Shaped, HomedAt, CreatedAt, World.Gone, World.Machine, World.Local;
    assert w.DownVias() == {} && Outs(w.book[c].taken + w.Local(c)) == [];
    assert Notes(w.queue[home[c]], c) == [];
  }

  lemma DropFrame(w: World, c: SubChannelId, x: Source, ch: Chan)
    requires w.Shaped() && w.Spare(c, x, ch) && w.book[c].orphaned == {} && w.book[c].told == {}
    ensures var t := w.Drop(c, x, ch);
            && t.home == w.home && t.dead == w.dead && t.demux == w.demux && t.Shaped()
            && t.book == w.book[c := w.book[c].(live := w.book[c].live - multiset{x})]
  {
    assert w.book[c].orphaned - {x} == {};
    hide World.View;
  }

  lemma StartSpare(w: World, c: SubChannelId)
    requires Start(w) && c in w.home
    ensures w.Spare(c, Origin, w.home[c]) && Life.Fresh(w.View(c)) && w.dead == {}
    ensures w.book[c].orphaned == {} && w.book[c].told == {}
  {
    hide Initial;
  }

  lemma FirstDrop(w: World, c: SubChannelId)
    requires Start(w) && c in w.home
    ensures Good(w) && Enabled(w, Drop(c, Origin, w.home[c]))
    ensures var t := Next(w, Drop(c, Origin, w.home[c])); Over(t, c) && c in t.book && t.book[c].sent == []
  {
    StartGood(w);
    StartSpare(w, c);
    hide Start, Good, World.Drop, World.Shaped, World.Spare, World.View, Life.Fresh, Over;
    DropFrame(w, c, Origin, w.home[c]);
    FirstOver(w, w.Drop(c, Origin, w.home[c]), c);
  }

  lemma FirstOver(w: World, t: World, c: SubChannelId)
    requires w.Shaped() && c in w.home && Life.Fresh(w.View(c))
    requires t.home == w.home && t.demux == w.demux && t.Shaped() && t.dead == {}
    requires t.book == w.book[c := w.book[c].(live := w.book[c].live - multiset{Origin})]
    ensures Over(t, c) && c in t.book && t.book[c].sent == []
  {
  }

  /** A receiver that has been sent nothing finds the marker, or has taken it. */
  lemma OnlyMarker(u: World, t: World, c: SubChannelId)
    requires c in u.book && u.book[c].sent == [] && ClosedAfter(u, t, c)
    ensures t.Shaped() && c in t.home && !t.Gone(c) && ReportsDisconnected(t, c)
  {
    var items := t.book[c].taken + t.Local(c);
    assert Undamaged(t.book[c]) == [];
    assert Life.Letters([]) + [Life.Closed] == [Life.Closed];
    if t.Local(c) != [] {
      assert |Outs(items)| == 1 && t.book[c].taken == [] && items[0] == t.Local(c)[0];
      assert Outs(items)[0] == OutOf(items[0]);
    }
  }

  /** In particular, when the one subsender of a new subchannel is dropped, that is noticed. */
  lemma DropIsNoticed(w: World, c: SubChannelId) returns (events: seq<Event>, t: World)
    requires Start(w) && c in w.home
    ensures Reaches(w, events, t) && t.Shaped() && c in t.home && !t.Gone(c) && ReportsDisconnected(t, c)
  {
    hide Start, Base, Coupled, Alive, Over, Next, Enabled, ClosedAfter, Delivers;
    var drop := Drop(c, Origin, w.home[c]);
    FirstDrop(w, c);
    RunOfOne(w, drop);
    var u := Next(w, drop);
    assert Reaches(w, [drop], u);
    var more := DetectionIsReached(w, [drop], u, c);
    RunGoesOn(w, drop, more);
    events, t := [drop] + more, After(u, more);
    OnlyMarker(u, t, c);
  }
}
