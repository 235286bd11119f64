/**
 What each event does to the copies of a subchannel that are held somewhere, to what was sent to
 it, and to the transports in progress.
 */
module Ledger {
  import opened Protocol
  import opened SubchannelLifecycle
  import Demux
  import Life = Subchannel
  import opened System
  import opened Delivery
  import opened Runs
  import opened Histories

  /** Copies of `c` at source `y` that an event brings. */
  ghost function Come(w: World, e: Event, c: SubChannelId, y: Source): nat
    requires e.Recv? ==> w.CanRecv(e.c)
  {
    match e
    case Clone(a, x, _) => if a == c && x == y then 1 else 0
    case EndTransport(a, n) => if a == c && y == Transport(n) then 1 else 0
    case Recv(v, fault) => if fault.None? && y == Receiver(w.home[v]) then Count(ItemCargo(w.Local(v)[0]), c) else 0
    case _ => 0
  }

  /** Copies of `c` at source `y` that an event takes. */
  ghost function Go(e: Event, c: SubChannelId, y: Source): nat {
    match e
    case Drop(a, x, _) => if a == c && x == y then 1 else 0
    case Vanish(a, x, _) => if a == c && x == y then 1 else 0
    case BeginTransport(a, x, _) => if a == c && x == y then 1 else 0
    case _ => 0
  }

  /** What an event sends to `c`. */
  function SentTo(e: Event, c: SubChannelId): seq<Payload> {
    if e.Transmit? && e.via == c then [e.payload] else []
  }

  /** The transports of `c` in progress after an event. */
  function Carrying(carried: multiset<nat>, minted: nat, e: Event, c: SubChannelId): multiset<nat> {
    match e
    case BeginTransport(a, _, _) => if a == c then carried + multiset{minted} else carried
    case EndTransport(a, n) => if a == c then carried - multiset{n} else carried
    case LoseTransport(a, n) => if a == c then carried - multiset{n} else carried
    case _ => carried
  }

  /** Nothing of this has changed. */
  predicate Same(b: Book, b': Book) {
    b'.live == b.live && b'.sent == b.sent && b'.carried == b.carried
  }

  /** Nothing of this has changed, but for copies at one source. */
  ghost predicate SameBut(b: Book, b': Book, x: Source) {
    b'.sent == b.sent && b'.carried == b.carried && forall y | y != x :: b'.live[y] == b.live[y]
  }

  // ---------------------------------------------------------------------------------------
  // Copies on their way out of a message
  // ---------------------------------------------------------------------------------------

  predicate Silent(fate: Fate) {
    !fate.Accept? && !fate.Shed?
  }

  lemma FareSame(b: Book, fate: Fate, via: SubChannelId, x: Source, orphaned: set<Source>)
    ensures SameBut(b, b.Fare(fate, via, x).(orphaned := orphaned), x)
    ensures Silent(fate) ==> Same(b, b.Fare(fate, via, x).(orphaned := orphaned))
    ensures fate.Shed? ==> b.Fare(fate, via, x).live == b.live - multiset{x}
  {
  }

  lemma MeetSame(w: World, fate: Fate, e: Embed<Chan>, via: SubChannelId, c: SubChannelId)
    requires w.CanMeet(e, via) && c in w.book
    ensures c in w.Meet(fate, e, via).book
    ensures SameBut(w.book[c], w.Meet(fate, e, via).book[c], Receiver(w.home[via]))
    ensures Silent(fate) ==> Same(w.book[c], w.Meet(fate, e, via).book[c])
    ensures fate.Shed? ==> w.Meet(fate, e, via).book[c].live
                           == w.book[c].live - if e.scid == c then multiset{Receiver(w.home[via])} else multiset{}
  {
    var t := w.Meet(fate, e, via);
    assert e.scid in w.book && e.scid in t.book;
    hide World.Meet, World.Shaped, Book.Fare;
    FareSame(w.book[e.scid], fate, via, Receiver(w.home[via]), t.book[e.scid].orphaned);
  }

  lemma {:induction false} MeetAllSame(w: World, fate: Fate, senders: seq<Embed<Chan>>, via: SubChannelId,
                                       c: SubChannelId)
    requires w.CanMeetAll(senders, via) && c in w.book && c in w.home
    ensures c in w.MeetAll(fate, senders, via).book
    ensures SameBut(w.book[c], w.MeetAll(fate, senders, via).book[c], Receiver(w.home[via]))
    ensures Silent(fate) ==> Same(w.book[c], w.MeetAll(fate, senders, via).book[c])
    decreases |senders|
  {
    hide World.Meet, World.Shaped;
    if senders != [] {
      MeetSame(w, fate, senders[0], via, c);
      var t := w.Meet(fate, senders[0], via);
      assert t.CanMeetAll(senders[1..], via);
      MeetAllSame(t, fate, senders[1..], via, c);
    }
  }

  /** As many copies go as there are, at most. */
  lemma {:induction false} ShedAll(w: World, senders: seq<Embed<Chan>>, via: SubChannelId, c: SubChannelId)
    requires w.CanMeetAll(senders, via) && c in w.book && c in w.home
    requires Count(senders, c) <= w.book[c].live[Receiver(w.home[via])]
    ensures c in w.MeetAll(Shed, senders, via).book
    ensures w.MeetAll(Shed, senders, via).book[c].live[Receiver(w.home[via])]
            == w.book[c].live[Receiver(w.home[via])] - Count(senders, c)
    decreases |senders|
  {
    hide World.Meet, World.Shaped;
    if senders != [] {
      MeetSame(w, Shed, senders[0], via, c);
      var t := w.Meet(Shed, senders[0], via);
      assert t.CanMeetAll(senders[1..], via);
      ShedAll(t, senders[1..], via, c);
    }
  }

  // ---------------------------------------------------------------------------------------
  // Receiving
  // ---------------------------------------------------------------------------------------

  lemma SameTwice(a: Book, b: Book, c: Book, x: Source)
    requires SameBut(a, b, x) && SameBut(b, c, x)
    ensures SameBut(a, c, x) && (c.live[x] == a.live[x] ==> Same(a, c))
  {
  }

  /** A message that cannot be rebuilt leaves no copy behind that is held. */
  lemma SpoilSame(t: World, cargo: seq<Embed<Chan>>, i: nat, v: SubChannelId, c: SubChannelId)
    requires t.CanMeetAll(cargo, v) && i <= |cargo| && c in t.home && c in t.book
    ensures c in Spoil(t, cargo, i, v).book && Same(t.book[c], Spoil(t, cargo, i, v).book[c])
  {
    hide World.MeetAll, Count, Same, SameBut;
    var first, rest, x := cargo[..i], cargo[i..], Receiver(t.home[v]);
    var a := t.MeetAll(Accept, first, v);
    var b := a.MeetAll(Shed, first, v);
    assert c in a.book && c in b.book;
    hide World.Shaped;
    AcceptedAll(t, first, v);
    ShedAll(a, first, v, c);
    MeetAllSame(t, Accept, first, v, c);
    MeetAllSame(a, Shed, first, v, c);
    MeetAllSame(b, Release, rest, v, c);
    SameTwice(t.book[c], a.book[c], b.book[c], x);
    SameAgain(t.book[c], b.book[c], Spoil(t, cargo, i, v).book[c]);
  }

  lemma SameAgain(a: Book, b: Book, c: Book)
    requires Same(a, b) && Same(b, c)
    ensures Same(a, c)
  {
  }

  lemma TakeSame(w: World, v: SubChannelId, n: nat, give: bool, hangUp: bool, c: SubChannelId)
    requires w.Shaped() && v in w.home && n <= |w.Local(v)| && c in w.book
    ensures var t := w.Take(v, n, give, hangUp); t.home == w.home && c in t.book && Same(w.book[c], t.book[c])
  {
  }

  lemma WithdrawLedger(w: World, v: SubChannelId, n: nat, give: bool, hangUp: bool, fate: Fate, c: SubChannelId)
    requires Base(w) && v in w.home && n <= |w.Local(v)| && c in w.home && c in w.book && Late(fate)
    ensures var t, x := Withdraw(w, v, n, give, hangUp, fate), Receiver(w.home[v]);
            && c in t.book && SameBut(w.book[c], t.book[c], x)
            && t.book[c].live[x] == w.book[c].live[x]
                                    + if fate.Accept? then Count(LocalCargo(w.Local(v)[..n]), c) else 0
  {
    hide World.Take, World.MeetAll, LocalCargo, Count, EmbedsOk, TablesOk, Addressed, EndsOk;
    TakeReady(w, v, n, give, hangUp);
    TakeSame(w, v, n, give, hangUp, c);
    var t, cargo := w.Take(v, n, give, hangUp), LocalCargo(w.Local(v)[..n]);
    hide Base, World.Shaped;
    MeetAllSame(t, fate, cargo, v, c);
    if fate.Accept? {
      AcceptedAll(t, cargo, v);
    }
  }

  // ---------------------------------------------------------------------------------------
  // Handling messages
  // ---------------------------------------------------------------------------------------

  lemma PoppedSame(a: World, h: Chan, c: SubChannelId)
    requires a.CanDeliver(h) && c in a.book
    ensures c in a.Popped(h).book && Same(a.book[c], a.Popped(h).book[c]) && a.Popped(h).home == a.home
  {
    hide World.Handled;
  }

  lemma LostSame(a: World, h: Chan, c: SubChannelId)
    requires a.CanDeliver(h) && a.queue[h][0].Data? && a.queue[h][0].scid in a.book && c in a.book
    ensures c in a.Lost(h).book && Same(a.book[c], a.Lost(h).book[c]) && a.Lost(h).home == a.home
  {
  }

  lemma WaivedSame(w: World, h: Chan, c: SubChannelId)
    requires w.CanDeliver(h) && w.queue[h][0].Sending? && w.queue[h][0].scid in w.book && c in w.book
    ensures c in w.Waived(h).book && Same(w.book[c], w.Waived(h).book[c])
  {
    hide Demux.Refused;
  }

  lemma DeliverDataSame(w: World, h: Chan, c: SubChannelId)
    requires Good(w) && w.CanDeliver(h) && w.queue[h][0].Data? && c in w.home && c in w.book
    ensures c in DeliverData(w, h).book && Same(w.book[c], DeliverData(w, h).book[c])
  {
    hide Base, Coupled, Alive, Same, World.MeetAll, World.Popped, World.Handled;
    HeadProvided(w, h);
    var msg, a := w.queue[h][0], Arrived(w, h);
    MeetAllSame(w, Arrive, msg.senders, msg.scid, c);
    DeliverReady(w, h);
    hide Arrived;
    PoppedSame(a, h, c);
    SameAgain(w.book[c], a.book[c], a.Popped(h).book[c]);
    MeetAllSame(a.Popped(h), Release, msg.senders, msg.scid, c);
    if w.Handled(h).dropped != [] {
      SameAgain(w.book[c], a.Popped(h).book[c], DeliverData(w, h).book[c]);
    }
  }

  lemma ScatteredSame(w: World, h: Chan, i: nat, c: SubChannelId)
    requires Good(w) && w.CanDeliver(h) && w.queue[h][0].Data? && i <= |w.queue[h][0].senders| && c in w.home
    requires c in w.book
    ensures c in Scattered(w, h, i).book && Same(w.book[c], Scattered(w, h, i).book[c])
  {
    hide Base, Coupled, Alive, Same, World.MeetAll;
    var msg := w.queue[h][0];
    FirstProvided(w, h, i);
    OthersProvided(w, h, i);
    var t := FirstArrived(w, h, i);
    MeetAllSame(w, Arrive, msg.senders[..i], msg.scid, c);
    MeetAllSame(t, Strand, msg.senders[i..], msg.scid, c);
    SameAgain(w.book[c], t.book[c], Scattered(w, h, i).book[c]);
  }

  lemma LoseDataSame(w: World, h: Chan, i: nat, c: SubChannelId)
    requires Good(w) && w.CanDeliver(h) && w.queue[h][0].Data? && i < |w.queue[h][0].senders|
    requires c in w.home && c in w.book
    ensures c in LoseData(w, h, i).book && Same(w.book[c], LoseData(w, h, i).book[c])
  {
    hide Base, Coupled, Alive, Same, World.MeetAll, World.Lost, Scattered, World.Handled;
    var msg, a := w.queue[h][0], Scattered(w, h, i);
    ScatteredSame(w, h, i, c);
    LostReady(w, h, i);
    hide World.CanMeetAll;
    LostSame(a, h, c);
    SameAgain(w.book[c], a.book[c], a.Lost(h).book[c]);
    MeetAllSame(a.Lost(h), Release, msg.senders[..i], msg.scid, c);
    SameAgain(w.book[c], a.Lost(h).book[c], LoseData(w, h, i).book[c]);
  }

  lemma DeliverSame(w: World, h: Chan, fault: Fault, c: SubChannelId)
    requires Good(w) && w.CanDeliver(h) && CanFail(w.queue[h][0], fault) && c in w.home && c in w.book
    ensures var t := Delivery.Deliver(w, h, fault); c in t.book && Same(w.book[c], t.book[c])
  {
    hide Base, Coupled, Alive, Same, DeliverData, LoseData;
    if !w.queue[h][0].Data? {
      if fault.None? {
        PoppedSame(w, h, c);
      } else {
        WaivedShaped(w, h);
        WaivedSame(w, h, c);
      }
    } else if fault.None? {
      DeliverDataSame(w, h, c);
    } else {
      LoseDataSame(w, h, fault.value, c);
    }
  }

  // ---------------------------------------------------------------------------------------
  // Every event
  // ---------------------------------------------------------------------------------------

  /** The ledger of `c` after an event says what it brought and took. */
  ghost predicate Entered(w: World, e: Event, c: SubChannelId, b': Book)
    requires (e.Recv? ==> w.CanRecv(e.c)) && c in w.book
  {
    && (forall y :: b'.live[y] + Go(e, c, y) == w.book[c].live[y] + Come(w, e, c, y))
    && b'.sent == w.book[c].sent + SentTo(e, c)
    && b'.carried == Carrying(w.book[c].carried, w.minted, e, c)
  }

  lemma SameEntered(w: World, e: Event, c: SubChannelId, b': Book)
    requires (e.Recv? ==> w.CanRecv(e.c)) && c in w.book && Same(w.book[c], b')
    requires e.Learn? || e.Announce? || e.Abandon? || e.Deliver? || e.DropReceiver? || e.Poll? || e.Crash?
             || (e.Recv? && e.fault.Some?)
    ensures Entered(w, e, c, b')
  {
    assert w.book[c].sent + [] == w.book[c].sent;
  }

  lemma UntrackSame(w: World, a: SubChannelId, x: Source, ch: Chan, c: SubChannelId)
    requires w.Shaped() && a in w.home && ch in w.queue && c in w.book
    ensures c in w.Untrack(a, x, ch).book && Same(w.book[c], w.Untrack(a, x, ch).book[c])
  {
    hide World.View, World.Shaped;
  }

  lemma {:induction false} BoardAllSame(w: World, riders: seq<Rider>, via: SubChannelId, c: SubChannelId)
    requires w.CanBoardAll(riders, via) && c in w.book
    ensures c in w.BoardAll(riders, via).book && Same(w.book[c], w.BoardAll(riders, via).book[c])
    decreases |riders|
  {
    if riders != [] {
      BoardAllSame(w.Board(riders[0], via), riders[1..], via, c);
    }
  }

  lemma CrashSame(w: World, h: Chan, c: SubChannelId)
    requires w.Shaped() && h in w.queue && c in w.book
    ensures c in w.Crash(h).book && Same(w.book[c], w.Crash(h).book[c])
  {
    hide World.View, Life.Sub.GoDown;
  }

  lemma PollSame(w: World, a: SubChannelId, failing: set<SubChannelId>, c: SubChannelId)
    requires w.Shaped() && a in w.home && c in w.book
    ensures c in w.Poll(a, failing).book && Same(w.book[c], w.Poll(a, failing).book[c])
  {
    hide World.View, Life.Sub.Poll, Machine.Poll, World.Shaped;
  }

  lemma RecvEntered(w: World, v: SubChannelId, fault: Fault, c: SubChannelId)
    requires Good(w) && w.CanRecv(v) && CanTake(w, v, fault) && c in w.home && c in w.book
    ensures c in Delivery.Recv(w, v, fault).book && Entered(w, Recv(v, fault), c, Delivery.Recv(w, v, fault).book[c])
  {
    hide Base, Coupled, Alive, LocalCargo, Withdraw, Spoil, World.Take, Same, Count;
    GoodShape(w);
    if fault.None? {
      WithdrawLedger(w, v, 1, true, false, Accept, c);
      HeadCargo(w, v);
      assert w.book[c].sent + [] == w.book[c].sent;
    } else {
      TakeReady(w, v, 1, false, false);
      TakeSame(w, v, 1, false, false, c);
      var t, cargo := w.Take(v, 1, false, false), LocalCargo(w.Local(v)[..1]);
      SpoilSame(t, cargo, fault.value, v, c);
      SameAgain(w.book[c], t.book[c], Delivery.Recv(w, v, fault).book[c]);
      SameEntered(w, Recv(v, fault), c, Delivery.Recv(w, v, fault).book[c]);
    }
    hide Entered;
  }

  /** Withdrawing all from a receiver that goes. */
  lemma DropReceiverSame(w: World, v: SubChannelId, c: SubChannelId)
    requires Base(w) && v in w.home && c in w.home && c in w.book
    ensures var t := Delivery.DropReceiver(w, v); c in t.book && Same(w.book[c], t.book[c])
  {
    hide Withdraw, LocalCargo, Count, TablesOk, Addressed, EndsOk;
    WithdrawLedger(w, v, |w.Local(v)|, false, true, Refuse, c);
    hide Base;
  }

  // One event at a time, on the books.

  /** The book of `a` is replaced: this is what it does to the book of `c`. */
  lemma SetBookLedger(w: World, a: SubChannelId, b: Book, c: SubChannelId)
    requires a in w.book && c in w.book
    ensures c in w.SetBook(a, b).book && w.SetBook(a, b).book[c] == if a == c then b else w.book[c]
  {
  }

  lemma DropLedger(w: World, a: SubChannelId, x: Source, ch: Chan, c: SubChannelId)
    requires w.Shaped() && w.Spare(a, x, ch) && c in w.book
    ensures var t := w.Drop(a, x, ch);
            && c in t.book && t.book[c].sent == w.book[c].sent && t.book[c].carried == w.book[c].carried
            && w.book[c].live == t.book[c].live + if a == c then multiset{x} else multiset{}
  {
    var b := w.book[a].(live := w.book[a].live - multiset{x});
    SetBookLedger(w, a, b, c);
    UntrackSame(w.SetBook(a, b), a, x, ch, c);
    hide World.Untrack, World.Shaped;
  }

  lemma VanishLedger(w: World, a: SubChannelId, x: Source, ch: Chan, c: SubChannelId)
    requires w.Shaped() && w.Spare(a, x, ch) && c in w.book
    ensures var t := w.Vanish(a, x);
            && c in t.book && t.book[c].sent == w.book[c].sent && t.book[c].carried == w.book[c].carried
            && w.book[c].live == t.book[c].live + if a == c then multiset{x} else multiset{}
  {
    hide World.View, World.Orphan;
  }

  lemma TransmitLedger(w: World, via: SubChannelId, ch: Chan, payload: Payload, riders: seq<Rider>, c: SubChannelId)
    requires w.CanBoardAll(riders, via) && via in w.book && ch in w.queue && c in w.book
    ensures var t := w.Transmit(via, ch, payload, riders);
            && c in t.book && t.book[c].live == w.book[c].live && t.book[c].carried == w.book[c].carried
            && t.book[c].sent == w.book[c].sent + if via == c then [payload] else []
  {
    BoardAllSame(w, riders, via, c);
    BoardAllSame(w, riders, via, via);
    hide World.BoardAll, World.CanBoardAll;
    assert w.book[c].sent + [] == w.book[c].sent;
  }

  lemma BeginTransportLedger(w: World, a: SubChannelId, x: Source, ch: Chan, c: SubChannelId)
    requires w.Shaped() && w.Spare(a, x, ch) && c in w.book
    ensures var t := w.BeginTransport(a, x, ch);
            && c in t.book && t.book[c].sent == w.book[c].sent
            && t.book[c].carried == (if a == c then w.book[c].carried + multiset{w.minted} else w.book[c].carried)
            && w.book[c].live == t.book[c].live + if a == c then multiset{x} else multiset{}
  {
    var carried := w.book[a].carried + multiset{w.minted};
    var told := w.Mint(a, ch).SetBook(a, w.book[a].(carried := carried)).Enqueue(ch, SendingViaIpcChannel(a, w.minted));
    var b := w.book[a].(carried := carried, live := w.book[a].live - multiset{x});
    assert told.Shaped() && told.book == w.book[a := w.book[a].(carried := carried)] && ch in told.queue;
    SetBookLedger(told, a, b, c);
    UntrackSame(told.SetBook(a, b), a, x, ch, c);
    hide World.Untrack, World.Enqueue, World.Shaped;
  }

  lemma EndTransportLedger(w: World, a: SubChannelId, n: nat, ch: Chan, c: SubChannelId)
    requires a in w.book && ch in w.queue && c in w.book
    ensures var t := w.EndTransport(a, n, ch);
            && c in t.book && t.book[c].sent == w.book[c].sent
            && t.book[c].carried == (if a == c then w.book[c].carried - multiset{n} else w.book[c].carried)
            && t.book[c].live == w.book[c].live + if a == c then multiset{Transport(n)} else multiset{}
  {
    hide World.Enqueue;
  }

  /** From bags to counts. */
  lemma EnteredIf(w: World, e: Event, c: SubChannelId, b': Book, come: multiset<Source>, go: multiset<Source>)
    requires !e.Recv? && c in w.book && b'.live + go == w.book[c].live + come
    requires forall y :: come[y] == Come(w, e, c, y) && go[y] == Go(e, c, y)
    requires b'.sent == w.book[c].sent + SentTo(e, c)
    requires b'.carried == Carrying(w.book[c].carried, w.minted, e, c)
    ensures Entered(w, e, c, b')
  {
    hide Come, Go, SentTo, Carrying;
    forall y ensures b'.live[y] + Go(e, c, y) == w.book[c].live[y] + Come(w, e, c, y) {
      assert (b'.live + go)[y] == (w.book[c].live + come)[y];
    }
  }

  // What `Enabled` and `Next` say of each kind of event.

  lemma CopyIs(w: World, e: Event)
    requires Good(w) && Enabled(w, e) && (e.Clone? || e.Drop? || e.Vanish?)
    ensures w.Shaped() && e.c in w.book && (e.Clone? || w.Spare(e.c, e.x, e.ch))
    ensures Next(w, e) == if e.Clone? then w.Clone(e.c, e.x)
                          else if e.Drop? then w.Drop(e.c, e.x, e.ch) else w.Vanish(e.c, e.x)
  {
    GoodShape(w);
    hide Good, World.Shaped, World.Drop, World.Vanish, World.Clone;
  }

  lemma TransmitIs(w: World, e: Event)
    requires Good(w) && Enabled(w, e) && e.Transmit?
    ensures w.CanBoardAll(e.riders, e.via) && e.via in w.book && e.ch in w.queue
    ensures Next(w, e) == w.Transmit(e.via, e.ch, e.payload, e.riders)
  {
    GoodShape(w);
    hide Good, World.Shaped, World.Transmit;
  }

  lemma TransportIs(w: World, e: Event)
    requires Good(w) && Enabled(w, e) && (e.BeginTransport? || e.EndTransport? || e.LoseTransport?)
    ensures w.Shaped() && e.c in w.book && e.c in w.home && w.home[e.c] in w.queue
    ensures e.BeginTransport? ==> w.Spare(e.c, e.x, e.ch) && Next(w, e) == w.BeginTransport(e.c, e.x, e.ch)
    ensures e.EndTransport? ==> Next(w, e) == w.EndTransport(e.c, e.n, w.home[e.c])
    ensures e.LoseTransport? ==> Next(w, e) == w.LoseTransport(e.c, e.n)
  {
    GoodShape(w);
    hide Good, World.Shaped, World.BeginTransport, World.EndTransport, World.LoseTransport;
  }

  lemma RecvIs(w: World, e: Event)
    requires Good(w) && Enabled(w, e) && e.Recv?
    ensures w.CanRecv(e.c) && CanTake(w, e.c, e.fault) && Next(w, e) == Delivery.Recv(w, e.c, e.fault)
  {
    GoodShape(w);
    hide Good, World.Shaped, Delivery.Recv, CanTake;
  }

  lemma HandlingIs(w: World, e: Event)
    requires Good(w) && Enabled(w, e) && (e.Deliver? || e.DropReceiver? || e.Poll? || e.Crash?)
    ensures e.Deliver? ==> w.CanDeliver(e.h) && CanFail(w.queue[e.h][0], e.fault)
                           && Next(w, e) == Delivery.Deliver(w, e.h, e.fault)
    ensures e.DropReceiver? ==> e.c in w.home && Next(w, e) == Delivery.DropReceiver(w, e.c)
    ensures e.Poll? ==> w.Shaped() && e.c in w.home && Next(w, e) == w.Poll(e.c, e.failing)
    ensures e.Crash? ==> e.h in w.queue && w.Shaped() && Next(w, e) == w.Crash(e.h)
  {
    GoodShape(w);
    hide Good, World.Shaped, World.Poll, World.Crash, Delivery.Deliver, Delivery.DropReceiver, CanFail;
  }

  lemma NoticeIs(w: World, e: Event)
    requires Good(w) && Enabled(w, e) && (e.Learn? || e.Announce? || e.Abandon?)
    ensures e.Learn? ==> e.c in w.book && Next(w, e) == w.Learn(e.c, e.x)
    ensures e.Announce? ==> w.Holds(e.c, e.x, e.ch) && Next(w, e) == w.Announce(e.c, e.x, e.ch, e.via, e.viaChan)
    ensures e.Abandon? ==> w.CanBoard(e.rider, e.via) && Next(w, e) == w.Abandon(e.rider, e.via)
  {
    GoodShape(w);
    hide Good, World.Shaped, World.Learn, World.Announce, World.Abandon;
  }

  lemma CopyEntered(w: World, e: Event, c: SubChannelId)
    requires Good(w) && Enabled(w, e) && c in w.home && c in w.book && (e.Clone? || e.Drop? || e.Vanish?)
    ensures c in Next(w, e).book && Entered(w, e, c, Next(w, e).book[c])
  {
    hide Good, Enabled, Next, World.Shaped, World.Drop, World.Vanish, Entered;
    CopyIs(w, e);
    assert w.book[c].sent + [] == w.book[c].sent;
    var none: multiset<Source> := multiset{};
    if e.Clone? {
      SetBookLedger(w, e.c, w.book[e.c].(live := w.book[e.c].live + multiset{e.x}), c);
      EnteredIf(w, e, c, Next(w, e).book[c], if e.c == c then multiset{e.x} else none, none);
    } else {
      if e.Drop? {
        DropLedger(w, e.c, e.x, e.ch, c);
      } else {
        VanishLedger(w, e.c, e.x, e.ch, c);
      }
      EnteredIf(w, e, c, Next(w, e).book[c], none, if e.c == c then multiset{e.x} else none);
    }
  }

  lemma TransmitEntered(w: World, e: Event, c: SubChannelId)
    requires Good(w) && Enabled(w, e) && c in w.home && c in w.book && e.Transmit?
    ensures c in Next(w, e).book && Entered(w, e, c, Next(w, e).book[c])
  {
    hide Good, Enabled, Next, World.Transmit, Entered;
    TransmitIs(w, e);
    TransmitLedger(w, e.via, e.ch, e.payload, e.riders, c);
    EnteredIf(w, e, c, Next(w, e).book[c], multiset{}, multiset{});
  }

  lemma LoseTransportLedger(w: World, a: SubChannelId, n: nat, c: SubChannelId)
    requires a in w.book && c in w.book
    ensures var t := w.LoseTransport(a, n);
            && c in t.book && t.book[c].sent == w.book[c].sent && t.book[c].live == w.book[c].live
            && t.book[c].carried == if a == c then w.book[c].carried - multiset{n} else w.book[c].carried
  {
  }

  lemma BeginEntered(w: World, e: Event, c: SubChannelId, b': Book)
    requires e.BeginTransport? && c in w.book && b'.sent == w.book[c].sent
    requires w.book[c].live == b'.live + if e.c == c then multiset{e.x} else multiset{}
    requires b'.carried == if e.c == c then w.book[c].carried + multiset{w.minted} else w.book[c].carried
    ensures Entered(w, e, c, b')
  {
    assert w.book[c].sent + [] == w.book[c].sent;
    EnteredIf(w, e, c, b', multiset{}, if e.c == c then multiset{e.x} else multiset{});
  }

  lemma EndEntered(w: World, e: Event, c: SubChannelId, b': Book)
    requires e.EndTransport? && c in w.book && b'.sent == w.book[c].sent
    requires b'.live == w.book[c].live + if e.c == c then multiset{Transport(e.n)} else multiset{}
    requires b'.carried == if e.c == c then w.book[c].carried - multiset{e.n} else w.book[c].carried
    ensures Entered(w, e, c, b')
  {
    assert w.book[c].sent + [] == w.book[c].sent;
    EnteredIf(w, e, c, b', if e.c == c then multiset{Transport(e.n)} else multiset{}, multiset{});
  }

  lemma LoseEntered(w: World, e: Event, c: SubChannelId, b': Book)
    requires e.LoseTransport? && c in w.book && b'.sent == w.book[c].sent && b'.live == w.book[c].live
    requires b'.carried == if e.c == c then w.book[c].carried - multiset{e.n} else w.book[c].carried
    ensures Entered(w, e, c, b')
  {
    assert w.book[c].sent + [] == w.book[c].sent;
    EnteredIf(w, e, c, b', multiset{}, multiset{});
  }

  lemma TransportEntered(w: World, e: Event, c: SubChannelId)
    requires Good(w) && Enabled(w, e) && c in w.home && c in w.book
    requires e.BeginTransport? || e.EndTransport? || e.LoseTransport?
    ensures c in Next(w, e).book && Entered(w, e, c, Next(w, e).book[c])
  {
    hide Good, Enabled, Next, World.Shaped, World.BeginTransport, World.EndTransport, World.LoseTransport, Entered;
    TransportIs(w, e);
    if e.BeginTransport? {
      BeginTransportLedger(w, e.c, e.x, e.ch, c);
      BeginEntered(w, e, c, Next(w, e).book[c]);
    } else if e.EndTransport? {
      EndTransportLedger(w, e.c, e.n, w.home[e.c], c);
      EndEntered(w, e, c, Next(w, e).book[c]);
    } else {
      LoseTransportLedger(w, e.c, e.n, c);
      LoseEntered(w, e, c, Next(w, e).book[c]);
    }
  }

  /**
   Every event does to the copies of a subchannel that are held, source by source, to what was sent
   to it and to its transports just what it should: one copy comes or goes with each clone, drop
   and transport, one for each subsender in a message that is rebuilt, and none otherwise.
   */
  lemma LedgerExactly(w: World, e: Event, c: SubChannelId)
    requires Good(w) && Enabled(w, e) && c in w.home && c in w.book
    ensures (e.Recv? ==> w.CanRecv(e.c)) && c in Next(w, e).book && Entered(w, e, c, Next(w, e).book[c])
  {
    hide Good, Enabled, Next, Entered, World.CanRecv, CanTake;
    if e.Recv? {
      RecvIs(w, e);
      RecvEntered(w, e.c, e.fault, c);
    } else if e.Transmit? {
      TransmitEntered(w, e, c);
    } else if e.Clone? || e.Drop? || e.Vanish? {
      CopyEntered(w, e, c);
    } else if e.BeginTransport? || e.EndTransport? || e.LoseTransport? {
      TransportEntered(w, e, c);
    } else {
      if e.Learn? || e.Announce? || e.Abandon? {
        NoticeSame(w, e, c);
      } else {
        HandlingSame(w, e, c);
      }
      SameEntered(w, e, c, Next(w, e).book[c]);
    }
  }

  lemma NoticeSame(w: World, e: Event, c: SubChannelId)
    requires Good(w) && Enabled(w, e) && c in w.book && (e.Learn? || e.Announce? || e.Abandon?)
    ensures c in Next(w, e).book && Same(w.book[c], Next(w, e).book[c])
  {
    hide Good, Enabled, Next, World.Enqueue;
    NoticeIs(w, e);
  }

  lemma HandlingSame(w: World, e: Event, c: SubChannelId)
    requires Good(w) && Enabled(w, e) && c in w.home && c in w.book
    requires e.Deliver? || e.DropReceiver? || e.Poll? || e.Crash?
    ensures c in Next(w, e).book && Same(w.book[c], Next(w, e).book[c])
  {
    GoodShape(w);
    hide Good, Base, Enabled, Next, World.Shaped, Same;
    hide World.Poll, World.Crash, Delivery.Deliver, Delivery.DropReceiver;
    HandlingIs(w, e);
    if e.Deliver? {
      DeliverSame(w, e.h, e.fault, c);
    } else if e.DropReceiver? {
      DropReceiverSame(w, e.c, c);
    } else if e.Poll? {
      PollSame(w, e.c, e.failing, c);
    } else {
      CrashSame(w, e.h, c);
    }
  }

  // ---------------------------------------------------------------------------------------
  // Who is told
  // ---------------------------------------------------------------------------------------

  /** A copy is the last reference to its tracker: no other at its source is held or demultiplexed. */
  ghost predicate Last(w: World, c: SubChannelId, x: Source)
    requires c in w.book
  {
    w.book[c].live[x] == 1 && forall v | v in w.book[c].pending && v in w.home :: x != Receiver(w.home[v])
  }

  /** A tracker is referenced after a copy has gone unless that was the last. */
  lemma HeldUnlessLast(w: World, c: SubChannelId, x: Source)
    requires w.Shaped() && c in w.home && c in w.book && x in w.book[c].live
    ensures var t := w.SetBook(c, w.book[c].(live := w.book[c].live - multiset{x}));
            t.Shaped() && (t.View(c).Held(x) <==> !Last(w, c, x))
  {
  }

  /**
   Dropping a copy enqueues one `Disconnect`, at home, if it is the last at its source and the
   source has not found out that the receiver is gone; and nothing otherwise.
   */
  lemma DropTells(w: World, c: SubChannelId, x: Source, ch: Chan)
    requires w.Shaped() && w.Spare(c, x, ch) && ch !in w.dead
    ensures w.Drop(c, x, ch).queue
            == w.queue[ch := w.queue[ch] + if Last(w, c, x) && x !in w.book[c].told then [Disconnect(c, x)] else []]
  {
    hide Last, World.View;
    HeldUnlessLast(w, c, x);
    assert w.queue[ch] + [] == w.queue[ch];
  }

  /** So a source that has found out is silent from then on. */
  lemma LearntIsSilent(w: World, c: SubChannelId, x: Source, ch: Chan)
    requires w.Shaped() && c in w.book && w.Learn(c, x).Spare(c, x, ch) && ch !in w.dead
    ensures w.Learn(c, x).Drop(c, x, ch).queue == w.queue
  {
    DropTells(w.Learn(c, x), c, x, ch);
    assert w.queue[ch] + [] == w.queue[ch];
    hide World.Drop, World.Shaped;
  }

  /** A transport that ends connects, and then reports the arrival. */
  lemma TransportTells(w: World, c: SubChannelId, n: nat, ch: Chan)
    requires c in w.book && ch in w.queue && ch !in w.dead
    ensures w.EndTransport(c, n, ch).queue
            == w.queue[ch := w.queue[ch] + [Connect(w.minted), Received(c, EMPTY_SUBCHANNEL_ID, Transport(n))]]
  {
    assert w.queue[ch] + [Connect(w.minted)] + [Received(c, EMPTY_SUBCHANNEL_ID, Transport(n))]
        == w.queue[ch] + [Connect(w.minted), Received(c, EMPTY_SUBCHANNEL_ID, Transport(n))];
  }

  /** A `send` announces each copy on the way of its own subchannel, under its carrier. */
  lemma AnnounceTells(w: World, c: SubChannelId, x: Source, ch: Chan, via: SubChannelId, viaChan: Chan)
    requires w.Holds(c, x, ch) && ch !in w.dead
    ensures w.Announce(c, x, ch, via, viaChan).queue == w.queue[ch := w.queue[ch] + [Sending(c, via, viaChan)]]
  {
  }

  /** Its data message has one reference for each rider, in order, to the rider's own channel. */
  lemma TransmitTells(w: World, via: SubChannelId, ch: Chan, payload: Payload, riders: seq<Rider>)
    requires w.CanBoardAll(riders, via) && via in w.book && ch in w.queue && ch !in w.dead
    ensures var q := w.Transmit(via, ch, payload, riders).queue;
            && q.Keys == w.queue.Keys && (forall h | h in q && h != ch :: q[h] == w.queue[h])
            && |q[ch]| == |w.queue[ch]| + 1 && q[ch][..|w.queue[ch]|] == w.queue[ch]
            && var msg := q[ch][|w.queue[ch]|];
               && msg.Data? && msg.scid == via && msg.payload == payload && |msg.senders| == |riders|
               && forall i | 0 <= i < |riders| :: msg.senders[i] == Embed(riders[i].scid, riders[i].sender)
  {
    hide World.CanBoardAll, World.BoardAll;
  }

  /** A copy that vanishes with its process tells nobody; its source is then without a tracker. */
  lemma VanishIsSilent(w: World, c: SubChannelId, x: Source, ch: Chan)
    requires w.Shaped() && w.Spare(c, x, ch) && c in w.home
    ensures var t := w.Vanish(c, x);
            && t.queue == w.queue && c in t.book
            && t.book[c].orphaned == w.book[c].orphaned
                                     + if Last(w, c, x) && x in w.View(c).Final().sources then {x} else {}
  {
    hide Last;
    HeldUnlessLast(w, c, x);
    var t := w.SetBook(c, w.book[c].(live := w.book[c].live - multiset{x}));
    assert t.View(c).Final() == w.View(c).Final();
    assert w.book[c].orphaned + {} == w.book[c].orphaned;
  }

  // ---------------------------------------------------------------------------------------
  // What machines and channels show
  // ---------------------------------------------------------------------------------------

  /** An announcement whose carrier cannot be reached leaves a failing probe, and no other trace. */
  lemma RefusalShows(w: World, h: Chan)
    requires Base(w) && w.CanDeliver(h) && w.queue[h][0].Sending? && w.queue[h][0].scid in w.home
    requires w.queue[h][0].scid in w.book && w.Waived(h).Shaped() && !w.Machine(w.queue[h][0].scid).Empty()
    ensures var c := w.queue[h][0].scid;
            w.Waived(h).Machine(c) == w.Machine(c).(probes := w.Machine(c).probes[w.queue[h][0].via := AlwaysFailing])
  {
    var c, via := w.queue[h][0].scid, w.queue[h][0].via;
    WaivedMoves(w, h);
    var m := w.Machine(c);
    assert m.inFlight + multiset{via} - multiset{via} == m.inFlight;
    assert w.Waived(h).Machine(c) == m.Refuse(via, AlwaysFailing).0;
    hide Base, World.Waived, World.Shaped;
  }

  /** A receiver that is dropped is gone, with its local queue, and no other is. */
  lemma ReceiverGoes(w: World, v: SubChannelId, c: SubChannelId)
    requires Base(w) && v in w.home && c in w.home
    ensures var t := Delivery.DropReceiver(w, v);
            && t.Shaped() && t.home == w.home && (t.Gone(c) <==> c == v || w.Gone(c))
            && t.Local(c) == if c == v then [] else w.Local(c)
  {
    TakeReady(w, v, |w.Local(v)|, false, true);
    TakeShaped(w, v, |w.Local(v)|, false, true);
    hide Base, World.MeetAll, LocalCargo, World.CanMeetAll;
  }

  /** A process that dies takes its channel and what was queued there along, and no other channel. */
  lemma CrashTakes(w: World, h: Chan)
    requires w.Shaped() && h in w.queue
    ensures w.Crash(h).queue == w.queue[h := []] && w.Crash(h).dead == w.dead + {h}
  {
    hide World.Shaped;
  }

  // ---------------------------------------------------------------------------------------
  // Transports have numbers of their own
  // ---------------------------------------------------------------------------------------

  /** Every transport in progress was begun once, and no two share their number. */
  ghost predicate Numbered(w: World) {
    && (forall c, n | c in w.book && n in w.book[c].carried :: n < w.minted && w.book[c].carried[n] == 1)
    && (forall c, d, n | c in w.book && d in w.book && c != d && n in w.book[c].carried :: n !in w.book[d].carried)
  }

  lemma {:induction false} MeetAllMinted(w: World, fate: Fate, senders: seq<Embed<Chan>>, via: SubChannelId)
    requires w.CanMeetAll(senders, via)
    ensures w.MeetAll(fate, senders, via).minted == w.minted
    decreases |senders|
  {
    hide World.Meet, World.Shaped;
    if senders != [] {
      MeetMinted(w, fate, senders[0], via);
      var t := w.Meet(fate, senders[0], via);
      assert t.CanMeetAll(senders[1..], via);
      MeetAllMinted(t, fate, senders[1..], via);
    }
  }

  lemma MeetMinted(w: World, fate: Fate, e: Embed<Chan>, via: SubChannelId)
    requires w.CanMeet(e, via)
    ensures w.Meet(fate, e, via).minted == w.minted
  {
    hide World.View, World.Shaped;
  }

  lemma DeliverMinted(w: World, h: Chan, fault: Fault)
    requires Good(w) && w.CanDeliver(h) && CanFail(w.queue[h][0], fault)
    ensures Delivery.Deliver(w, h, fault).minted == w.minted
  {
    if w.queue[h][0].Data? {
      if fault.None? {
        DeliverDataMinted(w, h);
      } else {
        LoseDataMinted(w, h, fault.value);
      }
    }
    hide Base, Alive, Coupled, DeliverData, LoseData, World.Handled;
  }

  lemma DeliverDataMinted(w: World, h: Chan)
    requires Good(w) && w.CanDeliver(h) && w.queue[h][0].Data?
    ensures DeliverData(w, h).minted == w.minted
  {
    hide Base, Coupled, Alive, World.MeetAll, World.Handled;
    var msg := w.queue[h][0];
    HeadProvided(w, h);
    MeetAllMinted(w, Arrive, msg.senders, msg.scid);
    DeliverReady(w, h);
    MeetAllMinted(Arrived(w, h).Popped(h), Release, msg.senders, msg.scid);
  }

  lemma LoseDataMinted(w: World, h: Chan, i: nat)
    requires Good(w) && w.CanDeliver(h) && w.queue[h][0].Data? && i < |w.queue[h][0].senders|
    ensures LoseData(w, h, i).minted == w.minted
  {
    hide Base, Coupled, Alive, World.MeetAll;
    var msg := w.queue[h][0];
    FirstProvided(w, h, i);
    OthersProvided(w, h, i);
    LostReady(w, h, i);
    MeetAllMinted(w, Arrive, msg.senders[..i], msg.scid);
    MeetAllMinted(FirstArrived(w, h, i), Strand, msg.senders[i..], msg.scid);
    MeetAllMinted(Scattered(w, h, i).Lost(h), Release, msg.senders[..i], msg.scid);
  }

  lemma WithdrawMinted(w: World, v: SubChannelId, n: nat, give: bool, hangUp: bool, fate: Fate)
    requires Base(w) && v in w.home && n <= |w.Local(v)|
    ensures Withdraw(w, v, n, give, hangUp, fate).minted == w.minted
  {
    TakeReady(w, v, n, give, hangUp);
    MeetAllMinted(w.Take(v, n, give, hangUp), fate, LocalCargo(w.Local(v)[..n]), v);
    hide World.MeetAll, LocalCargo, Base;
  }

  lemma RecvMinted(w: World, v: SubChannelId, fault: Fault)
    requires Base(w) && w.CanRecv(v) && CanTake(w, v, fault)
    ensures Delivery.Recv(w, v, fault).minted == w.minted
  {
    hide TablesOk, Addressed, EndsOk, EmbedsOk, World.MeetAll, LocalCargo, Withdraw;
    if fault.None? {
      WithdrawMinted(w, v, 1, true, false, Accept);
    } else {
      TakeReady(w, v, 1, false, false);
      var t, cargo := w.Take(v, 1, false, false), LocalCargo(w.Local(v)[..1]);
      var a := t.MeetAll(Accept, cargo[..fault.value], v);
      var b := a.MeetAll(Shed, cargo[..fault.value], v);
      MeetAllMinted(t, Accept, cargo[..fault.value], v);
      MeetAllMinted(a, Shed, cargo[..fault.value], v);
      MeetAllMinted(b, Release, cargo[fault.value..], v);
      hide Base, World.Shaped;
    }
  }

  /** Only a transport that begins uses up a number. */
  lemma NextMinted(w: World, e: Event)
    requires Good(w) && Enabled(w, e)
    ensures Next(w, e).minted == w.minted + if e.BeginTransport? then 1 else 0
  {
    GoodShape(w);
    hide Good, Base, Enabled, Next, World.Shaped, World.CanRecv, CanTake, CanFail, Delivery.Recv, Delivery.Deliver;
    hide Delivery.DropReceiver, World.Poll, World.Crash;
    if e.Recv? {
      RecvIs(w, e);
      RecvMinted(w, e.c, e.fault);
    } else if e.Deliver? || e.DropReceiver? || e.Poll? || e.Crash? {
      HandlingIs(w, e);
      if e.Deliver? {
        DeliverMinted(w, e.h, e.fault);
      } else if e.DropReceiver? {
        DropReceiverMinted(w, e.c);
      } else if e.Poll? {
        PollMinted(w, e.c, e.failing);
      } else {
        CrashMinted(w, e.h);
      }
    } else {
      CopyMinted(w, e);
    }
  }

  lemma PollMinted(w: World, c: SubChannelId, failing: set<SubChannelId>)
    requires w.Shaped() && c in w.home
    ensures w.Poll(c, failing).minted == w.minted
  {
    hide World.Shaped, World.View, Machine.Poll, Life.Sub.Poll;
  }

  lemma CrashMinted(w: World, h: Chan)
    requires w.Shaped() && h in w.queue
    ensures w.Crash(h).minted == w.minted
  {
    hide World.Shaped, World.View;
  }

  lemma UntrackMinted(w: World, c: SubChannelId, x: Source, ch: Chan)
    requires w.Shaped() && c in w.home && ch in w.queue
    ensures w.Untrack(c, x, ch).minted == w.minted
  {
    hide World.View, World.Shaped;
  }

  lemma CopyMinted(w: World, e: Event)
    requires Good(w) && Enabled(w, e)
    requires !e.Recv? && !e.Deliver? && !e.DropReceiver? && !e.Poll? && !e.Crash?
    ensures Next(w, e).minted == w.minted + if e.BeginTransport? then 1 else 0
  {
    GoodShape(w);
    hide Good, Base, Enabled, Next, World.Shaped, World.View, World.BoardAll, World.CanBoardAll, World.Untrack;
    hide World.Enqueue;
    if e.Transmit? {
      TransmitIs(w, e);
    } else if e.Clone? || e.Drop? || e.Vanish? {
      CopyIs(w, e);
      if e.Drop? {
        DropMinted(w, e.c, e.x, e.ch);
      }
    } else if e.BeginTransport? || e.EndTransport? || e.LoseTransport? {
      TransportIs(w, e);
      if e.BeginTransport? {
        BeginMinted(w, e.c, e.x, e.ch);
      }
    } else {
      NoticeIs(w, e);
    }
    EnqueueMinted();
  }

  lemma EnqueueMinted()
    ensures forall w: World, ch, msg | ch in w.queue :: w.Enqueue(ch, msg).minted == w.minted
  {
  }

  lemma DropMinted(w: World, c: SubChannelId, x: Source, ch: Chan)
    requires w.Shaped() && w.Spare(c, x, ch)
    ensures w.Drop(c, x, ch).minted == w.minted
  {
    UntrackMinted(w.SetBook(c, w.book[c].(live := w.book[c].live - multiset{x})), c, x, ch);
    hide World.Untrack, World.Shaped;
  }

  lemma BeginMinted(w: World, c: SubChannelId, x: Source, ch: Chan)
    requires w.Shaped() && w.Spare(c, x, ch)
    ensures w.BeginTransport(c, x, ch).minted == w.minted + 1
  {
    var carried := w.book[c].carried + multiset{w.minted};
    var told := w.Mint(c, ch).SetBook(c, w.book[c].(carried := carried)).Enqueue(ch, SendingViaIpcChannel(c, w.minted));
    UntrackMinted(told.SetBook(c, w.book[c].(carried := carried, live := w.book[c].live - multiset{x})), c, x, ch);
    hide World.Untrack, World.Shaped;
  }

  lemma DropReceiverMinted(w: World, v: SubChannelId)
    requires Base(w) && v in w.home
    ensures Delivery.DropReceiver(w, v).minted == w.minted
  {
    hide Withdraw;
    WithdrawMinted(w, v, |w.Local(v)|, false, true, Refuse);
  }

  /** The numbers after an event, told from the ledger. */
  lemma CarriedStaysNumbered(w: World, t: World, e: Event)
    requires Numbered(w) && t.book.Keys == w.book.Keys && t.minted == w.minted + if e.BeginTransport? then 1 else 0
    requires forall c | c in w.book :: t.book[c].carried == Carrying(w.book[c].carried, w.minted, e, c)
    ensures Numbered(t)
  {
    hide Carrying;
    forall c, n | c in t.book && n in t.book[c].carried
      ensures n < t.minted && t.book[c].carried[n] == 1
      ensures n in w.book[c].carried || (e.BeginTransport? && e.c == c && n == w.minted)
    {
      CarryingAt(w.book[c].carried, w.minted, e, c, n);
    }
  }

  lemma CarryingAt(carried: multiset<nat>, minted: nat, e: Event, c: SubChannelId, n: nat)
    ensures var more := Carrying(carried, minted, e, c)[n];
            if e.BeginTransport? && e.c == c && n == minted then more == carried[n] + 1 else more <= carried[n]
  {
  }

  lemma {:induction false} RunStaysNumbered(w: World, events: seq<Event>)
    requires Good(w) && IsRun(w, events) && Numbered(w)
    ensures Numbered(After(w, events))
    decreases |events|
  {
    hide Good, Enabled, Safe, Next, Numbered, Entered;
    if events != [] {
      var e, t := events[0], Next(w, events[0]);
      NextGoodIff(w, e);
      NextMinted(w, e);
      NextCarries(w, e);
      CarriedStaysNumbered(w, t, e);
      RunStaysNumbered(t, events[1..]);
    }
  }

  lemma NextCarries(w: World, e: Event)
    requires Good(w) && Enabled(w, e) && Good(Next(w, e))
    ensures Next(w, e).book.Keys == w.book.Keys
    ensures forall c | c in w.book :: Next(w, e).book[c].carried == Carrying(w.book[c].carried, w.minted, e, c)
  {
    GoodShape(w);
    GoodShape(Next(w, e));
    NextHome(w, e);
    hide Good, Enabled, Next, World.CanRecv;
    forall c | c in w.book
      ensures c in Next(w, e).book
      ensures Next(w, e).book[c].carried == Carrying(w.book[c].carried, w.minted, e, c)
    {
      LedgerExactly(w, e, c);
    }
  }

  /** In every run, each transport in progress has a number that no other ever had. */
  lemma TransportsAreDistinct(w: World, events: seq<Event>, t: World)
    requires Reaches(w, events, t)
    ensures Numbered(t)
  {
    StartGood(w);
    forall c | c in w.book ensures w.book[c].carried == multiset{} {
      assert c in w.home && Life.Fresh(w.View(c));
    }
    hide Good, Start;
    RunStaysNumbered(w, events);
  }
}
