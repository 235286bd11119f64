/**
 What each event adds to the histories of a subchannel: copies that leak, announcements that are
 not recorded, messages that are lost or handed out, and sources that are orphaned.
 */
module Histories {
  import opened Basics
  import opened Protocol
  import opened SubchannelLifecycle
  import Demux
  import Life = Subchannel
  import opened System
  import opened Copies
  import opened Delivery
  import opened Runs

  // ---------------------------------------------------------------------------------------
  // What is lost, and what leaks
  // ---------------------------------------------------------------------------------------

  /** Copies of `c` that are under way to the process that receives on `h`. */
  ghost function Downed(w: World, h: Chan, c: SubChannelId): nat
    requires c in w.book
  {
    |Life.On(w.book[c].transit, HomedAt(w.home, h))| + |Life.On(w.book[c].pending, HomedAt(w.home, h))|
  }

  /** Copies of `c` in the message at the head of a queue, if it is lost or nobody can receive it. */
  ghost function Undelivered(w: World, h: Chan, fault: Fault, c: SubChannelId): nat
    requires Good(w) && w.CanDeliver(h)
  {
    var msg := w.queue[h][0];
    assert MsgOk(w.home, h, msg);
    if msg.Data? && (fault.Some? || w.Gone(msg.scid)) then Count(msg.senders, c) else 0
  }

  /**
   What an event takes of a subchannel without its machine being told: `leaks` copies are given
   up, the announcements of `waives` are not recorded, messages fare as `fates` says, items are
   taken out of the local queue and handed to the caller as `hands` says, and a source may be
   orphaned if `orphans`.
   */
  datatype Toll = Toll(leaks: nat, waives: multiset<SubChannelId>, fates: seq<bool>, hands: seq<bool>, orphans: bool)

  const Nothing: Toll := Toll(0, multiset{}, [], [], false)

  function Leaks(n: nat): Toll {
    Nothing.(leaks := n)
  }

  function Fates(fates: seq<bool>): Toll {
    Nothing.(fates := fates)
  }

  function Hands(hands: seq<bool>): Toll {
    Nothing.(hands := hands)
  }

  function Both(a: Toll, b: Toll): Toll {
    Toll(a.leaks + b.leaks, a.waives + b.waives, a.fates + b.fates, a.hands + b.hands, a.orphans || b.orphans)
  }

  /**
   Copies of `c` leak in a message that is announced but never sent, in one for a receiver that
   has been dropped, in one with a reference that cannot be resolved, behind the place where
   rebuilding a message stops, in a transport whose process is gone, and with the process that
   receives on their carriers. A message is lost exactly if it has a reference that cannot be
   resolved or its receiver has been dropped; one that is not lost is handed to the caller that
   takes it exactly if it can be rebuilt. An announcement is not recorded exactly if its carrier
   cannot be resolved.
   */
  ghost function TollOf(w: World, e: Event, c: SubChannelId): Toll
    requires Good(w) && Enabled(w, e) && c in w.home && c in w.book
  {
    GoodShape(w);
    hide Good, Base, World.Shaped, CanTake, CanFail;
    match e
    case Abandon(r, _) => Leaks(if r.scid == c then 1 else 0)
    case LoseTransport(a, _) => Leaks(if a == c then 1 else 0)
    case Deliver(h, fault) => DeliverToll(w, h, fault, c)
    case Recv(v, fault) => RecvToll(w, v, fault, c)
    case DropReceiver(v) => Hands(if v == c then seq(|w.Local(v)|, _ => false) else [])
    case Crash(h) => Leaks(Downed(w, h, c)).(orphans := true)
    case Vanish(a, _, _) => Nothing.(orphans := a == c)
    case Learn(a, _) => Nothing.(orphans := a == c)
    case _ => Nothing
  }

  /** Copies of `c` among those that a `recv` did not get to. */
  ghost function Unbuilt(w: World, v: SubChannelId, fault: Fault, c: SubChannelId): nat
    requires w.CanRecv(v) && CanTake(w, v, fault)
  {
    if fault.None? then 0 else Count(LocalCargo(w.Local(v)[..1])[fault.value..], c)
  }

  ghost function RecvToll(w: World, v: SubChannelId, fault: Fault, c: SubChannelId): Toll
    requires w.CanRecv(v) && CanTake(w, v, fault)
  {
    Hands(if v == c then [fault.None?] else []).(leaks := Unbuilt(w, v, fault, c))
  }

  ghost function DeliverToll(w: World, h: Chan, fault: Fault, c: SubChannelId): Toll
    requires Good(w) && w.CanDeliver(h) && c in w.home
  {
    var msg := w.queue[h][0];
    if msg.Data? then Fates(Judgement(w, h, fault, c)).(leaks := Undelivered(w, h, fault, c))
    else if msg.Sending? && msg.scid == c && fault.Some? then Nothing.(waives := multiset{msg.via})
    else Nothing
  }

  ghost function Judgement(w: World, h: Chan, fault: Fault, c: SubChannelId): seq<bool>
    requires w.Shaped() && w.CanDeliver(h) && c in w.home
  {
    var msg := w.queue[h][0];
    if msg.Data? && msg.scid == c then [fault.None? && !w.Gone(c)] else []
  }

  /** The histories of `c` grow by this much. */
  ghost predicate Tells(w: World, t: World, c: SubChannelId, toll: Toll)
    requires c in w.book
  {
    t.home == w.home && t.book.Keys == w.book.Keys && Told(w.book[c], t.book[c], toll)
  }

  ghost predicate Told(b: Book, b': Book, toll: Toll) {
    && |b'.leaked| == |b.leaked| + toll.leaks
    && b'.waived == b.waived + toll.waives
    && b'.fates == b.fates + toll.fates
    && b'.handed == b.handed + toll.hands
    && |b'.taken| == |b.taken| + |toll.hands|
    && (!toll.orphans ==> b'.told == b.told && (b.told == {} ==> b'.orphaned <= b.orphaned))
  }

  lemma TellsTwice(w: World, t: World, u: World, c: SubChannelId, a: Toll, b: Toll)
    requires c in w.book && Tells(w, t, c, a) && Tells(t, u, c, b)
    ensures Tells(w, u, c, Both(a, b))
  {
  }

  lemma BothOf(n: nat, m: nat, fates: seq<bool>)
    ensures Both(Leaks(n), Leaks(m)) == Leaks(n + m) && Both(Nothing, Fates(fates)) == Fates(fates)
    ensures Both(Leaks(n), Fates(fates)) == Fates(fates).(leaks := n)
    ensures Both(Fates(fates).(leaks := n), Leaks(m)) == Fates(fates).(leaks := n + m)
    ensures Fates(fates).(leaks := 0) == Fates(fates) && Leaks(0) == Nothing
    ensures Both(Hands(fates), Leaks(m)) == Hands(fates).(leaks := m) && Both(Hands(fates), Nothing) == Hands(fates)
    ensures Both(Hands(fates).(leaks := n), Leaks(m)) == Hands(fates).(leaks := n + m)
  {
    assert [] + fates == fates && fates + [] == fates;
  }

  lemma UntrackTells(w: World, a: SubChannelId, x: Source, ch: Chan, c: SubChannelId)
    requires w.Shaped() && a in w.home && ch in w.queue && c in w.book
    ensures Tells(w, w.Untrack(a, x, ch), c, Nothing)
  {
    hide World.View, World.Enqueue;
    var t := w.Untrack(a, x, ch);
    assert w.book[a].told == {} ==> t.book[a].orphaned <= w.book[a].orphaned;
    hide World.Untrack, World.Shaped;
  }

  /** The copies that leak when `n` copies meet a fate. */
  function LeakedAt(fate: Fate, n: nat): Toll {
    Leaks(if fate.Release? || fate.Strand? then n else 0)
  }

  lemma BothLeaked(fate: Fate, n: nat, m: nat)
    ensures Both(LeakedAt(fate, n), LeakedAt(fate, m)) == LeakedAt(fate, n + m)
  {
    hide Both, Leaks;
    if fate.Release? || fate.Strand? {
      BothOf(n, m, []);
    } else {
      BothOf(0, 0, []);
    }
  }

  lemma UntouchedTells(w: World, fate: Fate, c: SubChannelId)
    requires c in w.book
    ensures Tells(w, w, c, LeakedAt(fate, 0))
  {
  }

  lemma FareTells(w: World, t: World, fate: Fate, a: SubChannelId, via: SubChannelId, x: Source, c: SubChannelId)
    requires a in w.book && c in w.book && t.home == w.home && t.book == w.book[a := w.book[a].Fare(fate, via, x)]
    ensures Tells(w, t, c, LeakedAt(fate, if a == c then 1 else 0))
  {
    hide Book.Fare, LeakedAt;
    if a == c {
      FareTold(w.book[a], fate, via, x);
    } else {
      UntouchedTells(w, fate, c);
    }
    hide Told;
  }

  lemma FareTold(b: Book, fate: Fate, via: SubChannelId, x: Source)
    ensures Told(b, b.Fare(fate, via, x), LeakedAt(fate, 1))
  {
    hide Told;
    OneMore(b.leaked, via);
    ToldLeaks(b, b.Fare(fate, via, x), if fate.Release? || fate.Strand? then 1 else 0);
  }

  lemma ToldLeaks(b: Book, b': Book, n: nat)
    requires b'.waived == b.waived && b'.fates == b.fates && b'.handed == b.handed && b'.taken == b.taken
    requires b'.told == b.told && b'.orphaned == b.orphaned && |b'.leaked| == |b.leaked| + n
    ensures Told(b, b', Leaks(n))
  {
  }

  lemma OneMore(bag: multiset<SubChannelId>, v: SubChannelId)
    ensures |bag + multiset{v}| == |bag| + 1
  {
  }

  lemma FareThenUntrackTells(w: World, t: World, fate: Fate, e: Embed<Chan>, via: SubChannelId, c: SubChannelId)
    requires w.CanMeet(e, via) && c in w.book && t.Shaped() && t.home == w.home && e.sender in t.queue
    requires t.book == w.book[e.scid := w.book[e.scid].Fare(fate, via, Receiver(w.home[via]))]
    ensures Tells(w, t.Untrack(e.scid, Receiver(w.home[via]), e.sender), c,
                  LeakedAt(fate, if e.scid == c then 1 else 0))
  {
    var x := Receiver(w.home[via]);
    FareTells(w, t, fate, e.scid, via, x, c);
    UntrackTells(t, e.scid, x, e.sender, c);
    hide Tells, World.Untrack, World.Shaped;
    var n := if (fate.Release? || fate.Strand?) && e.scid == c then 1 else 0;
    TellsTwice(w, t, t.Untrack(e.scid, x, e.sender), c, Leaks(n), Leaks(0));
    BothOf(n, 0, []);
  }

  /** A copy that meets its fate leaks if it is released or stranded, and only then. */
  lemma MeetTells(w: World, fate: Fate, e: Embed<Chan>, via: SubChannelId, c: SubChannelId)
    requires w.CanMeet(e, via) && c in w.book
    ensures Tells(w, w.Meet(fate, e, via), c, LeakedAt(fate, if e.scid == c then 1 else 0))
  {
    hide Tells, World.Untrack, World.Report, World.Enqueue, LeakedAt, Book.Fare;
    if fate.Refuse? || fate.Release? || fate.Shed? {
      UntrackedTells(w, fate, e, via, c);
    } else {
      FareTells(w, w.Meet(fate, e, via), fate, e.scid, via, Receiver(w.home[via]), c);
    }
  }

  lemma UntrackedTells(w: World, fate: Fate, e: Embed<Chan>, via: SubChannelId, c: SubChannelId)
    requires w.CanMeet(e, via) && c in w.book && (fate.Refuse? || fate.Release? || fate.Shed?)
    ensures Tells(w, w.Meet(fate, e, via), c, LeakedAt(fate, if e.scid == c then 1 else 0))
  {
    hide Tells, World.Untrack, World.Report, World.Enqueue, LeakedAt, Book.Fare;
    if fate.Refuse? {
      FareThenUntrackTells(w, w.Report(e, via), fate, e, via, c);
    } else {
      var b := w.book[e.scid].Fare(fate, via, Receiver(w.home[via]));
      FareThenUntrackTells(w, w.SetBook(e.scid, b), fate, e, via, c);
    }
  }

  lemma {:induction false} MeetAllTells(w: World, fate: Fate, senders: seq<Embed<Chan>>, via: SubChannelId,
                                        c: SubChannelId)
    requires w.CanMeetAll(senders, via) && c in w.home && c in w.book
    ensures Tells(w, w.MeetAll(fate, senders, via), c, LeakedAt(fate, Count(senders, c)))
    decreases |senders|
  {
    hide World.Meet, World.Shaped, Tells, Both, LeakedAt;
    if senders == [] {
      UntouchedTells(w, fate, c);
    } else {
      MeetTells(w, fate, senders[0], via, c);
      var t := w.Meet(fate, senders[0], via);
      assert t.CanMeetAll(senders[1..], via);
      MeetAllTells(t, fate, senders[1..], via, c);
      var n, m := if senders[0].scid == c then 1 else 0, Count(senders[1..], c);
      TellsTwice(w, t, t.MeetAll(fate, senders[1..], via), c, LeakedAt(fate, n), LeakedAt(fate, m));
      BothLeaked(fate, n, m);
    }
  }

  lemma {:induction false} BoardAllTells(w: World, riders: seq<Rider>, via: SubChannelId, c: SubChannelId)
    requires w.CanBoardAll(riders, via) && c in w.book
    ensures Tells(w, w.BoardAll(riders, via), c, Nothing)
    decreases |riders|
  {
    if riders != [] {
      BoardAllTells(w.Board(riders[0], via), riders[1..], via, c);
    }
  }

  lemma TransmitTells(w: World, via: SubChannelId, ch: Chan, payload: Payload, riders: seq<Rider>, c: SubChannelId)
    requires w.CanBoardAll(riders, via) && via in w.book && ch in w.queue && c in w.book
    ensures Tells(w, w.Transmit(via, ch, payload, riders), c, Nothing)
  {
    BoardAllTells(w, riders, via, c);
    hide World.BoardAll, World.CanBoardAll;
  }

  /** Only a message for a receiver that has been dropped is discarded, if all its references can be resolved. */
  lemma OnlyGoneDrops(w: World, h: Chan)
    requires Good(w) && w.CanDeliver(h) && w.queue[h][0].Data?
    ensures var msg := w.queue[h][0];
            && msg.scid in w.home && w.Machine(msg.scid).maybe == Some(msg.scid)
            && w.Handled(h).dropped == if w.Gone(msg.scid) then msg.senders else []
  {
    var msg := w.queue[h][0];
    var c := msg.scid;
    assert MsgOk(w.home, h, msg);
    assert Life.Timely(w.View(c).m, w.View(c).q) && w.View(c).q[0] == Life.Note.Data(msg.payload);
  }

  lemma PoppedTells(w: World, a: World, h: Chan, c: SubChannelId)
    requires w.Shaped() && w.CanDeliver(h) && c in w.home && a == w.(book := a.book) && a.Shaped()
    requires w.queue[h][0].Data? ==> w.queue[h][0].scid in w.home && w.Machine(w.queue[h][0].scid).maybe.Some?
    ensures c in a.book && a.CanDeliver(h) && Tells(a, a.Popped(h), c, Fates(Judgement(w, h, None, c)))
  {
    hide World.Handled;
  }

  lemma ArrivedTells(w: World, h: Chan, c: SubChannelId)
    requires Good(w) && w.CanDeliver(h) && w.queue[h][0].Data? && c in w.home
    ensures c in w.book && Tells(w, Arrived(w, h), c, Nothing) && Arrived(w, h) == w.(book := Arrived(w, h).book)
    ensures Arrived(w, h).Shaped()
  {
    HeadProvided(w, h);
    MeetAllTells(w, Arrive, w.queue[h][0].senders, w.queue[h][0].scid, c);
  }

  lemma HandledTells(w: World, h: Chan, c: SubChannelId)
    requires Good(w) && w.CanDeliver(h) && w.queue[h][0].Data? && c in w.home
    ensures c in w.book && Arrived(w, h).CanDeliver(h)
    ensures Tells(w, Arrived(w, h).Popped(h), c, Fates(Judgement(w, h, None, c)))
  {
    hide Base, Coupled, Alive, Arrived, World.Popped, Tells, World.Handled, Judgement;
    ArrivedTells(w, h, c);
    OnlyGoneDrops(w, h);
    PoppedTells(w, Arrived(w, h), h, c);
    var fates := Judgement(w, h, None, c);
    TellsTwice(w, Arrived(w, h), Arrived(w, h).Popped(h), c, Nothing, Fates(fates));
    BothOf(0, 0, fates);
  }

  lemma StrayTells(w: World, h: Chan, c: SubChannelId)
    requires Good(w) && w.CanDeliver(h) && w.queue[h][0].Data? && c in w.home && w.Handled(h).dropped != []
    ensures c in w.book
    ensures Tells(w, DeliverData(w, h), c,
                  Fates(Judgement(w, h, None, c)).(leaks := Count(w.queue[h][0].senders, c)))
  {
    hide Base, Coupled, Alive, Arrived, World.Popped, Tells, World.Handled, Judgement, World.MeetAll, World.CanMeetAll;
    DeliverReady(w, h);
    HandledTells(w, h, c);
    var p, msg := Arrived(w, h).Popped(h), w.queue[h][0];
    var fates := Judgement(w, h, None, c);
    ReleasedTells(p, msg.senders, msg.scid, c);
    TellsTwice(w, p, p.MeetAll(Release, msg.senders, msg.scid), c, Fates(fates), Leaks(Count(msg.senders, c)));
    BothOf(0, Count(msg.senders, c), fates);
  }

  lemma DeliverDataTells(w: World, h: Chan, c: SubChannelId)
    requires Good(w) && w.CanDeliver(h) && w.queue[h][0].Data? && c in w.home
    ensures c in w.book && Tells(w, DeliverData(w, h), c, DeliverToll(w, h, None, c))
  {
    hide Base, Coupled, Alive, Arrived, World.Popped, Tells, World.Handled, Judgement;
    OnlyGoneDrops(w, h);
    if w.Handled(h).dropped == [] {
      HandledTells(w, h, c);
      DeliverReady(w, h);
      CountNone(c);
      BothOf(0, 0, Judgement(w, h, None, c));
    } else {
      StrayTells(w, h, c);
    }
  }

  lemma ReleasedTells(p: World, senders: seq<Embed<Chan>>, via: SubChannelId, c: SubChannelId)
    requires Base(p) && p.CanMeetAll(senders, via) && c in p.home
    ensures c in p.book && Tells(p, p.MeetAll(Release, senders, via), c, Leaks(Count(senders, c)))
  {
    MeetAllTells(p, Release, senders, via, c);
  }

  lemma ScatteredTells(w: World, h: Chan, i: nat, c: SubChannelId)
    requires Good(w) && w.CanDeliver(h) && w.queue[h][0].Data? && i <= |w.queue[h][0].senders| && c in w.home
    ensures c in w.book && c in Scattered(w, h, i).book
    ensures Tells(w, Scattered(w, h, i), c, Leaks(Count(w.queue[h][0].senders[i..], c)))
  {
    hide Alive, Coupled, Base, Count, World.CanMeetAll, Tells, World.MeetAll, Both;
    var msg, t := w.queue[h][0], FirstArrived(w, h, i);
    FirstProvided(w, h, i);
    OthersProvided(w, h, i);
    assert c in w.book && c in t.book && c in t.home && c in Scattered(w, h, i).book;
    hide World.Shaped, EmbedsOk;
    MeetAllTells(w, Arrive, msg.senders[..i], msg.scid, c);
    MeetAllTells(t, Strand, msg.senders[i..], msg.scid, c);
    var n := Count(msg.senders[i..], c);
    TellsTwice(w, t, Scattered(w, h, i), c, Leaks(0), Leaks(n));
    BothOf(0, n, []);
  }

  lemma LostTells(a: World, h: Chan, c: SubChannelId)
    requires a.CanDeliver(h) && a.queue[h][0].Data? && a.queue[h][0].scid in a.book && c in a.book
    ensures Tells(a, a.Lost(h), c, Fates(if a.queue[h][0].scid == c then [false] else []))
  {
  }

  lemma LostDataTells(w: World, h: Chan, i: nat, c: SubChannelId)
    requires Good(w) && w.CanDeliver(h) && w.queue[h][0].Data? && i < |w.queue[h][0].senders| && c in w.home
    ensures c in w.book && Scattered(w, h, i).CanDeliver(h) && w.queue[h][0].scid in Scattered(w, h, i).book
    ensures Tells(w, Scattered(w, h, i).Lost(h), c,
                  Fates(Judgement(w, h, Some(i), c)).(leaks := Count(w.queue[h][0].senders[i..], c)))
  {
    hide Base, Coupled, Alive, Scattered, World.Lost, World.MeetAll, Tells, World.CanMeetAll, EmbedsOk, Count;
    var a, n := Scattered(w, h, i), Count(w.queue[h][0].senders[i..], c);
    var fates := Judgement(w, h, Some(i), c);
    LostReady(w, h, i);
    ScatteredTells(w, h, i, c);
    LostTells(a, h, c);
    TellsTwice(w, a, a.Lost(h), c, Leaks(n), Fates(fates));
    BothOf(n, 0, fates);
  }

  lemma LoseDataTells(w: World, h: Chan, i: nat, c: SubChannelId)
    requires Good(w) && w.CanDeliver(h) && w.queue[h][0].Data? && i < |w.queue[h][0].senders| && c in w.home
    ensures c in w.book
    ensures Tells(w, LoseData(w, h, i), c, DeliverToll(w, h, Some(i), c))
  {
    hide Base, Coupled, Alive, Scattered, World.Lost, World.MeetAll, Tells, World.CanMeetAll, EmbedsOk, Count;
    hide Judgement, Both, Leaks, World.Shaped, MsgOk;
    LostReady(w, h, i);
    var p, msg := Scattered(w, h, i).Lost(h), w.queue[h][0];
    var fates, n, m := Judgement(w, h, Some(i), c), Count(msg.senders[i..], c), Count(msg.senders[..i], c);
    LostDataTells(w, h, i, c);
    ReleasedTells(p, msg.senders[..i], msg.scid, c);
    TellsTwice(w, p, LoseData(w, h, i), c, Fates(fates).(leaks := n), Leaks(m));
    BothOf(n, m, fates);
    CountSplit(msg.senders, i, c);
  }

  lemma QuietTells(w: World, h: Chan, c: SubChannelId)
    requires w.Shaped() && w.CanDeliver(h) && !w.queue[h][0].Data? && c in w.home
    ensures c in w.book && Tells(w, w.Popped(h), c, Nothing)
  {
    hide World.Handled;
  }

  lemma WaivedTells(w: World, h: Chan, c: SubChannelId)
    requires w.Shaped() && w.CanDeliver(h) && w.queue[h][0].Sending? && w.queue[h][0].scid in w.book && c in w.home
    ensures c in w.book
    ensures Tells(w, w.Waived(h), c,
                  Nothing.(waives := if w.queue[h][0].scid == c then multiset{w.queue[h][0].via} else multiset{}))
  {
    hide Demux.Refused;
  }

  lemma DeliverTells(w: World, h: Chan, fault: Fault, c: SubChannelId)
    requires Good(w) && w.CanDeliver(h) && CanFail(w.queue[h][0], fault) && c in w.home
    ensures c in w.book && Tells(w, Delivery.Deliver(w, h, fault), c, DeliverToll(w, h, fault, c))
  {
    hide Base, Coupled, Alive, DeliverData, LoseData, Tells;
    if !w.queue[h][0].Data? {
      if fault.None? {
        QuietTells(w, h, c);
      } else {
        WaivedShaped(w, h);
        WaivedTells(w, h, c);
      }
    } else if fault.None? {
      DeliverDataTells(w, h, c);
    } else {
      LoseDataTells(w, h, fault.value, c);
    }
  }

  /** Whether each of `n` items taken from `v` is handed out, as far as `c` is concerned. */
  function Handouts(v: SubChannelId, n: nat, give: bool, c: SubChannelId): seq<bool> {
    if v == c then seq(n, _ => give) else []
  }

  lemma TakenTold(b: Book, items: seq<Item>, give: bool)
    ensures var handed := seq(|items|, _ => give);
            Told(b, b.(taken := b.taken + items, handed := b.handed + handed), Hands(handed))
  {
  }

  lemma UntouchedTold(b: Book)
    ensures Told(b, b, Hands([]))
  {
  }

  lemma TakeTells(w: World, v: SubChannelId, n: nat, give: bool, hangUp: bool, c: SubChannelId)
    requires w.Shaped() && v in w.home && n <= |w.Local(v)| && c in w.book
    ensures Tells(w, w.Take(v, n, give, hangUp), c, Hands(Handouts(v, n, give, c)))
    ensures w.Take(v, n, give, hangUp).home == w.home && c in w.Take(v, n, give, hangUp).book
  {
    assert v in w.book;
    hide World.Shaped, Told;
    TakenTold(w.book[v], w.Local(v)[..n], give);
    UntouchedTold(w.book[c]);
  }

  lemma WithdrawTells(w: World, v: SubChannelId, n: nat, give: bool, hangUp: bool, fate: Fate, c: SubChannelId)
    requires Base(w) && v in w.home && n <= |w.Local(v)| && c in w.home && !fate.Release? && !fate.Strand?
    ensures c in w.book && Tells(w, Withdraw(w, v, n, give, hangUp, fate), c, Hands(Handouts(v, n, give, c)))
  {
    hide World.Take, World.MeetAll, LocalCargo, World.CanMeetAll, Tells, TablesOk, Addressed, EndsOk;
    TakeReady(w, v, n, give, hangUp);
    TakeTells(w, v, n, give, hangUp, c);
    var t, cargo := w.Take(v, n, give, hangUp), LocalCargo(w.Local(v)[..n]);
    MeetAllTells(t, fate, cargo, v, c);
    TellsTwice(w, t, t.MeetAll(fate, cargo, v), c, Hands(Handouts(v, n, give, c)), Nothing);
    BothOf(0, 0, Handouts(v, n, give, c));
  }

  /** The copies that were not rebuilt leak, and no others. */
  lemma SpoilTells(t: World, cargo: seq<Embed<Chan>>, i: nat, v: SubChannelId, c: SubChannelId)
    requires t.CanMeetAll(cargo, v) && i <= |cargo| && c in t.home && c in t.book
    ensures Tells(t, Spoil(t, cargo, i, v), c, Leaks(Count(cargo[i..], c)))
  {
    hide World.MeetAll, Tells, Count, Both, Leaks, LeakedAt;
    var first, rest := cargo[..i], cargo[i..];
    var n, m := Count(first, c), Count(rest, c);
    var a := t.MeetAll(Accept, first, v);
    var b := a.MeetAll(Shed, first, v);
    assert c in a.book && c in b.book;
    hide World.Shaped;
    MeetAllTells(t, Accept, first, v, c);
    MeetAllTells(a, Shed, first, v, c);
    MeetAllTells(b, Release, rest, v, c);
    LeakedAtAre(n, m);
    TellsTwice(t, a, b, c, Leaks(0), Leaks(0));
    BothOf(0, 0, []);
    TellsTwice(t, b, Spoil(t, cargo, i, v), c, Leaks(0), Leaks(m));
    BothOf(0, m, []);
  }

  lemma LeakedAtAre(n: nat, m: nat)
    ensures LeakedAt(Accept, n) == LeakedAt(Shed, n) == Leaks(0) && LeakedAt(Release, m) == Leaks(m)
  {
    hide Leaks;
  }

  lemma RecvTells(w: World, v: SubChannelId, fault: Fault, c: SubChannelId)
    requires Good(w) && w.CanRecv(v) && CanTake(w, v, fault) && c in w.home && c in w.book
    ensures Tells(w, Delivery.Recv(w, v, fault), c, RecvToll(w, v, fault, c))
  {
    hide World.Take, World.MeetAll, LocalCargo, World.CanMeetAll, Tells, Alive, Coupled, TablesOk, Addressed, EndsOk;
    hide Spoil, Withdraw;
    assert Handouts(v, 1, fault.None?, c) == if v == c then [fault.None?] else [];
    if fault.None? {
      WithdrawTells(w, v, 1, true, false, Accept, c);
      BothOf(0, 0, Handouts(v, 1, true, c));
    } else {
      TakeReady(w, v, 1, false, false);
      TakeTells(w, v, 1, false, false, c);
      var t, cargo := w.Take(v, 1, false, false), LocalCargo(w.Local(v)[..1]);
      SpoilTells(t, cargo, fault.value, v, c);
      TellsTwice(w, t, Spoil(t, cargo, fault.value, v), c,
                 Hands(Handouts(v, 1, false, c)), Leaks(Unbuilt(w, v, fault, c)));
      BothOf(0, Unbuilt(w, v, fault, c), Handouts(v, 1, false, c));
    }
  }

  lemma DropTells(w: World, a: SubChannelId, x: Source, ch: Chan, c: SubChannelId)
    requires w.Shaped() && w.Spare(a, x, ch) && c in w.book
    ensures Tells(w, w.Drop(a, x, ch), c, Nothing)
  {
    UntrackTells(w.SetBook(a, w.book[a].(live := w.book[a].live - multiset{x})), a, x, ch, c);
    hide World.Untrack;
  }

  lemma VanishTells(w: World, a: SubChannelId, x: Source, c: SubChannelId)
    requires w.Shaped() && a in w.home && c in w.book
    ensures Tells(w, w.Vanish(a, x), c, Nothing.(orphans := a == c))
  {
    hide World.Orphan, World.View;
  }

  lemma LearnTells(w: World, a: SubChannelId, x: Source, c: SubChannelId)
    requires a in w.book && c in w.book
    ensures Tells(w, w.Learn(a, x), c, Nothing.(orphans := a == c))
  {
  }

  lemma BeginTransportTells(w: World, a: SubChannelId, x: Source, ch: Chan, c: SubChannelId)
    requires w.Shaped() && w.Spare(a, x, ch) && c in w.book
    ensures Tells(w, w.BeginTransport(a, x, ch), c, Nothing)
  {
    var carried := w.book[a].carried + multiset{w.minted};
    var told := w.Mint(a, ch).SetBook(a, w.book[a].(carried := carried)).Enqueue(ch, SendingViaIpcChannel(a, w.minted));
    var t := told.SetBook(a, w.book[a].(carried := carried, live := w.book[a].live - multiset{x}));
    TransportBooked(w, told, t, a, x, ch, c);
    UntrackTells(t, a, x, ch, c);
    hide World.Untrack, World.Enqueue, World.Shaped, Tells;
    TellsTwice(w, t, w.BeginTransport(a, x, ch), c, Leaks(0), Leaks(0));
    BothOf(0, 0, []);
  }

  lemma TransportBooked(w: World, told: World, t: World, a: SubChannelId, x: Source, ch: Chan, c: SubChannelId)
    requires a in w.book && c in w.book && a in told.book && told.home == w.home
    requires told.book == w.book[a := w.book[a].(carried := told.book[a].carried)]
    requires t == told.SetBook(a, w.book[a].(carried := told.book[a].carried, live := w.book[a].live - multiset{x}))
    ensures Tells(w, t, c, Nothing)
  {
    assert Told(w.book[c], t.book[c], Nothing);
    hide Told;
  }

  lemma EndTransportTells(w: World, a: SubChannelId, n: nat, ch: Chan, c: SubChannelId)
    requires a in w.book && ch in w.queue && c in w.book
    ensures Tells(w, w.EndTransport(a, n, ch), c, Nothing)
  {
    hide World.Enqueue;
  }

  lemma AnnounceTells(w: World, a: SubChannelId, x: Source, ch: Chan, via: SubChannelId, viaChan: Chan, c: SubChannelId)
    requires w.Holds(a, x, ch) && c in w.book
    ensures Tells(w, w.Announce(a, x, ch, via, viaChan), c, Nothing)
  {
    hide World.Enqueue;
  }

  lemma CrashKeys(w: World, h: Chan)
    requires w.Shaped() && h in w.queue
    ensures w.Crash(h).book.Keys == w.book.Keys
  {
    hide World.View, Life.Sub.GoDown;
  }

  lemma CrashBook(w: World, h: Chan, c: SubChannelId)
    requires w.Shaped() && h in w.queue && c in w.book
    ensures w.Crash(h).home == w.home && w.Crash(h).book.Keys == w.book.Keys
    ensures w.Crash(h).book[c].fates == w.book[c].fates && w.Crash(h).book[c].waived == w.book[c].waived
    ensures w.Crash(h).book[c].handed == w.book[c].handed && w.Crash(h).book[c].taken == w.book[c].taken
    ensures |w.Crash(h).book[c].leaked| == |w.book[c].leaked| + Downed(w, h, c)
  {
    CrashKeys(w, h);
    hide Life.On, Purge;
  }

  lemma CrashTells(w: World, h: Chan, c: SubChannelId)
    requires w.Shaped() && h in w.queue && c in w.book
    ensures Tells(w, w.Crash(h), c, Leaks(Downed(w, h, c)).(orphans := true))
  {
    hide Downed, World.Crash, World.Shaped, Tells;
    CrashBook(w, h, c);
    TellsSilently(w, w.Crash(h), c, Downed(w, h, c));
  }

  lemma TellsSilently(w: World, t: World, c: SubChannelId, n: nat)
    requires c in w.book && t.home == w.home && t.book.Keys == w.book.Keys
    requires t.book[c].fates == w.book[c].fates && t.book[c].waived == w.book[c].waived
    requires t.book[c].handed == w.book[c].handed && t.book[c].taken == w.book[c].taken
    requires |t.book[c].leaked| == |w.book[c].leaked| + n
    ensures Tells(w, t, c, Leaks(n).(orphans := true))
  {
  }

  lemma BookTells(w: World, a: SubChannelId, b: Book, c: SubChannelId, n: nat)
    requires a in w.book && c in w.book && b.fates == w.book[a].fates && |b.leaked| == |w.book[a].leaked| + n
    requires b.waived == w.book[a].waived && b.told == w.book[a].told && b.orphaned == w.book[a].orphaned
    requires b.handed == w.book[a].handed && b.taken == w.book[a].taken
    ensures Tells(w, w.SetBook(a, b), c, Leaks(if a == c then n else 0))
  {
  }

  lemma CopyTells(w: World, e: Event, c: SubChannelId)
    requires Good(w) && Enabled(w, e) && c in w.home && c in w.book
    requires e.Clone? || e.Drop? || e.Vanish? || e.Learn? || e.Announce? || e.Abandon? || e.Transmit?
    ensures Tells(w, Next(w, e), c, TollOf(w, e, c))
  {
    hide Alive, Coupled, TablesOk, Addressed, Tells, World.SetBook;
    match e
    case Clone(a, x, _) => BookTells(w, a, w.book[a].(live := w.book[a].live + multiset{x}), c, 0);
    case Drop(a, x, ch) => DropTells(w, a, x, ch, c);
    case Vanish(a, x, _) => VanishTells(w, a, x, c);
    case Learn(a, x) => LearnTells(w, a, x, c);
    case Announce(a, x, ch, via, _, viaChan) => AnnounceTells(w, a, x, ch, via, viaChan, c);
    case Abandon(r, via) =>
      var b := w.book[r.scid];
      BookTells(w, r.scid, b.(borrowed := b.borrowed - multiset{r.source}, announced := b.announced - multiset{via},
                              leaked := b.leaked + multiset{via}), c, 1);
    case Transmit(via, x, ch, payload, riders) => TransmitTells(w, via, ch, payload, riders, c);
  }

  lemma ReceiverTells(w: World, e: Event, c: SubChannelId)
    requires Good(w) && Enabled(w, e) && c in w.home && c in w.book && (e.Recv? || e.DropReceiver?)
    ensures Tells(w, Next(w, e), c, TollOf(w, e, c))
  {
    hide Alive, Coupled, TablesOk, Addressed, Tells, World.Take, World.MeetAll, LocalCargo, World.CanMeetAll;
    hide Delivery.Recv, RecvToll, Withdraw;
    if e.Recv? {
      RecvTells(w, e.c, e.fault, c);
    } else {
      WithdrawTells(w, e.c, |w.Local(e.c)|, false, true, Refuse, c);
    }
  }

  lemma TransportTells(w: World, e: Event, c: SubChannelId)
    requires Good(w) && Enabled(w, e) && c in w.home && c in w.book
    requires e.BeginTransport? || e.EndTransport? || e.LoseTransport?
    ensures Tells(w, Next(w, e), c, TollOf(w, e, c))
  {
    hide Alive, Coupled, TablesOk, Addressed, Tells, World.SetBook, World.BeginTransport, World.EndTransport;
    match e
    case BeginTransport(a, x, ch) => BeginTransportTells(w, a, x, ch, c);
    case EndTransport(a, n) => EndTransportTells(w, a, n, w.home[a], c);
    case LoseTransport(a, n) =>
      BookTells(w, a, w.book[a].(carried := w.book[a].carried - multiset{n},
                                 leaked := w.book[a].leaked + multiset{EMPTY_SUBCHANNEL_ID}), c, 1);
  }

  /** But for polls, the histories grow exactly as `TollOf` says. */
  lemma LeaksExactly(w: World, e: Event, c: SubChannelId)
    requires Good(w) && Enabled(w, e) && c in w.home && c in w.book && !e.Poll?
    ensures Tells(w, Next(w, e), c, TollOf(w, e, c))
  {
    hide Alive, Coupled, Tells, Undelivered, Judgement, World.Crash, Life.On, TablesOk, Addressed, EndsOk;
    assert e.Crash? ==> w.Shaped() && e.h in w.queue;
    match e
    case Deliver(h, fault) => DeliverTells(w, h, fault, c);
    case Recv(_, _) => ReceiverTells(w, e, c);
    case DropReceiver(_) => ReceiverTells(w, e, c);
    case Crash(h) => CrashTells(w, h, c);
    case BeginTransport(_, _, _) => TransportTells(w, e, c);
    case EndTransport(_, _) => TransportTells(w, e, c);
    case LoseTransport(_, _) => TransportTells(w, e, c);
    case _ => CopyTells(w, e, c);
    hide Enabled, Next, TollOf;
  }

  // ---------------------------------------------------------------------------------------
  // What a `recv` loses
  // ---------------------------------------------------------------------------------------

  /** The payload is what the caller expects: rebuilding stops only where an arrival cannot be reported. */
  ghost predicate Understood(w: World, v: SubChannelId, fault: Fault)
    requires w.CanRecv(v) && CanTake(w, v, fault)
  {
    var cargo := LocalCargo(w.Local(v)[..1]);
    fault.Some? ==> fault.value < |cargo| && cargo[fault.value].sender in w.dead
  }

  lemma {:induction false} CountsAt(senders: seq<Embed<Chan>>, j: nat)
    requires j < |senders|
    ensures Count(senders, senders[j].scid) > 0
  {
    if j > 0 {
      CountsAt(senders[1..], j - 1);
    }
  }

  /** Copies of living subchannels are left behind exactly if some are behind one of a dead channel. */
  ghost predicate Behind(dead: set<Chan>, cargo: seq<Embed<Chan>>) {
    exists i, j | 0 <= i < j < |cargo| :: cargo[i].sender in dead && cargo[j].sender !in dead
  }

  lemma BehindIff(home: Homes, dead: set<Chan>, cargo: seq<Embed<Chan>>, i: nat)
    requires EmbedsOk(home, cargo) && i < |cargo| && cargo[i].sender in dead && Reachable(dead, cargo[..i])
    ensures (forall c | c in home && home[c] !in dead :: Count(cargo[i..], c) == 0) <==> !Behind(dead, cargo)
  {
    var rest := cargo[i..];
    assert forall k | 0 <= k < i :: cargo[k] == cargo[..i][k];
    if Behind(dead, cargo) {
      var k, j :| 0 <= k < j < |cargo| && cargo[k].sender in dead && cargo[j].sender !in dead;
      CountsAt(rest, j - i);
      assert rest[j - i] == cargo[j] && EmbedOk(home, cargo[j]);
    } else {
      forall c | c in home && home[c] !in dead ensures Count(rest, c) == 0 {
        forall k | 0 <= k < |rest| ensures EmbedOk(home, rest[k]) && rest[k].sender != home[c] {
          assert rest[k] == cargo[i + k];
        }
        NoneElsewhere(home, rest, c);
      }
    }
  }

  /**
   A `recv` of a message of the expected type hands it to the caller if and only if the home
   channel of every subsender in it lives. It leaves no copy of a living subchannel behind if and
   only if in the message none follows one whose home channel is dead.
   */
  lemma RecvLosesNothingIff(w: World, v: SubChannelId, fault: Fault)
    requires Base(w) && w.CanRecv(v) && CanTake(w, v, fault) && Understood(w, v, fault)
    ensures RecvToll(w, v, fault, v).hands == [Reachable(w.dead, ItemCargo(w.Local(v)[0]))]
    ensures (forall c | c in w.home && w.home[c] !in w.dead :: RecvToll(w, v, fault, c).leaks == 0)
            <==> !Behind(w.dead, ItemCargo(w.Local(v)[0]))
  {
    hide LocalCargo, Count, ItemCargo, TablesOk, Addressed, EndsOk, EmbedsOk;
    var cargo := LocalCargo(w.Local(v)[..1]);
    HeadCargo(w, v);
    TakeReady(w, v, 1, false, false);
    hide Base, World.Shaped;
    if fault.Some? {
      BehindIff(w.home, w.dead, cargo, fault.value);
    }
  }

  /**
   For instance: a message brings a copy of a subchannel whose home channel has died, and behind it
   a copy of one that lives. Receiving it can only fail, and the second copy leaks.
   */
  lemma LeftBehind(w: World, v: SubChannelId, a: Embed<Chan>, b: Embed<Chan>)
    requires Good(w) && w.CanRecv(v) && LocalCargo(w.Local(v)[..1]) == [a, b]
    requires a.sender in w.dead && b.sender !in w.dead && b.scid in w.book && a.scid != b.scid
    ensures forall fault: Fault :: CanTake(w, v, fault) <==> fault == Some(0)
    ensures var t := Delivery.Recv(w, v, Some(0));
            b.scid in t.book && |t.book[b.scid].leaked| == |w.book[b.scid].leaked| + 1
  {
    hide Base, Alive, Coupled, Spoil, Withdraw;
    TwoInside(w, v, a, b);
    GoodShape(w);
    hide Good, LocalCargo, CanTake, Delivery.Recv;
    CountSecond(a, b);
    RecvTells(w, v, Some(0), b.scid);
  }

  lemma TwoInside(w: World, v: SubChannelId, a: Embed<Chan>, b: Embed<Chan>)
    requires w.CanRecv(v) && LocalCargo(w.Local(v)[..1]) == [a, b] && a.sender in w.dead
    ensures forall fault: Fault :: CanTake(w, v, fault) <==> fault == Some(0)
  {
    HeadCargo(w, v);
    assert LocalCargo(w.Local(v)[..1])[0] == a;
    forall i: nat | 0 < i <= 2 ensures !Reachable(w.dead, LocalCargo(w.Local(v)[..1])[..i]) {
      assert LocalCargo(w.Local(v)[..1])[..i][0] == a;
    }
  }

  lemma CountSecond(a: Embed<Chan>, b: Embed<Chan>)
    requires a.scid != b.scid
    ensures Count([a, b][0..], b.scid) == 1
  {
    assert [a, b][0..] == [a] + [b];
    CountAppend([a], [b], b.scid);
    assert [a][1..] == [] && [b][1..] == [];
  }

  lemma HeadCargo(w: World, v: SubChannelId)
    requires w.CanRecv(v)
    ensures LocalCargo(w.Local(v)[..1]) == ItemCargo(w.Local(v)[0])
  {
    var head := w.Local(v)[..1];
    assert head[1..] == [] && LocalCargo(head) == ItemCargo(head[0]) + LocalCargo(head[1..]);
  }

  // ---------------------------------------------------------------------------------------
  // What events leave alone
  // ---------------------------------------------------------------------------------------

  /** Where subchannels are homed never changes; only a crash kills a channel and only a drop hangs up. */
  ghost predicate StaysHome(w: World, e: Event, t: World) {
    && t.home == w.home && (!e.Crash? ==> t.dead == w.dead) && t.demux.Keys == w.demux.Keys
    && forall h | h in w.demux ::
         w.demux[h].hungUp <= t.demux[h].hungUp <= w.demux[h].hungUp + if e.DropReceiver? then {e.c} else {}
  }

  lemma NextHome(w: World, e: Event)
    requires Good(w) && Enabled(w, e)
    ensures StaysHome(w, e, Next(w, e))
  {
    hide Good, Enabled, Next, StaysHome;
    if e.Drop? || e.BeginTransport? || e.Vanish? {
      SpareHome(w, e);
    } else if e.Deliver? {
      DeliverHome(w, e.h, e.fault);
    } else if e.Recv? || e.DropReceiver? {
      TakeHome(w, e);
    } else if e.Poll? {
      PollHome(w, e.c, e.failing);
    } else if e.Announce? || e.Transmit? || e.EndTransport? {
      SendHome(w, e);
    } else {
      BookHome(w, e);
    }
  }

  lemma StaysPut(w: World, e: Event, t: World)
    requires t.home == w.home && (!e.Crash? ==> t.dead == w.dead) && t.demux == w.demux
    ensures StaysHome(w, e, t)
  {
  }

  lemma SpareHome(w: World, e: Event)
    requires Good(w) && Enabled(w, e) && (e.Drop? || e.BeginTransport? || e.Vanish?)
    ensures StaysHome(w, e, Next(w, e))
  {
    hide World.Untrack, World.Orphan, World.Enqueue, Alive, Coupled, TablesOk, Addressed, World.View, StaysHome;
    StaysPut(w, e, Next(w, e));
  }

  lemma PollHome(w: World, c: SubChannelId, failing: set<SubChannelId>)
    requires Good(w) && Enabled(w, Event.Poll(c, failing))
    ensures StaysHome(w, Event.Poll(c, failing), Next(w, Event.Poll(c, failing)))
  {
    hide Alive, Coupled, TablesOk, Addressed, Machine.Poll, Life.Sub.Poll;
  }

  lemma TakeHome(w: World, e: Event)
    requires Good(w) && Enabled(w, e) && (e.Recv? || e.DropReceiver?)
    ensures StaysHome(w, e, Next(w, e))
  {
    hide Alive, Coupled, World.Take, World.MeetAll, LocalCargo, EmbedsOk, World.CanMeetAll, TablesOk, Addressed;
    var n := if e.Recv? then 1 else |w.Local(e.c)|;
    var give := e.Recv? && e.fault.None?;
    TakeReady(w, e.c, n, give, e.DropReceiver?);
    TakeFrame(w, e.c, n, give, e.DropReceiver?);
  }

  lemma TakeFrame(w: World, v: SubChannelId, n: nat, give: bool, hangUp: bool)
    requires w.Shaped() && v in w.home && n <= |w.Local(v)|
    ensures var t := w.Take(v, n, give, hangUp);
            && t.home == w.home && t.dead == w.dead && t.demux.Keys == w.demux.Keys
            && forall h | h in w.demux ::
                 w.demux[h].hungUp <= t.demux[h].hungUp <= w.demux[h].hungUp + if hangUp then {v} else {}
  {
  }

  lemma SendHome(w: World, e: Event)
    requires Good(w) && Enabled(w, e) && (e.Announce? || e.Transmit? || e.EndTransport?)
    ensures StaysHome(w, e, Next(w, e))
  {
    hide Alive, Coupled, TablesOk, Addressed, World.BoardAll, StaysHome;
    StaysPut(w, e, Next(w, e));
  }

  lemma BookHome(w: World, e: Event)
    requires Good(w) && Enabled(w, e)
    requires e.Clone? || e.Learn? || e.Abandon? || e.Crash? || e.LoseTransport?
    ensures StaysHome(w, e, Next(w, e))
  {
    hide Alive, Coupled, TablesOk, Addressed, Life.Sub.GoDown, World.View, StaysHome;
    StaysPut(w, e, Next(w, e));
  }

  lemma DeliverHome(w: World, h: Chan, fault: Fault)
    requires Good(w) && Enabled(w, Deliver(h, fault))
    ensures StaysHome(w, Deliver(h, fault), Next(w, Deliver(h, fault)))
  {
    hide Good, StaysHome, Delivery.Deliver, CanFail;
    DeliverStays(w, h, fault);
  }

  lemma DeliverStays(w: World, h: Chan, fault: Fault)
    requires Good(w) && w.CanDeliver(h) && CanFail(w.queue[h][0], fault)
    ensures StaysHome(w, Event.Deliver(h, fault), Delivery.Deliver(w, h, fault))
  {
    hide Base, Alive, Coupled, DeliverData, LoseData;
    if w.queue[h][0].Data? {
      if fault.None? {
        DeliverDataHome(w, h);
      } else {
        LoseDataHome(w, h, fault.value);
      }
    } else if fault.Some? {
      RefusedFrame(w.demux[h], w.queue[h][0].scid, w.queue[h][0].via);
      hide Demux.Refused;
    } else {
      ActFrame(w.demux[h], w.queue[h][0]);
      hide Demux.Act;
    }
  }

  lemma ActFrame(d: Demux.Tables<Chan>, msg: Msg)
    ensures Demux.Act(d, msg, true).tables.hungUp == d.hungUp
  {
  }

  lemma RefusedFrame(d: Demux.Tables<Chan>, c: SubChannelId, via: SubChannelId)
    ensures Demux.Refused(d, c, via).tables.hungUp == d.hungUp
  {
  }

  lemma PoppedHome(a: World, h: Chan)
    requires a.CanDeliver(h)
    ensures var p := a.Popped(h);
            && p.home == a.home && p.dead == a.dead && p.demux.Keys == a.demux.Keys
            && forall g | g in a.demux :: p.demux[g].hungUp == a.demux[g].hungUp
  {
    ActFrame(a.demux[h], a.queue[h][0]);
    hide Demux.Act;
  }

  lemma DeliverDataHome(w: World, h: Chan)
    requires Good(w) && w.CanDeliver(h) && w.queue[h][0].Data?
    ensures StaysHome(w, Event.Deliver(h, None), DeliverData(w, h))
  {
    hide Base, Alive, Coupled, World.Popped, World.MeetAll;
    DeliverReady(w, h);
    HeadProvided(w, h);
    PoppedHome(Arrived(w, h), h);
  }

  lemma LoseDataHome(w: World, h: Chan, i: nat)
    requires Good(w) && w.CanDeliver(h) && w.queue[h][0].Data? && i < |w.queue[h][0].senders|
    ensures StaysHome(w, Event.Deliver(h, Some(i)), LoseData(w, h, i))
  {
    hide Base, Alive, Coupled, World.MeetAll;
    LostReady(w, h, i);
    FirstProvided(w, h, i);
    OthersProvided(w, h, i);
  }
}
