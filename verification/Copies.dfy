/**
 Events that concern copies of subsenders and the messages about them keep the invariant of the
 whole system.
 */
module Copies {
  import opened Protocol
  import opened SubchannelLifecycle
  import Life = Subchannel
  import opened System

  // ---------------------------------------------------------------------------------------
  // The two elementary changes
  // ---------------------------------------------------------------------------------------

  lemma EnqueueBase(w: World, ch: Chan, msg: Msg)
    requires Base(w) && ch in w.queue && MsgOk(w.home, ch, msg)
    ensures Base(w.Enqueue(ch, msg))
  {
    var t := w.Enqueue(ch, msg);
    forall h | h in t.queue ensures forall i | 0 <= i < |t.queue[h]| :: MsgOk(t.home, h, t.queue[h][i]) {
      assert forall i | 0 <= i < |w.queue[h]| :: MsgOk(w.home, h, w.queue[h][i]);
    }
  }

  /** A message enters the notes of the subchannel it is about, and of no other. */
  lemma EnqueueView(w: World, ch: Chan, msg: Msg, c: SubChannelId)
    requires Base(w) && ch in w.queue && MsgOk(w.home, ch, msg)
    requires c in w.home && w.home[c] !in w.dead
    ensures w.Enqueue(ch, msg).Shaped()
    ensures w.Enqueue(ch, msg).View(c) == w.View(c).(q := w.View(c).q + NoteOf(msg, c))
  {
    EnqueueBase(w, ch, msg);
    if w.home[c] == ch {
      NotesAppend(w.queue[ch], msg, c);
    } else {
      assert NoteOf(msg, c) == [];
    }
  }

  lemma EnqueueCoupled(w: World, ch: Chan, msg: Msg)
    requires Base(w) && Coupled(w) && ch in w.queue && MsgOk(w.home, ch, msg) && !msg.Data?
    ensures w.Enqueue(ch, msg).Shaped() && Coupled(w.Enqueue(ch, msg))
  {
    EnqueueBase(w, ch, msg);
    var t := w.Enqueue(ch, msg);
    forall v, c | v in t.home && c in t.home && t.home[v] !in t.dead ensures CoupledAt(t, v, c) {
      assert CoupledAt(w, v, c);
      QueuedAppend(w.queue[ch], msg, v);
      assert QueuedCargo(t.queue[t.home[v]], v) == QueuedCargo(w.queue[w.home[v]], v);
    }
  }

  /** The entry of a book, put into the view of its subchannel. */
  ghost function Booked(s: Life.Sub, b: Book): Life.Sub {
    s.(live := b.live, borrowed := b.borrowed, announced := b.announced, transit := b.transit,
       pending := b.pending, carried := b.carried, leaked := b.leaked, waived := b.waived,
       orphaned := b.orphaned, sent := b.sent, fates := b.fates, told := b.told)
  }

  lemma SetBookView(w: World, c: SubChannelId, b: Book)
    requires Base(w) && c in w.home && b.taken == w.book[c].taken
    ensures Base(w.SetBook(c, b))
    ensures w.SetBook(c, b).View(c) == Booked(w.View(c), b)
    ensures forall d | d in w.home && d != c :: w.SetBook(c, b).View(d) == w.View(d)
  {
  }

  lemma SetBookCoupled(w: World, c: SubChannelId, b: Book)
    requires Base(w) && Coupled(w) && c in w.home && b.taken == w.book[c].taken
    requires b.transit == w.book[c].transit && b.pending == w.book[c].pending
    ensures w.SetBook(c, b).Shaped() && Coupled(w.SetBook(c, b))
  {
    hide TablesOk, Addressed, EndsOk;
    var t := w.SetBook(c, b);
    forall v, d | v in t.home && d in t.home && t.home[v] !in t.dead ensures CoupledAt(t, v, d) {
      assert CoupledAt(w, v, d) && t.Local(v) == w.Local(v);
    }
  }

  lemma AddEndView(w: World, c: SubChannelId, x: Source, ch: Chan)
    requires Base(w) && c in w.home && w.home[c] == ch
    ensures Base(w.AddEnd(c, x, ch))
    ensures forall d | d in w.home :: w.AddEnd(c, x, ch).View(d) == w.View(d)
    ensures Coupled(w) ==> Coupled(w.AddEnd(c, x, ch))
  {
    var t := w.AddEnd(c, x, ch);
    if Coupled(w) {
      forall v, d | v in t.home && d in t.home && t.home[v] !in t.dead ensures CoupledAt(t, v, d) {
        assert CoupledAt(w, v, d);
      }
    }
  }

  /** A message about `c` becomes a note of `c`. */
  lemma TellView(w: World, c: SubChannelId, ch: Chan, msg: Msg, d: SubChannelId)
    requires Base(w) && ch in w.queue && MsgOk(w.home, ch, msg)
    requires c in w.home && d in w.home && w.home[d] !in w.dead
    requires |NoteOf(msg, c)| == 1 && forall a :: a != c ==> NoteOf(msg, a) == []
    ensures w.Enqueue(ch, msg).View(d) == if d == c then w.View(d).Enqueue(NoteOf(msg, c)[0]) else w.View(d)
  {
    EnqueueView(w, ch, msg, d);
    assert w.View(d).q + [] == w.View(d).q;
    assert d == c ==> NoteOf(msg, c) == [NoteOf(msg, c)[0]];
  }

  // ---------------------------------------------------------------------------------------
  // Copies leaving a data message
  // ---------------------------------------------------------------------------------------

  ghost function Fared(fate: Fate, s: Life.Sub, via: SubChannelId): Life.Sub
    requires via in s.home
  {
    match fate
    case Arrive => s.Arrive(via)
    case Strand => s.Strand(via)
    case Accept => s.Accept(via)
    case Refuse => s.Refuse(via)
    case Shed => s.Drop(Receiver(s.home[via]))
    case Release => s.Release(via)
  }

  /** How many copies are where they must be for their fate; a borrowed one may not be dropped. */
  function Room(fate: Fate, b: Book, via: SubChannelId, x: Source): nat {
    if Early(fate) then b.transit[via]
    else if !fate.Shed? then b.pending[via]
    else if x in b.live && x in b.borrowed then b.live[x] - 1 else b.live[x]
  }

  /** The state after the tracker has gone, but for the message it sends. */
  ghost function Dropped(w: World, c: SubChannelId, x: Source): World
    requires w.Shaped() && c in w.home
  {
    w.SetBook(c, w.book[c].(orphaned := w.book[c].orphaned - {x}))
  }

  lemma UntrackCases(w: World, c: SubChannelId, x: Source, ch: Chan)
    requires Base(w) && c in w.home && w.home[c] == ch
    ensures Base(Dropped(w, c, x)) && Base(w.Orphan(c, x))
    ensures w.Orphan(c, x).View(c) == w.View(c).Orphan(x)
    ensures Dropped(w, c, x).View(c) == w.View(c).(orphaned := w.View(c).orphaned - {x})
    ensures forall d | d in w.home && d != c ::
              w.Orphan(c, x).View(d) == w.View(d) && Dropped(w, c, x).View(d) == w.View(d)
    ensures Coupled(w) ==> Coupled(Dropped(w, c, x)) && Coupled(w.Orphan(c, x))
    ensures w.Untrack(c, x, ch) == if w.View(c).Held(x) then w else if x in w.book[c].told then w.Orphan(c, x)
                                   else Dropped(w, c, x).Enqueue(ch, Disconnect(c, x))
  {
    var b := w.book[c].(orphaned := w.book[c].orphaned - {x});
    var o := w.book[c].(orphaned := w.View(c).Orphan(x).orphaned);
    SetBookView(w, c, b);
    SetBookView(w, c, o);
    if Coupled(w) {
      SetBookCoupled(w, c, b);
      SetBookCoupled(w, c, o);
    }
  }

  lemma UntrackView(w: World, c: SubChannelId, x: Source, ch: Chan, d: SubChannelId)
    requires Base(w) && c in w.home && w.home[c] == ch && d in w.home && w.home[d] !in w.dead
    ensures Base(w.Untrack(c, x, ch))
    ensures w.Untrack(c, x, ch).View(d) == if d == c then w.View(d).Untrack(x) else w.View(d)
  {
    UntrackCases(w, c, x, ch);
    var p := Dropped(w, c, x);
    EnqueueBase(p, ch, Disconnect(c, x));
    TellView(p, c, ch, Disconnect(c, x), d);
    hide Base, World.View, World.Untrack, World.Enqueue, World.Orphan;
  }

  lemma UntrackBase(w: World, c: SubChannelId, x: Source, ch: Chan)
    requires Base(w) && c in w.home && w.home[c] == ch
    ensures Base(w.Untrack(c, x, ch))
    ensures Coupled(w) ==> Coupled(w.Untrack(c, x, ch))
  {
    UntrackCases(w, c, x, ch);
    var p := Dropped(w, c, x);
    EnqueueBase(p, ch, Disconnect(c, x));
    if Coupled(w) {
      EnqueueCoupled(p, ch, Disconnect(c, x));
    }
    hide Base, Coupled, World.Untrack, World.Enqueue, World.Orphan;
  }

  lemma MeetArrive(w: World, e: Embed<Chan>, via: SubChannelId, d: SubChannelId)
    requires Base(w) && w.CanMeet(e, via) && EmbedOk(w.home, e) && d in w.home && w.home[d] !in w.dead
    ensures w.ArriveOne(e, via).View(d) ==
            if d == e.scid then w.View(d).Arrive(via) else w.View(d)
  {
  }

  lemma MeetStrand(w: World, e: Embed<Chan>, via: SubChannelId, d: SubChannelId)
    requires Base(w) && w.CanMeet(e, via) && EmbedOk(w.home, e) && d in w.home && w.home[d] !in w.dead
    ensures w.StrandOne(e, via).View(d) ==
            if d == e.scid then w.View(d).Strand(via) else w.View(d)
  {
  }

  lemma MeetAccept(w: World, e: Embed<Chan>, via: SubChannelId, d: SubChannelId)
    requires Base(w) && w.CanMeet(e, via) && EmbedOk(w.home, e) && d in w.home && w.home[d] !in w.dead
    ensures w.AcceptOne(e, via).View(d) ==
            if d == e.scid then w.View(d).Accept(via) else w.View(d)
  {
    var x := Receiver(w.home[via]);
    var b' := w.book[e.scid].Fare(Accept, via, x);
    SetBookView(w, e.scid, b');
    var w1 := w.SetBook(e.scid, b');
    AddEndView(w1, e.scid, x, e.sender);
    var w2 := w1.AddEnd(e.scid, x, e.sender);
    TellView(w2, e.scid, e.sender, Received(e.scid, via, x), d);
    assert w.AcceptOne(e, via) == w2.Enqueue(e.sender, Received(e.scid, via, x));
  }

  lemma MeetRefuse(w: World, e: Embed<Chan>, via: SubChannelId, d: SubChannelId)
    requires Base(w) && w.CanMeet(e, via) && EmbedOk(w.home, e) && d in w.home && w.home[d] !in w.dead
    ensures w.RefuseOne(e, via).View(d) ==
            if d == e.scid then w.View(d).Refuse(via) else w.View(d)
  {
    var b' := w.book[e.scid].Fare(Refuse, via, Receiver(w.home[via]));
    SetBookView(w, e.scid, b');
    var w1 := w.SetBook(e.scid, b');
    EnqueueBase(w1, e.sender, ReceiveFailed(e.scid, via));
    TellView(w1, e.scid, e.sender, ReceiveFailed(e.scid, via), d);
    var w2 := w1.Enqueue(e.sender, ReceiveFailed(e.scid, via));
    UntrackView(w2, e.scid, Receiver(w.home[via]), e.sender, d);
    assert w.RefuseOne(e, via) == w2.Untrack(e.scid, Receiver(w.home[via]), e.sender);
  }

  lemma MeetRelease(w: World, e: Embed<Chan>, via: SubChannelId, d: SubChannelId)
    requires Base(w) && w.CanMeet(e, via) && EmbedOk(w.home, e) && d in w.home && w.home[d] !in w.dead
    ensures w.ReleaseOne(e, via).View(d) ==
            if d == e.scid then w.View(d).Release(via) else w.View(d)
  {
    var b' := w.book[e.scid].Fare(Release, via, Receiver(w.home[via]));
    SetBookView(w, e.scid, b');
    var w1 := w.SetBook(e.scid, b');
    UntrackView(w1, e.scid, Receiver(w.home[via]), e.sender, d);
    assert w.ReleaseOne(e, via) == w1.Untrack(e.scid, Receiver(w.home[via]), e.sender);
  }

  lemma MeetShed(w: World, e: Embed<Chan>, via: SubChannelId, d: SubChannelId)
    requires Base(w) && w.CanMeet(e, via) && EmbedOk(w.home, e) && d in w.home && w.home[d] !in w.dead
    ensures w.ShedOne(e, via).View(d) ==
            if d == e.scid then w.View(d).Drop(Receiver(w.home[via])) else w.View(d)
  {
    var b' := w.book[e.scid].Fare(Shed, via, Receiver(w.home[via]));
    SetBookView(w, e.scid, b');
    var w1 := w.SetBook(e.scid, b');
    UntrackView(w1, e.scid, Receiver(w.home[via]), e.sender, d);
    assert w.ShedOne(e, via) == w1.Untrack(e.scid, Receiver(w.home[via]), e.sender);
  }

  lemma MeetView(w: World, fate: Fate, e: Embed<Chan>, via: SubChannelId, d: SubChannelId)
    requires Base(w) && w.CanMeet(e, via) && EmbedOk(w.home, e) && d in w.home && w.home[d] !in w.dead
    ensures w.Meet(fate, e, via).View(d) == if d == e.scid then Fared(fate, w.View(d), via) else w.View(d)
  {
    match fate
    case Arrive => MeetArrive(w, e, via, d);
    case Strand => MeetStrand(w, e, via, d);
    case Accept => MeetAccept(w, e, via, d);
    case Refuse => MeetRefuse(w, e, via, d);
    case Shed => MeetShed(w, e, via, d);
    case Release => MeetRelease(w, e, via, d);
  }

  /** The data messages in the queues are the same. */
  ghost predicate SameCargo(w: World, t: World) {
    && t.home == w.home && t.dead == w.dead && t.demux == w.demux && t.queue.Keys == w.queue.Keys
    && forall v | v in w.home && w.home[v] in w.queue ::
         QueuedCargo(t.queue[w.home[v]], v) == QueuedCargo(w.queue[w.home[v]], v)
  }

  lemma EnqueueCargo(w: World, ch: Chan, msg: Msg)
    requires ch in w.queue && !msg.Data?
    ensures SameCargo(w, w.Enqueue(ch, msg))
  {
    var t := w.Enqueue(ch, msg);
    forall v | v in w.home && w.home[v] in w.queue
      ensures QueuedCargo(t.queue[w.home[v]], v) == QueuedCargo(w.queue[w.home[v]], v)
    {
      QueuedAppend(w.queue[ch], msg, v);
      assert QueuedCargo(w.queue[ch], v) + [] == QueuedCargo(w.queue[ch], v);
    }
  }

  /** Fates of copies inside queued messages. */
  predicate Early(fate: Fate) {
    fate.Arrive? || fate.Strand?
  }

  /** What the fates of `n` copies do to the book of their subchannel. */
  ghost predicate Shifted(fate: Fate, b: Book, b': Book, via: SubChannelId, n: nat) {
    && b'.taken == b.taken
    && (forall v :: b'.transit[v] == if Early(fate) && v == via then b.transit[v] - n else b.transit[v])
    && (forall v :: b'.pending[v] == if v != via || fate.Strand? || fate.Shed? then b.pending[v]
                                     else if fate.Arrive? then b.pending[v] + n else b.pending[v] - n)
  }

  lemma ArriveBase(w: World, e: Embed<Chan>, via: SubChannelId)
    requires Base(w) && w.CanMeet(e, via) && EmbedOk(w.home, e)
    ensures Base(w.ArriveOne(e, via)) && SameCargo(w, w.ArriveOne(e, via))
  {
  }

  lemma StrandBase(w: World, e: Embed<Chan>, via: SubChannelId)
    requires Base(w) && w.CanMeet(e, via) && EmbedOk(w.home, e)
    ensures Base(w.StrandOne(e, via)) && SameCargo(w, w.StrandOne(e, via))
  {
  }

  lemma AcceptBase(w: World, e: Embed<Chan>, via: SubChannelId)
    requires Base(w) && w.CanMeet(e, via) && EmbedOk(w.home, e)
    ensures Base(w.AcceptOne(e, via)) && SameCargo(w, w.AcceptOne(e, via))
  {
    var x := Receiver(w.home[via]);
    var w1 := w.SetBook(e.scid, w.book[e.scid].Fare(Accept, via, x)).AddEnd(e.scid, x, e.sender);
    assert Base(w1);
    EnqueueBase(w1, e.sender, Received(e.scid, via, x));
    EnqueueCargo(w1, e.sender, Received(e.scid, via, x));
  }

  lemma RefuseBase(w: World, e: Embed<Chan>, via: SubChannelId)
    requires Base(w) && w.CanMeet(e, via) && EmbedOk(w.home, e)
    ensures Base(w.RefuseOne(e, via)) && SameCargo(w, w.RefuseOne(e, via))
  {
    var w1 := w.SetBook(e.scid, w.book[e.scid].Fare(Refuse, via, Receiver(w.home[via])));
    assert Base(w1);
    EnqueueBase(w1, e.sender, ReceiveFailed(e.scid, via));
    EnqueueCargo(w1, e.sender, ReceiveFailed(e.scid, via));
    UntrackCargo(w1.Enqueue(e.sender, ReceiveFailed(e.scid, via)), e.scid, Receiver(w.home[via]), e.sender);
  }

  lemma ReleaseBase(w: World, e: Embed<Chan>, via: SubChannelId)
    requires Base(w) && w.CanMeet(e, via) && EmbedOk(w.home, e)
    ensures Base(w.ReleaseOne(e, via)) && SameCargo(w, w.ReleaseOne(e, via))
  {
    var w1 := w.SetBook(e.scid, w.book[e.scid].Fare(Release, via, Receiver(w.home[via])));
    assert Base(w1);
    UntrackCargo(w1, e.scid, Receiver(w.home[via]), e.sender);
  }

  lemma ShedBase(w: World, e: Embed<Chan>, via: SubChannelId)
    requires Base(w) && w.CanMeet(e, via) && EmbedOk(w.home, e)
    ensures Base(w.ShedOne(e, via)) && SameCargo(w, w.ShedOne(e, via))
  {
    var w1 := w.SetBook(e.scid, w.book[e.scid].Fare(Shed, via, Receiver(w.home[via])));
    assert Base(w1);
    UntrackCargo(w1, e.scid, Receiver(w.home[via]), e.sender);
  }

  lemma MeetBase(w: World, fate: Fate, e: Embed<Chan>, via: SubChannelId)
    requires Base(w) && w.CanMeet(e, via) && EmbedOk(w.home, e)
    ensures Base(w.Meet(fate, e, via)) && SameCargo(w, w.Meet(fate, e, via))
  {
    match fate
    case Arrive => ArriveBase(w, e, via);
    case Strand => StrandBase(w, e, via);
    case Accept => AcceptBase(w, e, via);
    case Refuse => RefuseBase(w, e, via);
    case Shed => ShedBase(w, e, via);
    case Release => ReleaseBase(w, e, via);
  }

  lemma FareShifts(fate: Fate, b: Book, via: SubChannelId, x: Source, orphaned: set<Source>)
    requires Room(fate, b, via, x) > 0
    ensures Shifted(fate, b, b.Fare(fate, via, x).(orphaned := orphaned), via, 1)
  {
  }

  lemma UntrackCargo(w: World, c: SubChannelId, x: Source, ch: Chan)
    requires Base(w) && c in w.home && w.home[c] == ch
    ensures Base(w.Untrack(c, x, ch)) && SameCargo(w, w.Untrack(c, x, ch))
  {
    UntrackCases(w, c, x, ch);
    var p := Dropped(w, c, x);
    EnqueueBase(p, ch, Disconnect(c, x));
    EnqueueCargo(p, ch, Disconnect(c, x));
    hide Base, World.Enqueue, World.Untrack;
  }

  lemma FaredKeepsInv(fate: Fate, s: Life.Sub, via: SubChannelId)
    requires Life.Inv(s) && via in s.home
    requires if fate.Shed? then s.Spare(Receiver(s.home[via])) else via in if Early(fate) then s.transit else s.pending
    ensures Life.Inv(Fared(fate, s, via))
  {
    match fate
    case Arrive => Life.ArriveKeepsInv(s, via);
    case Strand => Life.StrandKeepsInv(s, via);
    case Accept => Life.AcceptKeepsInv(s, via);
    case Refuse => Life.RefuseKeepsInv(s, via);
    case Shed => Life.DropKeepsInv(s, Receiver(s.home[via]));
    case Release => Life.ReleaseKeepsInv(s, via);
  }

  lemma MeetKeeps(w: World, fate: Fate, e: Embed<Chan>, via: SubChannelId)
    requires Base(w) && Alive(w) && w.CanMeet(e, via) && EmbedOk(w.home, e)
    requires Room(fate, w.book[e.scid], via, Receiver(w.home[via])) > 0
    ensures Alive(w.Meet(fate, e, via))
  {
    var t := w.Meet(fate, e, via);
    MeetBase(w, fate, e, via);
    forall d | d in t.home && t.home[d] !in t.dead ensures Life.Inv(t.View(d)) {
      MeetView(w, fate, e, via, d);
      if d == e.scid {
        FaredKeepsInv(fate, w.View(d), via);
      }
    }
  }

  lemma ShiftedTwice(fate: Fate, a: Book, b: Book, c: Book, via: SubChannelId, m: nat, n: nat)
    requires Shifted(fate, a, b, via, m) && Shifted(fate, b, c, via, n)
    ensures Shifted(fate, a, c, via, m + n)
  {
  }

  /** All but the first of some copies still have their tokens after the first has gone. */
  lemma RestCovered(b: Book, b': Book, fate: Fate, senders: seq<Embed<Chan>>, via: SubChannelId, x: Source,
                    c: SubChannelId)
    requires senders != []
    requires b' == if senders[0].scid == c then b.Fare(fate, via, x).(orphaned := b'.orphaned) else b
    requires Count(senders, c) <= Room(fate, b, via, x)
    ensures Shifted(fate, b, b', via, Count(senders, c) - Count(senders[1..], c))
    ensures Count(senders[1..], c) <= Room(fate, b', via, x)
  {
    if senders[0].scid == c {
      FareShifts(fate, b, via, x, b'.orphaned);
    }
  }

  type Books = map<SubChannelId, Book>

  ghost predicate Provided(book: Books, fate: Fate, senders: seq<Embed<Chan>>, via: SubChannelId, x: Source) {
    forall c | c in book :: Count(senders, c) <= Room(fate, book[c], via, x)
  }

  ghost predicate AllShifted(book: Books, book': Books, fate: Fate, senders: seq<Embed<Chan>>, via: SubChannelId) {
    && book'.Keys == book.Keys
    && forall c | c in book :: Shifted(fate, book[c], book'[c], via, Count(senders, c))
  }

  lemma ProvidedRest(book: Books, fate: Fate, senders: seq<Embed<Chan>>, via: SubChannelId, x: Source, book': Books)
    requires Provided(book, fate, senders, via, x) && senders != [] && senders[0].scid in book
    requires senders[0].scid in book'
    requires book' == book[senders[0].scid :=
                             book[senders[0].scid].Fare(fate, via, x).(orphaned := book'[senders[0].scid].orphaned)]
    ensures Room(fate, book[senders[0].scid], via, x) > 0
    ensures Provided(book', fate, senders[1..], via, x)
    ensures AllShifted(book, book', fate, senders[..1], via)
  {
    hide Shifted, Book.Fare;
    var rest := senders[1..];
    assert senders[..1] + rest == senders;
    assert Count(senders, senders[0].scid) >= 1 && senders[0].scid in book;
    forall c | c in book
      ensures Count(rest, c) <= Room(fate, book'[c], via, x)
      ensures Shifted(fate, book[c], book'[c], via, Count(senders[..1], c))
    {
      CountAppend(senders[..1], rest, c);
      RestCovered(book[c], book'[c], fate, senders, via, x, c);
    }
  }

  lemma SameCargoTrans(w: World, t: World, u: World)
    requires SameCargo(w, t) && SameCargo(t, u)
    ensures SameCargo(w, u)
  {
  }

  lemma CanMeetThem(w: World, senders: seq<Embed<Chan>>, via: SubChannelId)
    requires w.Shaped() && EmbedsOk(w.home, senders) && via in w.home
    ensures w.CanMeetAll(senders, via)
  {
  }

  lemma MeetFirst(w: World, fate: Fate, senders: seq<Embed<Chan>>, via: SubChannelId)
    requires Base(w) && Alive(w) && EmbedsOk(w.home, senders) && via in w.home && senders != []
    requires Provided(w.book, fate, senders, via, Receiver(w.home[via])) && w.CanMeet(senders[0], via)
    ensures Base(w.Meet(fate, senders[0], via)) && Alive(w.Meet(fate, senders[0], via))
    ensures SameCargo(w, w.Meet(fate, senders[0], via))
    ensures Provided(w.Meet(fate, senders[0], via).book, fate, senders[1..], via, Receiver(w.home[via]))
    ensures AllShifted(w.book, w.Meet(fate, senders[0], via).book, fate, senders[..1], via)
  {
    assert EmbedOk(w.home, senders[0]);
    var t := w.Meet(fate, senders[0], via);
    ProvidedRest(w.book, fate, senders, via, Receiver(w.home[via]), t.book);
    MeetBase(w, fate, senders[0], via);
    MeetKeeps(w, fate, senders[0], via);
  }

  lemma {:induction false} MeetAllKeeps(w: World, fate: Fate, senders: seq<Embed<Chan>>, via: SubChannelId)
    requires Base(w) && Alive(w) && EmbedsOk(w.home, senders) && via in w.home
    requires Provided(w.book, fate, senders, via, Receiver(w.home[via])) && w.CanMeetAll(senders, via)
    ensures Base(w.MeetAll(fate, senders, via)) && Alive(w.MeetAll(fate, senders, via))
    ensures SameCargo(w, w.MeetAll(fate, senders, via))
    ensures AllShifted(w.book, w.MeetAll(fate, senders, via).book, fate, senders, via)
    decreases |senders|
  {
    if senders != [] {
      MeetFirst(w, fate, senders, via);
      var t := w.Meet(fate, senders[0], via);
      assert EmbedsOk(t.home, senders[1..]);
      CanMeetThem(t, senders[1..], via);
      hide Base, Alive, SameCargo, AllShifted, World.Shaped, World.Meet, EmbedsOk;
      MeetAllKeeps(t, fate, senders[1..], via);
      var u := t.MeetAll(fate, senders[1..], via);
      SameCargoTrans(w, t, u);
      ShiftedAll(w.book, t.book, u.book, fate, senders, via);
    }
  }

  lemma ShiftedAll(a: Books, b: Books, c: Books, fate: Fate, senders: seq<Embed<Chan>>, via: SubChannelId)
    requires senders != []
    requires AllShifted(a, b, fate, senders[..1], via) && AllShifted(b, c, fate, senders[1..], via)
    ensures AllShifted(a, c, fate, senders, via)
  {
    assert senders[..1] + senders[1..] == senders;
    forall d | d in a ensures Shifted(fate, a[d], c[d], via, Count(senders, d)) {
      CountAppend(senders[..1], senders[1..], d);
      ShiftedTwice(fate, a[d], b[d], c[d], via, Count(senders[..1], d), Count(senders[1..], d));
    }
  }

  // ---------------------------------------------------------------------------------------
  // Events of one subchannel
  // ---------------------------------------------------------------------------------------

  /** Every living subchannel but `c` is in order. */
  ghost predicate AliveBut(w: World, c: SubChannelId)
    requires w.Shaped()
  {
    forall d | d in w.home && d != c && w.home[d] !in w.dead :: Life.Inv(w.View(d))
  }

  lemma SetBookAlive(w: World, c: SubChannelId, b: Book)
    requires Base(w) && AliveBut(w, c) && c in w.home && b.taken == w.book[c].taken
    ensures Base(w.SetBook(c, b)) && AliveBut(w.SetBook(c, b), c)
    ensures w.SetBook(c, b).View(c) == Booked(w.View(c), b)
  {
    SetBookView(w, c, b);
  }

  lemma SetBookGood(w: World, c: SubChannelId, b: Book)
    requires Base(w) && Coupled(w) && AliveBut(w, c) && c in w.home && b.taken == w.book[c].taken
    requires b.transit == w.book[c].transit && b.pending == w.book[c].pending
    ensures Base(w.SetBook(c, b)) && Coupled(w.SetBook(c, b)) && AliveBut(w.SetBook(c, b), c)
    ensures w.SetBook(c, b).View(c) == Booked(w.View(c), b)
  {
    SetBookAlive(w, c, b);
    SetBookCoupled(w, c, b);
  }

  lemma TellGood(w: World, c: SubChannelId, ch: Chan, msg: Msg)
    requires Base(w) && Coupled(w) && AliveBut(w, c) && c in w.home && ch in w.queue
    requires MsgOk(w.home, ch, msg) && !msg.Data?
    requires |NoteOf(msg, c)| == 1 && forall a :: a != c ==> NoteOf(msg, a) == []
    ensures Base(w.Enqueue(ch, msg)) && Coupled(w.Enqueue(ch, msg)) && AliveBut(w.Enqueue(ch, msg), c)
    ensures w.home[c] !in w.dead ==> w.Enqueue(ch, msg).View(c) == w.View(c).Enqueue(NoteOf(msg, c)[0])
  {
    EnqueueBase(w, ch, msg);
    EnqueueCoupled(w, ch, msg);
    forall d | d in w.home && w.home[d] !in w.dead
      ensures w.Enqueue(ch, msg).View(d) == if d == c then w.View(d).Enqueue(NoteOf(msg, c)[0]) else w.View(d)
    {
      TellView(w, c, ch, msg, d);
    }
  }

  lemma UntrackGood(w: World, c: SubChannelId, x: Source, ch: Chan)
    requires Base(w) && Coupled(w) && AliveBut(w, c) && c in w.home && w.home[c] == ch
    requires ch !in w.dead ==> Life.Inv(w.View(c).Untrack(x))
    ensures Good(w.Untrack(c, x, ch))
  {
    UntrackBase(w, c, x, ch);
    var t := w.Untrack(c, x, ch);
    forall d | d in t.home && t.home[d] !in t.dead ensures Life.Inv(t.View(d)) {
      UntrackView(w, c, x, ch, d);
    }
  }

  lemma CloneGood(w: World, c: SubChannelId, x: Source, ch: Chan)
    requires Good(w) && w.Holds(c, x, ch)
    ensures Good(w.Clone(c, x))
  {
    SetBookGood(w, c, w.book[c].(live := w.book[c].live + multiset{x}));
    if w.home[c] !in w.dead {
      Life.CloneKeepsInv(w.View(c), x);
    }
  }

  lemma DropGood(w: World, c: SubChannelId, x: Source, ch: Chan)
    requires Good(w) && w.Spare(c, x, ch)
    ensures Good(w.Drop(c, x, ch))
  {
    var b := w.book[c].(live := w.book[c].live - multiset{x});
    SetBookGood(w, c, b);
    if w.home[c] !in w.dead {
      Life.DropKeepsInv(w.View(c), x);
    }
    UntrackGood(w.SetBook(c, b), c, x, ch);
  }

  lemma VanishGood(w: World, c: SubChannelId, x: Source, ch: Chan)
    requires Good(w) && w.Spare(c, x, ch)
    ensures Good(w.Vanish(c, x))
  {
    var b := w.book[c].(live := w.book[c].live - multiset{x});
    SetBookGood(w, c, b);
    var t := w.SetBook(c, b);
    if w.home[c] !in w.dead {
      Life.VanishKeepsInv(w.View(c), x);
    }
    UntrackCases(t, c, x, ch);
    OrphanGood(t, c, x);
  }

  lemma OrphanGood(w: World, c: SubChannelId, x: Source)
    requires Base(w) && Coupled(w) && AliveBut(w, c) && c in w.home
    ensures Base(w.Orphan(c, x)) && Coupled(w.Orphan(c, x)) && AliveBut(w.Orphan(c, x), c)
    ensures w.Orphan(c, x).View(c) == w.View(c).Orphan(x)
  {
    UntrackCases(w, c, x, w.home[c]);
  }

  lemma LearnGood(w: World, c: SubChannelId, x: Source)
    requires Good(w) && c in w.home
    ensures Good(w.Learn(c, x))
  {
    SetBookGood(w, c, w.book[c].(told := w.book[c].told + {x}));
    if w.home[c] !in w.dead {
      Life.LearnKeepsInv(w.View(c), x);
    }
  }

  lemma AnnounceGood(w: World, c: SubChannelId, x: Source, ch: Chan, via: SubChannelId, viaChan: Chan)
    requires Good(w) && w.Holds(c, x, ch) && via in w.home && w.home[via] == viaChan
    ensures Good(w.Announce(c, x, ch, via, viaChan))
  {
    var b := w.book[c].(borrowed := w.book[c].borrowed + multiset{x}, announced := w.book[c].announced + multiset{via});
    SetBookGood(w, c, b);
    TellGood(w.SetBook(c, b), c, ch, Sending(c, via, viaChan));
    if w.home[c] !in w.dead {
      Life.AnnounceKeepsInv(w.View(c), x, via, OnResponses(viaChan));
    }
  }

  lemma AbandonGood(w: World, r: Rider, via: SubChannelId)
    requires Good(w) && w.CanBoard(r, via)
    ensures Good(w.Abandon(r, via))
  {
    var b := w.book[r.scid];
    SetBookGood(w, r.scid, b.(borrowed := b.borrowed - multiset{r.source}, announced := b.announced - multiset{via},
                              leaked := b.leaked + multiset{via}));
    if w.home[r.scid] !in w.dead {
      Life.AbortKeepsInv(w.View(r.scid), r.source, via);
    }
  }

  lemma LoseTransportGood(w: World, c: SubChannelId, n: nat)
    requires Good(w) && c in w.home && n in w.book[c].carried
    ensures Good(w.LoseTransport(c, n))
  {
    SetBookGood(w, c, w.book[c].(carried := w.book[c].carried - multiset{n},
                                 leaked := w.book[c].leaked + multiset{EMPTY_SUBCHANNEL_ID}));
    if w.home[c] !in w.dead {
      Life.LoseTransportKeepsInv(w.View(c), n);
    }
  }

  lemma SilentView(w: World, ch: Chan, msg: Msg, d: SubChannelId)
    requires Base(w) && ch in w.queue && MsgOk(w.home, ch, msg) && NoteOf(msg, d) == []
    requires d in w.home && w.home[d] !in w.dead
    ensures w.Enqueue(ch, msg).Shaped() && w.Enqueue(ch, msg).View(d) == w.View(d)
  {
    EnqueueView(w, ch, msg, d);
    assert w.View(d).q + [] == w.View(d).q;
  }

  /** A message that is about no subchannel. */
  lemma SilentGood(w: World, ch: Chan, msg: Msg)
    requires Good(w) && ch in w.queue && MsgOk(w.home, ch, msg) && !msg.Data?
    requires forall a :: NoteOf(msg, a) == []
    ensures Good(w.Enqueue(ch, msg))
    ensures forall d | d in w.home && w.home[d] !in w.dead :: w.Enqueue(ch, msg).View(d) == w.View(d)
  {
    EnqueueBase(w, ch, msg);
    EnqueueCoupled(w, ch, msg);
    hide Life.Inv, CoupledAt, TablesOk, Addressed, EndsOk, MsgOk;
    forall d | d in w.home && w.home[d] !in w.dead
      ensures w.Enqueue(ch, msg).View(d) == w.View(d)
    {
      SilentView(w, ch, msg, d);
    }
  }

  lemma MintCoupled(w: World, c: SubChannelId, ch: Chan)
    requires w.Shaped() && Coupled(w)
    ensures Coupled(w.Mint(c, ch))
  {
    var t := w.Mint(c, ch);
    forall v, d | v in t.home && d in t.home && t.home[v] !in t.dead ensures CoupledAt(t, v, d) {
      assert CoupledAt(w, v, d);
    }
  }

  lemma MintBase(w: World, c: SubChannelId, ch: Chan)
    requires Base(w) && c in w.home && w.home[c] == ch
    ensures Base(w.Mint(c, ch))
    ensures forall d | d in w.home :: w.Mint(c, ch).View(d) == w.View(d)
  {
  }

  lemma MintGood(w: World, c: SubChannelId, ch: Chan)
    requires Good(w) && c in w.home && w.home[c] == ch
    ensures Good(w.Mint(c, ch))
    ensures forall d | d in w.home :: w.Mint(c, ch).View(d) == w.View(d)
  {
    hide Life.Inv, CoupledAt;
    MintBase(w, c, ch);
    MintCoupled(w, c, ch);
  }

  lemma BeginTransportGood(w: World, c: SubChannelId, x: Source, ch: Chan)
    requires Good(w) && w.Spare(c, x, ch)
    ensures Good(w.BeginTransport(c, x, ch))
  {
    var n := w.minted;
    var carried := w.book[c].carried + multiset{n};
    MintGood(w, c, ch);
    var w1 := w.Mint(c, ch);
    var b2 := w.book[c].(carried := carried);
    SetBookGood(w1, c, b2);
    var w2 := w1.SetBook(c, b2);
    TellGood(w2, c, ch, SendingViaIpcChannel(c, n));
    var w3 := w2.Enqueue(ch, SendingViaIpcChannel(c, n));
    var b4 := w.book[c].(carried := carried, live := w.book[c].live - multiset{x});
    SetBookGood(w3, c, b4);
    if ch !in w.dead {
      Life.BeginTransportKeepsInv(w.View(c), x, n);
    }
    UntrackGood(w3.SetBook(c, b4), c, x, ch);
  }

  lemma EndTransportGood(w: World, c: SubChannelId, n: nat, ch: Chan)
    requires Good(w) && c in w.home && w.home[c] == ch && n in w.book[c].carried
    ensures Good(w.EndTransport(c, n, ch))
  {
    SilentGood(w, ch, Connect(w.minted));
    var w1 := w.Enqueue(ch, Connect(w.minted));
    var b := w.book[c].(live := w.book[c].live + multiset{Transport(n)}, carried := w.book[c].carried - multiset{n});
    SetBookGood(w1, c, b);
    TellGood(w1.SetBook(c, b), c, ch, Received(c, EMPTY_SUBCHANNEL_ID, Transport(n)));
    if ch !in w.dead {
      Life.EndTransportKeepsInv(w.View(c), n);
    }
  }

  // ---------------------------------------------------------------------------------------
  // Sending
  // ---------------------------------------------------------------------------------------

  /** One book after `n` copies have boarded. */
  ghost predicate Loaded(b: Book, b': Book, via: SubChannelId, n: nat) {
    && b'.live == b.live && b'.pending == b.pending && b'.taken == b.taken
    && forall v :: b'.transit[v] == b.transit[v] + if v == via then n else 0
  }

  /** The books after the riders have boarded. */
  ghost predicate Boarded(book: Books, book': Books, senders: seq<Embed<Chan>>, via: SubChannelId) {
    && book'.Keys == book.Keys
    && forall c | c in book :: Loaded(book[c], book'[c], via, Count(senders, c))
  }

  lemma BoardKeeps(w: World, r: Rider, via: SubChannelId)
    requires Base(w) && Alive(w) && w.CanBoard(r, via) && via in w.home && w.home[via] !in w.dead
    ensures Base(w.Board(r, via)) && Alive(w.Board(r, via))
  {
    var b := w.book[r.scid];
    SetBookAlive(w, r.scid, b.(borrowed := b.borrowed - multiset{r.source}, announced := b.announced - multiset{via},
                               transit := b.transit + multiset{via}));
    if w.home[r.scid] !in w.dead {
      Life.LaunchKeepsInv(w.View(r.scid), r.source, via);
    }
  }

  lemma LoadedOne(b: Book, r: Rider, via: SubChannelId)
    ensures Loaded(b, b.(borrowed := b.borrowed - multiset{r.source}, announced := b.announced - multiset{via},
                         transit := b.transit + multiset{via}), via, 1)
  {
  }

  lemma LoadedTwice(a: Book, b: Book, c: Book, via: SubChannelId, m: nat, n: nat)
    requires Loaded(a, b, via, m) && Loaded(b, c, via, n)
    ensures Loaded(a, c, via, m + n)
  {
  }

  lemma BoardedOne(w: World, r: Rider, via: SubChannelId)
    requires w.CanBoard(r, via)
    ensures Boarded(w.book, w.Board(r, via).book, [Embed(r.scid, r.sender)], via)
  {
    hide Loaded;
    forall c | c in w.book
      ensures Loaded(w.book[c], w.Board(r, via).book[c], via, Count([Embed(r.scid, r.sender)], c))
    {
      if c == r.scid {
        LoadedOne(w.book[c], r, via);
      } else {
        LoadedNone(w.book[c], via);
      }
    }
  }

  lemma EmbedsFirst(riders: seq<Rider>)
    requires riders != []
    ensures Embeds(riders) == [Embed(riders[0].scid, riders[0].sender)] + Embeds(riders[1..])
  {
  }

  lemma LoadedNone(b: Book, via: SubChannelId)
    ensures Loaded(b, b, via, 0)
  {
  }

  lemma BoardedTwice(a: Books, b: Books, c: Books, e: Embed<Chan>, rest: seq<Embed<Chan>>, via: SubChannelId)
    requires Boarded(a, b, [e], via) && Boarded(b, c, rest, via)
    ensures Boarded(a, c, [e] + rest, via)
  {
    forall d | d in a ensures Loaded(a[d], c[d], via, Count([e] + rest, d)) {
      CountAppend([e], rest, d);
      LoadedTwice(a[d], b[d], c[d], via, Count([e], d), Count(rest, d));
    }
  }

  lemma {:induction false} BoardAllBooks(w: World, riders: seq<Rider>, via: SubChannelId)
    requires w.CanBoardAll(riders, via)
    ensures Boarded(w.book, w.BoardAll(riders, via).book, Embeds(riders), via)
    decreases |riders|
  {
    if riders != [] {
      hide Boarded, Embeds;
      var t := w.Board(riders[0], via);
      var e := Embed(riders[0].scid, riders[0].sender);
      BoardedOne(w, riders[0], via);
      BoardAllBooks(t, riders[1..], via);
      BoardedTwice(w.book, t.book, t.BoardAll(riders[1..], via).book, e, Embeds(riders[1..]), via);
      EmbedsFirst(riders);
    }
  }

  lemma {:induction false} BoardAllKeeps(w: World, riders: seq<Rider>, via: SubChannelId)
    requires Base(w) && Alive(w) && w.CanBoardAll(riders, via) && via in w.home && w.home[via] !in w.dead
    ensures Base(w.BoardAll(riders, via)) && Alive(w.BoardAll(riders, via))
    decreases |riders|
  {
    if riders != [] {
      BoardKeeps(w, riders[0], via);
      BoardAllKeeps(w.Board(riders[0], via), riders[1..], via);
    }
  }

  lemma {:induction false} RidersEmbed(w: World, riders: seq<Rider>, via: SubChannelId)
    requires EndsOk(w.home, w.ends) && w.CanBoardAll(riders, via)
    ensures EmbedsOk(w.home, Embeds(riders))
    decreases |riders|
  {
    if riders != [] {
      RidersEmbed(w.Board(riders[0], via), riders[1..], via);
      EmbedsFirst(riders);
    }
  }

  lemma PostCounted(b: Book, b': Book, queue: seq<Msg>, msg: Msg, local: seq<Embed<Chan>>,
                    v: SubChannelId, c: SubChannelId, via: SubChannelId, n: nat)
    requires Counted(b, QueuedCargo(queue, v), local, v, c)
    requires Loaded(b, b', via, n) && Count(Cargo(msg, v), c) == if v == via then n else 0
    ensures Counted(b', QueuedCargo(queue + [msg], v), local, v, c)
  {
    QueuedAppend(queue, msg, v);
    CountAppend(QueuedCargo(queue, v), Cargo(msg, v), c);
  }

  /** The books after the message is under way are coupled to the queue with the message in it. */
  lemma PostCoupled(w: World, via: SubChannelId, ch: Chan, payload: Payload, senders: seq<Embed<Chan>>, book: Books)
    requires w.Shaped() && via in w.home && w.home[via] == ch && ch !in w.dead
    requires Boarded(book, w.book, senders, via) && w.(book := book).Shaped() && Coupled(w.(book := book))
    ensures w.Post(via, ch, payload, senders).Shaped() && Coupled(w.Post(via, ch, payload, senders))
  {
    var t := w.Post(via, ch, payload, senders);
    forall v, c | v in t.home && c in t.home && t.home[v] !in t.dead ensures CoupledAt(t, v, c) {
      assert CoupledAt(w.(book := book), v, c);
      PostCoupledAt(w, via, ch, payload, senders, book, v, c);
    }
  }

  lemma PostCoupledAt(w: World, via: SubChannelId, ch: Chan, payload: Payload, senders: seq<Embed<Chan>>, book: Books,
                      v: SubChannelId, c: SubChannelId)
    requires w.Shaped() && via in w.home && w.home[via] == ch && ch !in w.dead && v in w.home && c in w.home
    requires c in book && Loaded(book[c], w.book[c], via, Count(senders, c))
    requires Counted(book[c], QueuedCargo(w.queue[w.home[v]], v), LocalCargo(w.Local(v)), v, c)
    ensures CoupledAt(w.Post(via, ch, payload, senders), v, c)
  {
    var msg: Msg := Data(via, payload, senders);
    var t := w.Post(via, ch, payload, senders);
    assert Cargo(msg, v) == if v == via then senders else [];
    assert t.book[c] == w.book[c].(sent := t.book[c].sent);
    LoadedSent(book[c], w.book[c], t.book[c], via, Count(senders, c));
    hide Counted, Loaded;
    if w.home[v] == ch {
      PostCounted(book[c], t.book[c], w.queue[ch], msg, LocalCargo(w.Local(v)), v, c, via, Count(senders, c));
    } else {
      PostElsewhere(book[c], t.book[c], QueuedCargo(w.queue[w.home[v]], v), LocalCargo(w.Local(v)), v, c,
                    via, Count(senders, c));
    }
  }

  lemma LoadedSent(a: Book, b: Book, c: Book, via: SubChannelId, n: nat)
    requires Loaded(a, b, via, n) && c == b.(sent := c.sent)
    ensures Loaded(a, c, via, n)
  {
  }

  lemma PostElsewhere(b: Book, b': Book, queued: seq<Embed<Chan>>, local: seq<Embed<Chan>>,
                      v: SubChannelId, c: SubChannelId, via: SubChannelId, n: nat)
    requires Counted(b, queued, local, v, c)
    requires Loaded(b, b', via, n) && v != via
    ensures Counted(b', queued, local, v, c)
  {
  }

  lemma PostKeeps(w: World, via: SubChannelId, ch: Chan, payload: Payload, senders: seq<Embed<Chan>>)
    requires Base(w) && Alive(w) && via in w.home && w.home[via] == ch && ch !in w.dead
    requires EmbedsOk(w.home, senders) && w.book[via].live != multiset{}
    ensures Base(w.Post(via, ch, payload, senders)) && Alive(w.Post(via, ch, payload, senders))
  {
    var b := w.book[via].(sent := w.book[via].sent + [payload]);
    var msg: Msg := Data(via, payload, senders);
    SetBookAlive(w, via, b);
    var w1 := w.SetBook(via, b);
    EnqueueBase(w1, ch, msg);
    forall d | d in w.home && w.home[d] !in w.dead ensures Life.Inv(w1.Enqueue(ch, msg).View(d)) {
      TellView(w1, via, ch, msg, d);
      if d == via {
        Life.PostKeepsInv(w.View(via), payload);
      }
    }
  }

  lemma TransmitGood(w: World, via: SubChannelId, x: Source, ch: Chan, payload: Payload, riders: seq<Rider>)
    requires Good(w) && w.Holds(via, x, ch) && ch !in w.dead && w.CanBoardAll(riders, via)
    ensures Good(w.Transmit(via, ch, payload, riders))
  {
    BoardAllKeeps(w, riders, via);
    BoardAllBooks(w, riders, via);
    RidersEmbed(w, riders, via);
    var t := w.BoardAll(riders, via);
    assert t.(book := w.book) == w;
    PostKeeps(t, via, ch, payload, Embeds(riders));
    PostCoupled(t, via, ch, payload, Embeds(riders), w.book);
  }
}
