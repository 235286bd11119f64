/**
 Handling queued messages, receiving them and dropping a receiver keep the invariant of the
 whole system.
 */
module Delivery {
  import opened Basics
  import opened Protocol
  import opened SubchannelLifecycle
  import Demux
  import Life = Subchannel
  import opened System
  import opened Copies

  // ---------------------------------------------------------------------------------------
  // The demultiplexer
  // ---------------------------------------------------------------------------------------

  ghost predicate Owns(d: Demux.Tables<Chan>, c: SubChannelId) {
    c in d.subChannels && c in d.local && d.subChannels[c].maybe in {None, Some(c)}
  }

  /** The items that a message about `c` puts into the local queue of `c`. */
  function NewItems(d: Demux.Tables<Chan>, msg: Msg, c: SubChannelId): seq<Item>
    requires c in d.subChannels
  {
    var m := d.subChannels[c];
    if c in d.hungUp then []
    else match msg
      case Data(_, payload, senders) => if m.maybe.Some? then [Demux.Resolved(c, payload, senders)] else []
      case ReceiveFailed(_, via) => if m.ReceiveFailed(via).1.Some? then [Demux.Marker(c)] else []
      case Disconnect(_, source) => if m.Disconnect(source).1.Some? then [Demux.Marker(c)] else []
      case _ => []
  }

  /** The tables after one subchannel's machine moved on and items were put into its local queue. */
  ghost predicate Moved(d: Demux.Tables<Chan>, d': Demux.Tables<Chan>, c: SubChannelId, m: Life.SM, items: seq<Item>)
    requires Owns(d, c)
  {
    Owns(d', c) && d'.hungUp == d.hungUp && d'.subChannels[c] == m && d'.local[c] == d.local[c] + items
  }

  /** Handing the sender out puts the marker into the subchannel's own queue. */
  lemma FinishMoves(d: Demux.Tables<Chan>, c: SubChannelId, next: (Life.SM, Option<Demux.Tx>))
    requires Owns(d, c) && next.1 in {None, Some(c)} && next.0.maybe in {None, Some(c)}
    ensures Moved(d, Demux.Finish(d, c, next).tables, c, next.0,
                  if next.1.Some? && c !in d.hungUp then [Demux.Marker(c)] else [])
  {
  }

  lemma DataMoves(d: Demux.Tables<Chan>, c: SubChannelId, payload: Payload, senders: seq<Embed<Chan>>)
    requires Owns(d, c)
    ensures Moved(d, Demux.ActData(d, c, payload, senders, true).tables, c, d.subChannels[c],
                  NewItems(d, Data(c, payload, senders), c))
  {
  }

  /** A message that says something about a subchannel moves its machine accordingly. */
  lemma ActSubject(d: Demux.Tables<Chan>, msg: Msg, c: SubChannelId)
    requires Owns(d, c) && NoteOf(msg, c) != []
    ensures Moved(d, Demux.Act(d, msg, true).tables, c,
                  Life.MStep(d.subChannels[c], NoteOf(msg, c)[0]), NewItems(d, msg, c))
  {
    hide Moved, Demux.Finish, Demux.ActData;
    var m := d.subChannels[c];
    match msg
    case Data(_, payload, senders) => DataMoves(d, c, payload, senders);
    case ReceiveFailed(_, via) => FinishMoves(d, c, m.ReceiveFailed(via));
    case Disconnect(_, source) => FinishMoves(d, c, m.Disconnect(source));
    case Sending(_, via, viaChan) => UpdateMoves(d, c, m.ToBeSent(via, OnResponses(viaChan)));
    case SendingViaIpcChannel(_, n) => UpdateMoves(d, c, m.ToBeSent(EMPTY_SUBCHANNEL_ID, OnKeepalive(n)));
    case Received(_, via, source) => UpdateMoves(d, c, m.Received(via, source));
  }

  lemma UpdateMoves(d: Demux.Tables<Chan>, c: SubChannelId, m: Life.SM)
    requires Owns(d, c) && m.maybe in {None, Some(c)}
    ensures Moved(d, d.Update(c, m), c, m, [])
  {
  }

  lemma NewOuts(d: Demux.Tables<Chan>, msg: Msg, c: SubChannelId)
    requires Owns(d, c) && NoteOf(msg, c) != []
    ensures Outs(NewItems(d, msg, c)) == if c in d.hungUp then [] else Life.Outs(d.subChannels[c], NoteOf(msg, c)[0])
  {
    hide Machine.ReceiveFailed, Machine.Disconnect;
  }

  /** The subchannel a message is about. */
  function SubjectOf(msg: Msg): Option<SubChannelId> {
    match msg
    case Connect(_) => None
    case SubChannelName(_) => None
    case Data(scid, _, _) => Some(scid)
    case Sending(scid, _, _) => Some(scid)
    case SendingViaIpcChannel(scid, _) => Some(scid)
    case Received(scid, _, _) => Some(scid)
    case ReceiveFailed(scid, _) => Some(scid)
    case Disconnect(scid, _) => Some(scid)
  }

  lemma FinishSpares(d: Demux.Tables<Chan>, a: SubChannelId, next: (Life.SM, Option<Demux.Tx>), c: SubChannelId)
    requires Owns(d, a) && Owns(d, c) && c != a && next.1 in {None, Some(a)}
    ensures Moved(d, Demux.Finish(d, a, next).tables, c, d.subChannels[c], [])
  {
  }

  lemma DataSpares(d: Demux.Tables<Chan>, a: SubChannelId, payload: Payload, senders: seq<Embed<Chan>>, c: SubChannelId)
    requires Owns(d, a) && Owns(d, c) && c != a
    ensures Moved(d, Demux.ActData(d, a, payload, senders, true).tables, c, d.subChannels[c], [])
  {
  }

  /** No other subchannel notices. */
  lemma ActOthers(d: Demux.Tables<Chan>, msg: Msg, c: SubChannelId)
    requires Owns(d, c) && SubjectOf(msg) != Some(c)
    requires SubjectOf(msg).Some? ==> Owns(d, SubjectOf(msg).value)
    ensures Owns(Demux.Act(d, msg, true).tables, c)
    ensures Demux.Act(d, msg, true).tables.subChannels[c] == d.subChannels[c]
    ensures Demux.Act(d, msg, true).tables.local[c] == d.local[c]
    ensures Demux.Act(d, msg, true).tables.hungUp == d.hungUp
  {
    match msg
    case Data(a, payload, senders) => DataSpares(d, a, payload, senders, c);
    case ReceiveFailed(a, via) => FinishSpares(d, a, d.subChannels[a].ReceiveFailed(via), c);
    case Disconnect(a, source) => FinishSpares(d, a, d.subChannels[a].Disconnect(source), c);
    case _ =>
    assert d.local[c] + [] == d.local[c];
  }

  lemma OutsAppend(a: seq<Item>, b: seq<Item>)
    ensures Outs(a + b) == Outs(a) + Outs(b)
  {
  }

  /** Replacing the tables of one channel. */
  lemma Refit(home: Homes, channels: set<Chan>, demux: Demuxers, booked: set<SubChannelId>, h: Chan,
              d: Demux.Tables<Chan>)
    requires Fits(home, channels, demux, booked) && h in demux
    requires forall c | c in home && home[c] == h :: Owns(d, c)
    ensures Fits(home, channels, demux[h := d], booked)
  {
  }

  lemma PoppedShaped(w: World, h: Chan)
    requires Base(w) && w.CanDeliver(h)
    ensures w.Popped(h).Shaped()
  {
    var msg := w.queue[h][0];
    assert MsgOk(w.home, h, msg);
    forall c | c in w.home && w.home[c] == h ensures Owns(w.Handled(h).tables, c) {
      if NoteOf(msg, c) == [] {
        ActOthers(w.demux[h], msg, c);
      } else {
        ActSubject(w.demux[h], msg, c);
      }
    }
    Refit(w.home, w.queue.Keys, w.demux, w.book.Keys, h, w.Handled(h).tables);
  }

  lemma PoppedSpares(w: World, h: Chan, c: SubChannelId)
    requires Base(w) && w.CanDeliver(h) && w.Popped(h).Shaped()
    requires c in w.home && NoteOf(w.queue[h][0], c) == []
    ensures w.Popped(h).Machine(c) == w.Machine(c) && w.Popped(h).Local(c) == w.Local(c)
    ensures w.Popped(h).Gone(c) == w.Gone(c)
  {
    assert MsgOk(w.home, h, w.queue[h][0]);
    if w.home[c] == h {
      ActOthers(w.demux[h], w.queue[h][0], c);
    }
  }

  lemma PoppedMoves(w: World, h: Chan, c: SubChannelId)
    requires w.Shaped() && w.CanDeliver(h) && c in w.home && w.home[c] == h && NoteOf(w.queue[h][0], c) != []
    ensures Owns(w.demux[h], c)
    ensures Moved(w.demux[h], w.Popped(h).demux[h], c,
                  Life.MStep(w.Machine(c), NoteOf(w.queue[h][0], c)[0]), NewItems(w.demux[h], w.queue[h][0], c))
  {
    ActSubject(w.demux[h], w.queue[h][0], c);
  }

  /** Handling a message is one step in the life of the subchannel it is about. */
  lemma PoppedSubject(w: World, h: Chan, c: SubChannelId)
    requires w.Shaped() && w.CanDeliver(h) && w.Popped(h).Shaped()
    requires c in w.home && w.home[c] == h && NoteOf(w.queue[h][0], c) != []
    ensures w.Popped(h).View(c) == w.View(c).Handle()
  {
    hide Demux.Act, NewItems, Outs, Life.MStep, Life.Outs;
    var msg, d := w.queue[h][0], w.demux[h];
    PoppedMoves(w, h, c);
    NewOuts(d, msg, c);
    LogAppend(w.book[c].taken, w.Local(c), NewItems(d, msg, c));
    assert Notes(w.queue[h], c) == NoteOf(msg, c) + Notes(w.queue[h][1..], c);
  }

  lemma LogAppend(taken: seq<Item>, local: seq<Item>, items: seq<Item>)
    ensures Outs(taken + (local + items)) == Outs(taken + local) + Outs(items)
  {
  }

  lemma PoppedOther(w: World, h: Chan, c: SubChannelId)
    requires Base(w) && w.CanDeliver(h) && w.Popped(h).Shaped()
    requires c in w.home && NoteOf(w.queue[h][0], c) == []
    ensures w.Popped(h).View(c) == w.View(c)
  {
    hide Demux.Act, TablesOk, Addressed, EndsOk, EmbedsOk, Notes, Outs;
    PoppedSpares(w, h, c);
    NotesRest(w.queue[h], c);
  }

  lemma NotesRest(queue: seq<Msg>, c: SubChannelId)
    requires queue != [] && NoteOf(queue[0], c) == []
    ensures Notes(queue[1..], c) == Notes(queue, c)
  {
    assert Notes(queue, c) == NoteOf(queue[0], c) + Notes(queue[1..], c);
  }

  lemma PoppedInv(w: World, h: Chan, c: SubChannelId)
    requires Base(w) && w.CanDeliver(h) && w.Popped(h).Shaped() && c in w.home && Life.Inv(w.View(c))
    ensures Life.Inv(w.Popped(h).View(c))
  {
    if NoteOf(w.queue[h][0], c) == [] {
      PoppedOther(w, h, c);
    } else {
      assert MsgOk(w.home, h, w.queue[h][0]);
      PoppedSubject(w, h, c);
      Life.HandleKeepsInv(w.View(c));
    }
  }

  lemma PoppedAlive(w: World, h: Chan)
    requires Base(w) && Alive(w) && w.CanDeliver(h)
    ensures w.Popped(h).Shaped() && Alive(w.Popped(h))
  {
    PoppedShaped(w, h);
    forall c | c in w.home && w.home[c] !in w.dead ensures Life.Inv(w.Popped(h).View(c)) {
      PoppedInv(w, h, c);
    }
  }

  lemma PoppedTables(w: World, h: Chan, c: SubChannelId)
    requires Base(w) && w.CanDeliver(h) && w.Popped(h).Shaped() && c in w.home
    ensures TablesOk(w.home, w.Popped(h).demux, c)
  {
    var msg := w.queue[h][0];
    assert MsgOk(w.home, h, msg) && TablesOk(w.home, w.demux, c);
    if w.home[c] == h {
      if NoteOf(msg, c) == [] {
        ActOthers(w.demux[h], msg, c);
      } else {
        ActSubject(w.demux[h], msg, c);
        NewItemsOk(w.home, w.demux[h], h, msg, c);
        StepProbes(w.home, w.demux[h].subChannels[c], h, msg, c);
      }
    }
  }

  lemma NewItemsOk(home: Homes, d: Demux.Tables<Chan>, h: Chan, msg: Msg, c: SubChannelId)
    requires Owns(d, c) && MsgOk(home, h, msg) && NoteOf(msg, c) != []
    ensures forall i | 0 <= i < |NewItems(d, msg, c)| :: ItemOk(home, c, NewItems(d, msg, c)[i])
  {
  }

  lemma StepProbes(home: Homes, m: Life.SM, h: Chan, msg: Msg, c: SubChannelId)
    requires MsgOk(home, h, msg) && NoteOf(msg, c) != [] && EMPTY_SUBCHANNEL_ID !in home
    requires forall v | v in m.probes :: ProbeOk(home, v, m.probes[v])
    ensures var m' := Life.MStep(m, NoteOf(msg, c)[0]);
            forall v | v in m'.probes :: ProbeOk(home, v, m'.probes[v])
  {
  }

  lemma PoppedBase(w: World, h: Chan)
    requires Base(w) && w.CanDeliver(h)
    ensures Base(w.Popped(h))
  {
    PoppedShaped(w, h);
    var t := w.Popped(h);
    forall c | c in w.home ensures TablesOk(w.home, t.demux, c) {
      PoppedTables(w, h, c);
    }
    forall ch | ch in t.queue ensures forall i | 0 <= i < |t.queue[ch]| :: MsgOk(t.home, ch, t.queue[ch][i]) {
      assert forall i | 0 <= i < |w.queue[ch]| :: MsgOk(w.home, ch, w.queue[ch][i]);
    }
  }

  // ---------------------------------------------------------------------------------------
  // Delivering
  // ---------------------------------------------------------------------------------------

  /** The copies inside the head of a queue have their tokens. */
  lemma HeadProvided(w: World, h: Chan)
    requires Base(w) && Coupled(w) && w.CanDeliver(h) && w.queue[h][0].Data?
    ensures MsgOk(w.home, h, w.queue[h][0])
    ensures w.queue[h][0].scid in w.home && w.home[w.queue[h][0].scid] == h
    ensures Provided(w.book, Arrive, w.queue[h][0].senders, w.queue[h][0].scid, Receiver(h))
    ensures w.CanMeetAll(w.queue[h][0].senders, w.queue[h][0].scid)
  {
    var msg := w.queue[h][0];
    assert MsgOk(w.home, h, msg);
    CanMeetThem(w, msg.senders, msg.scid);
    forall c | c in w.book ensures Count(msg.senders, c) <= Room(Arrive, w.book[c], msg.scid, Receiver(h)) {
      assert CoupledAt(w, msg.scid, c);
      CountAppend(msg.senders, QueuedCargo(w.queue[h][1..], msg.scid), c);
    }
  }

  /** The copies inside the head of the queue have arrived. */
  ghost function Arrived(w: World, h: Chan): World
    requires Base(w) && Coupled(w) && w.CanDeliver(h) && w.queue[h][0].Data?
  {
    HeadProvided(w, h);
    w.MeetAll(Arrive, w.queue[h][0].senders, w.queue[h][0].scid)
  }

  lemma ArrivedKeeps(w: World, h: Chan)
    requires Good(w) && w.CanDeliver(h) && w.queue[h][0].Data?
    ensures Base(Arrived(w, h)) && Alive(Arrived(w, h)) && Arrived(w, h) == w.(book := Arrived(w, h).book)
    ensures AllShifted(w.book, Arrived(w, h).book, Arrive, w.queue[h][0].senders, w.queue[h][0].scid)
  {
    HeadProvided(w, h);
    MeetAllKeeps(w, Arrive, w.queue[h][0].senders, w.queue[h][0].scid);
  }

  /** What `Counted` says while `extra` copies have arrived that are in no local queue. */
  ghost predicate CountedWith(b: Book, queued: seq<Embed<Chan>>, local: seq<Embed<Chan>>, v: SubChannelId,
                              c: SubChannelId, extra: nat)
  {
    b.transit[v] == Count(queued, c) && b.pending[v] == Count(local, c) + extra
  }

  /** The copies of the head of the queue that end up in no local queue. */
  ghost function Stray(w: World, h: Chan, v: SubChannelId): seq<Embed<Chan>>
    requires w.CanDeliver(h)
  {
    if w.queue[h][0].Data? && w.queue[h][0].scid == v then w.Handled(h).dropped else []
  }

  lemma DataFate(d: Demux.Tables<Chan>, c: SubChannelId, payload: Payload, senders: seq<Embed<Chan>>)
    requires Owns(d, c)
    ensures LocalCargo(NewItems(d, Data(c, payload, senders), c))
            + Demux.ActData(d, c, payload, senders, true).dropped == senders
  {
  }

  lemma QuietItems(d: Demux.Tables<Chan>, msg: Msg, c: SubChannelId)
    requires Owns(d, c) && NoteOf(msg, c) != [] && !msg.Data?
    ensures LocalCargo(NewItems(d, msg, c)) == []
  {
  }

  lemma {:induction false} LocalConcat(a: seq<Item>, b: seq<Item>)
    ensures LocalCargo(a + b) == LocalCargo(a) + LocalCargo(b)
  {
    if a == [] {
      assert a + b == b;
    } else {
      assert (a + b)[1..] == a[1..] + b;
      LocalConcat(a[1..], b);
    }
  }

  /** Popping moves the copies of the head from the queue to the local queue, or astray. */
  lemma PoppedCargo(w: World, h: Chan, v: SubChannelId)
    requires Base(w) && w.CanDeliver(h) && w.Popped(h).Shaped() && v in w.home
    ensures var cargo := if w.home[v] == h then Cargo(w.queue[h][0], v) else [];
            && QueuedCargo(w.queue[w.home[v]], v) == cargo + QueuedCargo(w.Popped(h).queue[w.home[v]], v)
            && exists landed :: landed + Stray(w, h, v) == cargo
                             && LocalCargo(w.Popped(h).Local(v)) == LocalCargo(w.Local(v)) + landed
  {
    var msg := w.queue[h][0];
    var t := w.Popped(h);
    assert MsgOk(w.home, h, msg);
    if w.home[v] != h {
      assert LocalCargo(t.Local(v)) == LocalCargo(w.Local(v)) + [];
      assert [] + Stray(w, h, v) == [];
    } else if NoteOf(msg, v) == [] {
      PoppedSpares(w, h, v);
      assert LocalCargo(t.Local(v)) == LocalCargo(w.Local(v)) + [];
      assert [] + Stray(w, h, v) == Cargo(msg, v);
    } else {
      PoppedMoves(w, h, v);
      var items := NewItems(w.demux[h], msg, v);
      LocalConcat(w.Local(v), items);
      if msg.Data? {
        DataFate(w.demux[h], v, msg.payload, msg.senders);
      } else {
        QuietItems(w.demux[h], msg, v);
      }
      assert LocalCargo(items) + Stray(w, h, v) == Cargo(msg, v);
    }
  }

  /** The arithmetic of arriving: `cargo` leaves the queue, `landed` of it enters the local queue. */
  lemma CountedPopped(b: Book, b': Book, via: SubChannelId, n: nat, v: SubChannelId, c: SubChannelId,
                      cargo: seq<Embed<Chan>>, rest: seq<Embed<Chan>>, local: seq<Embed<Chan>>,
                      landed: seq<Embed<Chan>>, stray: seq<Embed<Chan>>)
    requires Counted(b, cargo + rest, local, v, c) && cargo == landed + stray
    requires Shifted(Arrive, b, b', via, n) && Count(cargo, c) == if v == via then n else 0
    ensures CountedWith(b', rest, local + landed, v, c, Count(stray, c))
  {
    CountAppend(cargo, rest, c);
    CountAppend(landed, stray, c);
    CountAppend(local, landed, c);
  }

  lemma PoppedCounted(w: World, a: World, h: Chan, v: SubChannelId, c: SubChannelId)
    requires Base(w) && w.CanDeliver(h) && a == w.(book := a.book) && a.Shaped() && a.Popped(h).Shaped()
    requires v in w.home && c in w.home && CoupledAt(w, v, c)
    requires if w.queue[h][0].Data?
             then Shifted(Arrive, w.book[c], a.book[c], w.queue[h][0].scid, Count(w.queue[h][0].senders, c))
             else a.book == w.book
    ensures CountedWith(a.book[c], QueuedCargo(a.Popped(h).queue[w.home[v]], v), LocalCargo(a.Popped(h).Local(v)), v, c,
                        Count(Stray(w, h, v), c))
  {
    var msg := w.queue[h][0];
    var p := a.Popped(h);
    assert MsgOk(w.home, h, msg);
    assert Base(a) && a.CanDeliver(h);
    PoppedCargo(a, h, v);
    var cargo := if w.home[v] == h then Cargo(msg, v) else [];
    var landed :| landed + Stray(a, h, v) == cargo && LocalCargo(p.Local(v)) == LocalCargo(a.Local(v)) + landed;
    var via, n := if msg.Data? then msg.scid else v, if msg.Data? then Count(msg.senders, c) else 0;
    hide Base, Counted, CountedWith, MsgOk, World.Shaped, NewItems;
    assert Stray(a, h, v) == Stray(w, h, v);
    ShiftedNone(w.book[c], v);
    CountedPopped(w.book[c], a.book[c], via, n, v, c, cargo, QueuedCargo(p.queue[w.home[v]], v),
                  LocalCargo(w.Local(v)), landed, Stray(w, h, v));
  }

  lemma ShiftedNone(b: Book, via: SubChannelId)
    ensures Shifted(Arrive, b, b, via, 0)
  {
  }

  /** After the arrival and the handling, before stray copies are released. */
  lemma DeliverReady(w: World, h: Chan)
    requires Good(w) && w.CanDeliver(h) && w.queue[h][0].Data?
    ensures var a := Arrived(w, h);
            && a.CanDeliver(h) && Base(a.Popped(h)) && Alive(a.Popped(h))
            && a.Popped(h).home == w.home && a.Popped(h).dead == w.dead
            && a.Popped(h).CanMeetAll(w.queue[h][0].senders, w.queue[h][0].scid)
  {
    var a, msg := Arrived(w, h), w.queue[h][0];
    ArrivedKeeps(w, h);
    PoppedBase(a, h);
    PoppedAlive(a, h);
    assert MsgOk(w.home, h, msg);
    CanMeetThem(a.Popped(h), msg.senders, msg.scid);
  }

  lemma QuietDeliverGood(w: World, h: Chan)
    requires Good(w) && w.CanDeliver(h) && !w.queue[h][0].Data?
    ensures Good(w.Popped(h))
  {
    PoppedBase(w, h);
    PoppedAlive(w, h);
    var p := w.Popped(h);
    forall v, c | v in p.home && c in p.home && p.home[v] !in p.dead ensures CoupledAt(p, v, c) {
      assert CoupledAt(w, v, c);
      PoppedCounted(w, w, h, v, c);
    }
  }

  /** Coupled, but for the copies among `senders` that are in no local queue of `via`. */
  ghost predicate CoupledBut(p: World, senders: seq<Embed<Chan>>, via: SubChannelId)
    requires p.Shaped()
  {
    forall v, c | v in p.home && c in p.home && p.home[v] !in p.dead :: CoupledButAt(p, senders, via, v, c)
  }

  ghost predicate CoupledButAt(p: World, senders: seq<Embed<Chan>>, via: SubChannelId, v: SubChannelId, c: SubChannelId)
    requires p.Shaped() && v in p.home && c in p.home
  {
    CountedWith(p.book[c], QueuedCargo(p.queue[p.home[v]], v), LocalCargo(p.Local(v)), v, c,
                if v == via then Count(senders, c) else 0)
  }

  lemma DeliverCountedAt(w: World, a: World, h: Chan, v: SubChannelId, c: SubChannelId)
    requires Base(w) && w.CanDeliver(h) && w.queue[h][0].Data?
    requires a == w.(book := a.book) && a.Shaped() && a.Popped(h).Shaped()
    requires v in w.home && c in w.home && CoupledAt(w, v, c)
    requires Shifted(Arrive, w.book[c], a.book[c], w.queue[h][0].scid, Count(w.queue[h][0].senders, c))
    ensures CoupledButAt(a.Popped(h), w.Handled(h).dropped, w.queue[h][0].scid, v, c)
  {
    hide Base, Shifted, Demux.Act, Demux.ActData, LocalCargo, QueuedCargo, Count;
    PoppedCounted(w, a, h, v, c);
    CountNone(c);
  }

  lemma DeliverCounted(w: World, a: World, h: Chan)
    requires Base(w) && Coupled(w) && w.CanDeliver(h) && w.queue[h][0].Data?
    requires a == w.(book := a.book) && a.Shaped() && a.Popped(h).Shaped()
    requires AllShifted(w.book, a.book, Arrive, w.queue[h][0].senders, w.queue[h][0].scid)
    ensures CoupledBut(a.Popped(h), w.Handled(h).dropped, w.queue[h][0].scid)
  {
    forall v, c | v in w.home && c in w.home && w.home[v] !in w.dead
      ensures CoupledButAt(a.Popped(h), w.Handled(h).dropped, w.queue[h][0].scid, v, c)
    {
      assert CoupledAt(w, v, c);
      DeliverCountedAt(w, a, h, v, c);
    }
  }

  lemma NothingAstray(p: World, via: SubChannelId)
    requires p.Shaped() && CoupledBut(p, [], via)
    ensures Coupled(p)
  {
    forall v, c | v in p.home && c in p.home && p.home[v] !in p.dead ensures CoupledAt(p, v, c) {
      assert CoupledButAt(p, [], via, v, c);
    }
  }

  lemma DroppedWhole(w: World, h: Chan)
    requires Good(w) && w.CanDeliver(h) && w.queue[h][0].Data? && w.Handled(h).dropped != []
    ensures w.Handled(h).dropped == w.queue[h][0].senders
    ensures EmbedsOk(w.home, w.queue[h][0].senders)
    ensures w.queue[h][0].scid in w.home && w.home[w.queue[h][0].scid] !in w.dead
  {
    assert MsgOk(w.home, h, w.queue[h][0]);
  }

  /** Fates of copies inside demultiplexed messages. */
  predicate Late(fate: Fate) {
    !Early(fate) && !fate.Shed?
  }

  lemma CountedDeparted(fate: Fate, b: Book, b': Book, via: SubChannelId, queued: seq<Embed<Chan>>,
                        local: seq<Embed<Chan>>, v: SubChannelId, c: SubChannelId, n: nat)
    requires CountedWith(b, queued, local, v, c, if v == via then n else 0)
    requires Late(fate) && Shifted(fate, b, b', via, n)
    ensures Counted(b', queued, local, v, c)
  {
  }

  lemma DepartCoupledAt(p: World, t: World, fate: Fate, senders: seq<Embed<Chan>>, via: SubChannelId,
                        v: SubChannelId, c: SubChannelId)
    requires Late(fate) && p.Shaped() && t.Shaped() && SameCargo(p, t) && v in p.home && c in p.home
    requires Shifted(fate, p.book[c], t.book[c], via, Count(senders, c)) && CoupledButAt(p, senders, via, v, c)
    ensures CoupledAt(t, v, c)
  {
    hide CountedWith, Counted, Shifted;
    CountedDeparted(fate, p.book[c], t.book[c], via, QueuedCargo(p.queue[p.home[v]], v), LocalCargo(p.Local(v)),
                    v, c, Count(senders, c));
  }

  /** Copies that are in no local queue any more meet their fate. */
  lemma DepartGood(p: World, fate: Fate, senders: seq<Embed<Chan>>, via: SubChannelId)
    requires Late(fate)
    requires Base(p) && Alive(p) && EmbedsOk(p.home, senders) && via in p.home && p.home[via] !in p.dead
    requires p.CanMeetAll(senders, via) && CoupledBut(p, senders, via)
    ensures Good(p.MeetAll(fate, senders, via))
  {
    var t := p.MeetAll(fate, senders, via);
    ProvidedBy(p, fate, senders, via);
    MeetAllKeeps(p, fate, senders, via);
    hide Base, Alive, EmbedsOk, Shifted, Provided, CoupledButAt;
    forall v, c | v in t.home && c in t.home && t.home[v] !in t.dead ensures CoupledAt(t, v, c) {
      assert CoupledButAt(p, senders, via, v, c);
      DepartCoupledAt(p, t, fate, senders, via, v, c);
    }
  }

  /** Copies that are in no local queue any more have their tokens. */
  lemma ProvidedBy(p: World, fate: Fate, senders: seq<Embed<Chan>>, via: SubChannelId)
    requires Late(fate) && p.Shaped() && via in p.home && p.home[via] !in p.dead && CoupledBut(p, senders, via)
    ensures Provided(p.book, fate, senders, via, Receiver(p.home[via]))
  {
    forall c | c in p.book ensures Count(senders, c) <= Room(fate, p.book[c], via, Receiver(p.home[via])) {
      assert CoupledButAt(p, senders, via, via, c);
    }
  }

  // ---------------------------------------------------------------------------------------
  // A reference that cannot be resolved
  // ---------------------------------------------------------------------------------------

  /** The first reference in a message that cannot be resolved, if there is one. */
  type Fault = Option<nat>

  predicate CanFail(msg: Msg, fault: Fault) {
    match fault
    case None => true
    case Some(i) => if msg.Data? then i < |msg.senders| else msg.Sending? && i == 0
  }

  lemma CountSplit(senders: seq<Embed<Chan>>, i: nat, c: SubChannelId)
    requires i <= |senders|
    ensures Count(senders, c) == Count(senders[..i], c) + Count(senders[i..], c)
  {
    assert senders[..i] + senders[i..] == senders;
    CountAppend(senders[..i], senders[i..], c);
  }

  /** The copies before the reference can arrive. */
  lemma FirstProvided(w: World, h: Chan, i: nat)
    requires Base(w) && Coupled(w) && w.CanDeliver(h) && w.queue[h][0].Data? && i <= |w.queue[h][0].senders|
    ensures var msg := w.queue[h][0];
            && EmbedsOk(w.home, msg.senders[..i]) && EmbedsOk(w.home, msg.senders[i..])
            && msg.scid in w.home && w.home[msg.scid] == h && w.CanMeetAll(msg.senders[..i], msg.scid)
            && Provided(w.book, Arrive, msg.senders[..i], msg.scid, Receiver(h))
  {
    var msg := w.queue[h][0];
    HeadProvided(w, h);
    CanMeetThem(w, msg.senders[..i], msg.scid);
    forall c | c in w.book ensures Count(msg.senders[..i], c) <= Room(Arrive, w.book[c], msg.scid, Receiver(h)) {
      CountSplit(msg.senders, i, c);
    }
  }

  ghost function FirstArrived(w: World, h: Chan, i: nat): World
    requires Base(w) && Coupled(w) && w.CanDeliver(h) && w.queue[h][0].Data? && i <= |w.queue[h][0].senders|
  {
    FirstProvided(w, h, i);
    w.MeetAll(Arrive, w.queue[h][0].senders[..i], w.queue[h][0].scid)
  }

  /** Those behind it are stranded. */
  lemma FirstKeeps(w: World, h: Chan, i: nat)
    requires Good(w) && w.CanDeliver(h) && w.queue[h][0].Data? && i <= |w.queue[h][0].senders|
    ensures var msg, t := w.queue[h][0], FirstArrived(w, h, i);
            && Base(t) && Alive(t) && t == w.(book := t.book)
            && AllShifted(w.book, t.book, Arrive, msg.senders[..i], msg.scid)
  {
    FirstProvided(w, h, i);
    MeetAllKeeps(w, Arrive, w.queue[h][0].senders[..i], w.queue[h][0].scid);
  }

  /** Those behind it are stranded. */
  lemma OthersProvided(w: World, h: Chan, i: nat)
    requires Good(w) && w.CanDeliver(h) && w.queue[h][0].Data? && i <= |w.queue[h][0].senders|
    ensures var msg, t := w.queue[h][0], FirstArrived(w, h, i);
            && t.CanMeetAll(msg.senders[i..], msg.scid)
            && Provided(t.book, Strand, msg.senders[i..], msg.scid, Receiver(h))
  {
    var msg := w.queue[h][0];
    FirstProvided(w, h, i);
    HeadProvided(w, h);
    FirstKeeps(w, h, i);
    var t := FirstArrived(w, h, i);
    CanMeetThem(t, msg.senders[i..], msg.scid);
    RestProvided(w.book, t.book, msg.senders, i, msg.scid, Receiver(h));
  }

  lemma RestProvided(a: Books, b: Books, senders: seq<Embed<Chan>>, i: nat, via: SubChannelId, x: Source)
    requires i <= |senders| && Provided(a, Arrive, senders, via, x) && AllShifted(a, b, Arrive, senders[..i], via)
    ensures Provided(b, Strand, senders[i..], via, x)
  {
    forall c | c in b ensures Count(senders[i..], c) <= Room(Strand, b[c], via, x) {
      CountSplit(senders, i, c);
      assert Shifted(Arrive, a[c], b[c], via, Count(senders[..i], c));
    }
  }

  ghost function Scattered(w: World, h: Chan, i: nat): World
    requires Good(w) && w.CanDeliver(h) && w.queue[h][0].Data? && i <= |w.queue[h][0].senders|
  {
    OthersProvided(w, h, i);
    FirstArrived(w, h, i).MeetAll(Strand, w.queue[h][0].senders[i..], w.queue[h][0].scid)
  }

  lemma ScatteredKeeps(w: World, h: Chan, i: nat)
    requires Good(w) && w.CanDeliver(h) && w.queue[h][0].Data? && i <= |w.queue[h][0].senders|
    ensures var msg, t, a := w.queue[h][0], FirstArrived(w, h, i), Scattered(w, h, i);
            && Base(a) && Alive(a) && a == w.(book := a.book)
            && AllShifted(w.book, t.book, Arrive, msg.senders[..i], msg.scid)
            && AllShifted(t.book, a.book, Strand, msg.senders[i..], msg.scid)
  {
    FirstKeeps(w, h, i);
    FirstProvided(w, h, i);
    OthersProvided(w, h, i);
    MeetAllKeeps(FirstArrived(w, h, i), Strand, w.queue[h][0].senders[i..], w.queue[h][0].scid);
  }

  lemma LostBase(w: World, h: Chan)
    requires Base(w) && w.CanDeliver(h) && w.queue[h][0].Data? && w.queue[h][0].scid in w.book
    ensures Base(w.Lost(h))
  {
    var t := w.Lost(h);
    forall ch | ch in t.queue ensures forall i | 0 <= i < |t.queue[ch]| :: MsgOk(t.home, ch, t.queue[ch][i]) {
      assert forall i | 0 <= i < |w.queue[ch]| :: MsgOk(w.home, ch, w.queue[ch][i]);
    }
  }

  lemma LostView(w: World, h: Chan, d: SubChannelId)
    requires Base(w) && w.CanDeliver(h) && w.queue[h][0].Data? && w.queue[h][0].scid in w.book && d in w.home
    requires w.Lost(h).Shaped()
    ensures w.Lost(h).View(d) == if d == w.queue[h][0].scid then w.View(d).Lose() else w.View(d)
    ensures d == w.queue[h][0].scid ==> w.View(d).q != [] && w.View(d).q[0].Data?
  {
    assert MsgOk(w.home, h, w.queue[h][0]);
    assert Notes(w.queue[h], d) == NoteOf(w.queue[h][0], d) + Notes(w.queue[h][1..], d);
  }

  lemma LostAlive(w: World, h: Chan)
    requires Base(w) && Alive(w) && w.CanDeliver(h) && w.queue[h][0].Data? && w.queue[h][0].scid in w.book
    ensures w.Lost(h).Shaped() && Alive(w.Lost(h))
  {
    LostBase(w, h);
    forall d | d in w.home && w.home[d] !in w.dead ensures Life.Inv(w.Lost(h).View(d)) {
      LostView(w, h, d);
      if d == w.queue[h][0].scid {
        Life.LoseKeepsInv(w.View(d));
      }
    }
  }

  /** The arithmetic of being lost: `cargo` leaves the queue, `n` copies of it have arrived, `k` are stranded. */
  lemma CountedLost(b: Book, t: Book, a: Book, p: Book, via: SubChannelId, n: nat, k: nat, v: SubChannelId,
                    c: SubChannelId, cargo: seq<Embed<Chan>>, rest: seq<Embed<Chan>>, local: seq<Embed<Chan>>)
    requires Counted(b, cargo + rest, local, v, c) && Count(cargo, c) == if v == via then n + k else 0
    requires Shifted(Arrive, b, t, via, n) && Shifted(Strand, t, a, via, k)
    requires p.transit == a.transit && p.pending == a.pending
    ensures CountedWith(p, rest, local, v, c, if v == via then n else 0)
  {
    CountAppend(cargo, rest, c);
  }

  lemma LostFrame(w: World, a: World, h: Chan, v: SubChannelId, c: SubChannelId)
    requires Base(w) && w.CanDeliver(h) && w.queue[h][0].Data?
    requires a == w.(book := a.book) && a.Shaped() && a.Lost(h).Shaped() && v in w.home && c in w.home
    ensures var p := a.Lost(h);
            && QueuedCargo(w.queue[w.home[v]], v)
               == (if w.home[v] == h then Cargo(w.queue[h][0], v) else []) + QueuedCargo(p.queue[w.home[v]], v)
            && p.Local(v) == w.Local(v) && p.home == w.home && p.queue.Keys == w.queue.Keys
            && p.book.Keys == a.book.Keys
            && p.book[c].transit == a.book[c].transit && p.book[c].pending == a.book[c].pending
    ensures w.queue[h][0].scid in w.home && w.home[w.queue[h][0].scid] == h
  {
    assert MsgOk(w.home, h, w.queue[h][0]);
  }

  lemma LostCargo(w: World, h: Chan, i: nat, v: SubChannelId, c: SubChannelId)
    requires Base(w) && w.CanDeliver(h) && w.queue[h][0].Data? && i <= |w.queue[h][0].senders| && v in w.home
    ensures var msg := w.queue[h][0];
            Count(if w.home[v] == h then Cargo(msg, v) else [], c)
            == if v == msg.scid then Count(msg.senders[..i], c) + Count(msg.senders[i..], c) else 0
  {
    assert MsgOk(w.home, h, w.queue[h][0]);
    CountSplit(w.queue[h][0].senders, i, c);
  }

  lemma CountNone(c: SubChannelId)
    ensures Count([], c) == 0
  {
  }

  lemma LostCountedAt(w: World, t: World, a: World, h: Chan, i: nat, v: SubChannelId, c: SubChannelId)
    requires Base(w) && w.CanDeliver(h) && w.queue[h][0].Data? && i <= |w.queue[h][0].senders|
    requires a == w.(book := a.book) && a.CanDeliver(h) && w.queue[h][0].scid in a.book && a.Lost(h).Shaped()
    requires v in w.home && w.home[v] in w.queue && c in w.home && CoupledAt(w, v, c)
    requires c in w.book && c in t.book && c in a.book
    requires Shifted(Arrive, w.book[c], t.book[c], w.queue[h][0].scid, Count(w.queue[h][0].senders[..i], c))
    requires Shifted(Strand, t.book[c], a.book[c], w.queue[h][0].scid, Count(w.queue[h][0].senders[i..], c))
    ensures CoupledButAt(a.Lost(h), w.queue[h][0].senders[..i], w.queue[h][0].scid, v, c)
  {
    hide Base, Shifted, World.Lost, LocalCargo, QueuedCargo, World.Local, Count, Counted, CountedWith, World.Shaped;
    LostFrame(w, a, h, v, c);
    LostCargo(w, h, i, v, c);
    CountedLost(w.book[c], t.book[c], a.book[c], a.Lost(h).book[c], w.queue[h][0].scid,
                Count(w.queue[h][0].senders[..i], c), Count(w.queue[h][0].senders[i..], c), v, c,
                if w.home[v] == h then Cargo(w.queue[h][0], v) else [],
                QueuedCargo(a.Lost(h).queue[w.home[v]], v), LocalCargo(w.Local(v)));
  }

  lemma LostCounted(w: World, h: Chan, i: nat)
    requires Good(w) && w.CanDeliver(h) && w.queue[h][0].Data? && i <= |w.queue[h][0].senders|
    ensures var a := Scattered(w, h, i);
            && a.CanDeliver(h) && w.queue[h][0].scid in a.book && a.Lost(h).Shaped()
            && CoupledBut(a.Lost(h), w.queue[h][0].senders[..i], w.queue[h][0].scid)
  {
    var t, a, via := FirstArrived(w, h, i), Scattered(w, h, i), w.queue[h][0].scid;
    ScatteredKeeps(w, h, i);
    FirstProvided(w, h, i);
    LostBase(a, h);
    hide Alive, TablesOk, Addressed, EndsOk, CoupledButAt;
    forall v, c | v in w.home && c in w.home && w.home[v] !in w.dead
      ensures CoupledButAt(a.Lost(h), w.queue[h][0].senders[..i], via, v, c)
    {
      assert CoupledAt(w, v, c);
      LostCountedAt(w, t, a, h, i, v, c);
    }
  }

  /** After the loss, before the copies that had arrived are released. */
  lemma LostReady(w: World, h: Chan, i: nat)
    requires Good(w) && w.CanDeliver(h) && w.queue[h][0].Data? && i <= |w.queue[h][0].senders|
    ensures var msg, a := w.queue[h][0], Scattered(w, h, i);
            && a.CanDeliver(h) && a.queue == w.queue && msg.scid in a.book
            && Base(a.Lost(h)) && Alive(a.Lost(h)) && a.Lost(h).home == w.home && a.Lost(h).dead == w.dead
            && EmbedsOk(w.home, msg.senders[..i]) && msg.scid in w.home && w.home[msg.scid] !in w.dead
            && a.Lost(h).CanMeetAll(msg.senders[..i], msg.scid)
  {
    var msg, a := w.queue[h][0], Scattered(w, h, i);
    ScatteredKeeps(w, h, i);
    FirstProvided(w, h, i);
    assert MsgOk(w.home, h, msg);
    hide Coupled, MsgOk, AllShifted;
    LostBase(a, h);
    LostAlive(a, h);
    CanMeetThem(a.Lost(h), msg.senders[..i], msg.scid);
  }

  // An announcement whose carrier cannot be connected to.

  lemma WaivedMoves(w: World, h: Chan)
    requires Base(w) && w.CanDeliver(h) && w.queue[h][0].Sending?
    ensures var c, d := w.queue[h][0].scid, w.demux[h];
            && c in w.book && w.home[c] == h && Owns(d, c)
            && var next := d.subChannels[c].Refuse(w.queue[h][0].via, AlwaysFailing);
               Moved(d, Demux.Refused(d, c, w.queue[h][0].via).tables, c, next.0,
                     if next.1.Some? && c !in d.hungUp then [Demux.Marker(c)] else [])
  {
    var c, d := w.queue[h][0].scid, w.demux[h];
    assert MsgOk(w.home, h, w.queue[h][0]);
    FinishMoves(d, c, d.subChannels[c].Refuse(w.queue[h][0].via, AlwaysFailing));
  }

  lemma WaivedSpares(w: World, h: Chan, a: SubChannelId)
    requires Base(w) && w.CanDeliver(h) && w.queue[h][0].Sending?
    requires a in w.home && w.home[a] == h && a != w.queue[h][0].scid
    ensures Owns(w.demux[h], a)
    ensures Moved(w.demux[h], Demux.Refused(w.demux[h], w.queue[h][0].scid, w.queue[h][0].via).tables, a,
                  w.demux[h].subChannels[a], [])
  {
    var c, d := w.queue[h][0].scid, w.demux[h];
    assert MsgOk(w.home, h, w.queue[h][0]);
    FinishSpares(d, c, d.subChannels[c].Refuse(w.queue[h][0].via, AlwaysFailing), a);
  }

  lemma WaivedShaped(w: World, h: Chan)
    requires Base(w) && w.CanDeliver(h) && w.queue[h][0].Sending?
    ensures w.queue[h][0].scid in w.book && w.Waived(h).Shaped()
  {
    var c, d := w.queue[h][0].scid, Demux.Refused(w.demux[h], w.queue[h][0].scid, w.queue[h][0].via).tables;
    WaivedMoves(w, h);
    forall a | a in w.home && w.home[a] == h ensures Owns(d, a) {
      if a != c {
        WaivedSpares(w, h, a);
      }
    }
    Refit(w.home, w.queue.Keys, w.demux, w.book.Keys, h, d);
  }

  lemma WaivedView(w: World, h: Chan)
    requires Base(w) && w.CanDeliver(h) && w.queue[h][0].Sending?
    requires w.queue[h][0].scid in w.book && w.Waived(h).Shaped()
    ensures var c := w.queue[h][0].scid;
            w.View(c).q != [] && w.View(c).q[0].Sending? && w.Waived(h).View(c) == w.View(c).Forget()
  {
    hide Demux.Refused, Machine.Refuse;
    var msg, d := w.queue[h][0], w.demux[h];
    var c := msg.scid;
    WaivedMoves(w, h);
    assert Notes(w.queue[h], c) == NoteOf(msg, c) + Notes(w.queue[h][1..], c);
    var handed := w.Machine(c).Refuse(msg.via, AlwaysFailing).1;
    var items := if handed.Some? && c !in d.hungUp then [Demux.Marker(c)] else [];
    assert w.Waived(h).Local(c) == w.Local(c) + items;
    LogAppend(w.book[c].taken, w.Local(c), items);
    assert Outs(items) == if handed.Some? && c !in d.hungUp then [Life.Closed] else [];
    assert Outs(w.book[c].taken + w.Local(c)) + [] == Outs(w.book[c].taken + w.Local(c));
  }

  lemma WaivedOther(w: World, h: Chan, a: SubChannelId)
    requires Base(w) && w.CanDeliver(h) && w.queue[h][0].Sending?
    requires w.queue[h][0].scid in w.book && w.Waived(h).Shaped() && a in w.home && a != w.queue[h][0].scid
    ensures w.Waived(h).View(a) == w.View(a)
  {
    hide Demux.Refused, TablesOk, Addressed, EndsOk, EmbedsOk, Notes, Outs;
    if w.home[a] == h {
      WaivedSpares(w, h, a);
      assert w.Local(a) + [] == w.Local(a);
      NotesRest(w.queue[h], a);
    }
  }

  /** The local queue gets at most a marker. */
  lemma WaivedLocal(w: World, h: Chan, a: SubChannelId)
    requires Base(w) && w.CanDeliver(h) && w.queue[h][0].Sending? && a in w.home
    requires w.queue[h][0].scid in w.book && w.Waived(h).Shaped()
    ensures w.Waived(h).Local(a) == w.Local(a) || w.Waived(h).Local(a) == w.Local(a) + [Demux.Marker(a)]
    ensures w.Waived(h).Machine(a).probes == w.Machine(a).probes
            || (a == w.queue[h][0].scid
                && w.Waived(h).Machine(a).probes == w.Machine(a).probes[w.queue[h][0].via := AlwaysFailing])
  {
    hide Demux.Refused, TablesOk, Addressed, EndsOk, EmbedsOk;
    assert w.Local(a) + [] == w.Local(a);
    if a == w.queue[h][0].scid {
      WaivedMoves(w, h);
    } else if w.home[a] == h {
      WaivedSpares(w, h, a);
    }
  }

  lemma MarkedCargo(items: seq<Item>, items': seq<Item>, a: SubChannelId)
    requires items' == items || items' == items + [Demux.Marker(a)]
    ensures LocalCargo(items') == LocalCargo(items)
  {
    LocalAppend(items, Demux.Marker(a));
    assert LocalCargo(items) + [] == LocalCargo(items);
  }

  lemma WaivedCargo(w: World, h: Chan, a: SubChannelId)
    requires Base(w) && w.CanDeliver(h) && w.queue[h][0].Sending? && a in w.home
    requires w.queue[h][0].scid in w.book && w.Waived(h).Shaped()
    ensures LocalCargo(w.Waived(h).Local(a)) == LocalCargo(w.Local(a))
  {
    WaivedLocal(w, h, a);
    MarkedCargo(w.Local(a), w.Waived(h).Local(a), a);
    hide World.Waived, Base, LocalCargo, Demux.Refused;
  }

  lemma WaivedTables(w: World, h: Chan, a: SubChannelId)
    requires Base(w) && w.CanDeliver(h) && w.queue[h][0].Sending? && a in w.home
    requires w.queue[h][0].scid in w.book && w.Waived(h).Shaped()
    ensures TablesOk(w.home, w.Waived(h).demux, a)
  {
    hide EmbedsOk, LocalCargo, Demux.Refused, Demux.Finish, EndsOk;
    assert MsgOk(w.home, h, w.queue[h][0]);
    assert TablesOk(w.home, w.demux, a);
    hide Base;
    WaivedLocal(w, h, a);
  }

  lemma WaivedBase(w: World, h: Chan)
    requires Base(w) && w.CanDeliver(h) && w.queue[h][0].Sending?
    ensures w.queue[h][0].scid in w.book && Base(w.Waived(h))
  {
    WaivedShaped(w, h);
    var t := w.Waived(h);
    forall a | a in w.home ensures TablesOk(w.home, t.demux, a) {
      WaivedTables(w, h, a);
    }
    forall ch | ch in t.queue ensures forall i | 0 <= i < |t.queue[ch]| :: MsgOk(t.home, ch, t.queue[ch][i]) {
      assert forall i | 0 <= i < |w.queue[ch]| :: MsgOk(w.home, ch, w.queue[ch][i]);
    }
  }

  lemma WaivedCoupledAt(w: World, h: Chan, v: SubChannelId, c: SubChannelId)
    requires w.Shaped() && w.CanDeliver(h) && w.queue[h][0].Sending? && v in w.home && c in w.home
    requires w.queue[h][0].scid in w.book && w.Waived(h).Shaped() && CoupledAt(w, v, c)
    requires LocalCargo(w.Waived(h).Local(v)) == LocalCargo(w.Local(v))
    ensures CoupledAt(w.Waived(h), v, c)
  {
    assert QueuedCargo(w.queue[h], v) == QueuedCargo(w.queue[h][1..], v);
  }

  lemma WaivedCoupled(w: World, h: Chan)
    requires Base(w) && Coupled(w) && w.CanDeliver(h) && w.queue[h][0].Sending?
    ensures w.queue[h][0].scid in w.book && w.Waived(h).Shaped() && Coupled(w.Waived(h))
  {
    WaivedShaped(w, h);
    var t := w.Waived(h);
    hide TablesOk, Addressed, EndsOk;
    forall v, c | v in t.home && c in t.home && t.home[v] !in t.dead ensures CoupledAt(t, v, c) {
      assert CoupledAt(w, v, c);
      WaivedCargo(w, h, v);
      WaivedCoupledAt(w, h, v, c);
    }
  }

  /** That keeps the whole system in order exactly if the subchannel can do without the announcement. */
  lemma WaivedGoodIff(w: World, h: Chan)
    requires Good(w) && w.CanDeliver(h) && w.queue[h][0].Sending?
    ensures var c := w.queue[h][0].scid;
            && c in w.book && w.View(c).q != [] && w.View(c).q[0].Sending?
            && (Good(w.Waived(h)) <==> Life.Harmless(w.View(c)))
  {
    var c := w.queue[h][0].scid;
    WaivedBase(w, h);
    WaivedCoupled(w, h);
    WaivedView(w, h);
    assert MsgOk(w.home, h, w.queue[h][0]);
    Life.ForgetKeepsInvIff(w.View(c));
    hide Base, Coupled, Life.Inv, Life.Harmless, World.Waived;
    forall a | a in w.home && a != c ensures w.Waived(h).View(a) == w.View(a) {
      WaivedOther(w, h, a);
    }
  }

  /** The data message at the head of a queue, when all its references can be resolved. */
  ghost function DeliverData(w: World, h: Chan): World
    requires Good(w) && w.CanDeliver(h) && w.queue[h][0].Data?
  {
    DeliverReady(w, h);
    var p := Arrived(w, h).Popped(h);
    if w.Handled(h).dropped == [] then p else p.MeetAll(Release, w.queue[h][0].senders, w.queue[h][0].scid)
  }

  /** The data message at the head of a queue, when its i-th reference cannot be resolved. */
  ghost function LoseData(w: World, h: Chan, i: nat): World
    requires Good(w) && w.CanDeliver(h) && w.queue[h][0].Data? && i < |w.queue[h][0].senders|
  {
    LostReady(w, h, i);
    Scattered(w, h, i).Lost(h).MeetAll(Release, w.queue[h][0].senders[..i], w.queue[h][0].scid)
  }

  /**
   Delivering the head of a queue. If all its references can be resolved, the copies inside a
   data message get their trackers and the message is handled; copies in a message that nobody
   can receive any more are released. If `fault` is the first that cannot, a data message is
   lost with all its copies, of which those before the reference had got their trackers, and an
   announcement is not recorded.
   */
  ghost function Deliver(w: World, h: Chan, fault: Fault): World
    requires Good(w) && w.CanDeliver(h) && CanFail(w.queue[h][0], fault)
  {
    if w.queue[h][0].Data? then
      if fault.None? then DeliverData(w, h) else LoseData(w, h, fault.value)
    else if fault.None? then w.Popped(h)
    else
      WaivedShaped(w, h);
      w.Waived(h)
  }

  lemma ArrivedGood(w: World, h: Chan)
    requires Good(w) && w.CanDeliver(h) && w.queue[h][0].Data?
    ensures Good(DeliverData(w, h))
  {
    hide Base, Alive, Coupled, CoupledBut, World.Popped, MsgOk, Demux.Act, EmbedsOk, Arrived, AllShifted;
    DeliverReady(w, h);
    ArrivedKeeps(w, h);
    DeliverCounted(w, Arrived(w, h), h);
    var p := Arrived(w, h).Popped(h);
    if w.Handled(h).dropped == [] {
      NothingAstray(p, w.queue[h][0].scid);
    } else {
      DroppedWhole(w, h);
      hide Good;
      DepartGood(p, Release, w.queue[h][0].senders, w.queue[h][0].scid);
    }
  }

  /** A data message is lost, with all that is in it. */
  lemma LostGood(w: World, h: Chan, i: nat)
    requires Good(w) && w.CanDeliver(h) && w.queue[h][0].Data? && i < |w.queue[h][0].senders|
    ensures Good(LoseData(w, h, i))
  {
    hide Base, Alive, Coupled, CoupledBut, World.Lost, EmbedsOk, Scattered, World.Shaped, MsgOk;
    LostReady(w, h, i);
    LostCounted(w, h, i);
    hide Good;
    DepartGood(Scattered(w, h, i).Lost(h), Release, w.queue[h][0].senders[..i], w.queue[h][0].scid);
  }

  /** An announcement that is not recorded must be one that the subchannel can do without. */
  ghost predicate DeliverSafe(w: World, h: Chan, fault: Fault)
    requires Good(w) && w.CanDeliver(h) && CanFail(w.queue[h][0], fault)
  {
    fault.Some? && w.queue[h][0].Sending? ==> (WaivedGoodIff(w, h); Life.Harmless(w.View(w.queue[h][0].scid)))
  }

  /** Handling the head of a queue keeps the whole system in order exactly if it is safe. */
  lemma DeliverGoodIff(w: World, h: Chan, fault: Fault)
    requires Good(w) && w.CanDeliver(h) && CanFail(w.queue[h][0], fault)
    ensures Good(Deliver(w, h, fault)) <==> DeliverSafe(w, h, fault)
  {
    if w.queue[h][0].Data? {
      if fault.None? {
        ArrivedGood(w, h);
      } else {
        LostGood(w, h, fault.value);
      }
    } else if fault.None? {
      QuietDeliverGood(w, h);
    } else {
      WaivedGoodIff(w, h);
    }
    hide Good, Life.Harmless;
  }

  // ---------------------------------------------------------------------------------------
  // Receiving, and dropping a receiver
  // ---------------------------------------------------------------------------------------

  lemma TakeShaped(w: World, v: SubChannelId, n: nat, give: bool, hangUp: bool)
    requires w.Shaped() && v in w.home && n <= |w.Local(v)|
    ensures w.Take(v, n, give, hangUp).Shaped()
  {
  }

  lemma TakeView(w: World, v: SubChannelId, n: nat, give: bool, hangUp: bool, d: SubChannelId)
    requires w.Shaped() && v in w.home && n <= |w.Local(v)| && d in w.home && w.Take(v, n, give, hangUp).Shaped()
    ensures w.Take(v, n, give, hangUp).View(d) ==
            if d == v && hangUp then w.View(d).ReceiverGone() else w.View(d)
  {
    hide Outs, Notes;
    if d == v {
      Regroup(w.book[v].taken, w.Local(v), n);
    }
  }

  lemma Regroup(taken: seq<Item>, local: seq<Item>, n: nat)
    requires n <= |local|
    ensures (taken + local[..n]) + local[n..] == taken + local
  {
  }

  lemma TakeTables(w: World, v: SubChannelId, n: nat, give: bool, hangUp: bool, d: SubChannelId)
    requires w.Shaped() && v in w.home && n <= |w.Local(v)| && d in w.home && w.Take(v, n, give, hangUp).Shaped()
    requires TablesOk(w.home, w.demux, d)
    ensures TablesOk(w.home, w.Take(v, n, give, hangUp).demux, d)
  {
  }

  lemma TakeBase(w: World, v: SubChannelId, n: nat, give: bool, hangUp: bool)
    requires Base(w) && v in w.home && n <= |w.Local(v)|
    ensures Base(w.Take(v, n, give, hangUp))
  {
    TakeShaped(w, v, n, give, hangUp);
    forall d | d in w.home ensures TablesOk(w.home, w.Take(v, n, give, hangUp).demux, d) {
      TakeTables(w, v, n, give, hangUp, d);
    }
  }

  lemma TakeAlive(w: World, v: SubChannelId, n: nat, give: bool, hangUp: bool)
    requires w.Shaped() && Alive(w) && v in w.home && w.home[v] !in w.dead && n <= |w.Local(v)|
    requires w.Take(v, n, give, hangUp).Shaped()
    ensures Alive(w.Take(v, n, give, hangUp))
  {
    forall d | d in w.home && w.home[d] !in w.dead ensures Life.Inv(w.Take(v, n, give, hangUp).View(d)) {
      TakeView(w, v, n, give, hangUp, d);
      Life.ReceiverGoneKeepsInv(w.View(d));
    }
  }

  lemma CountedTaken(b: Book, queued: seq<Embed<Chan>>, head: seq<Item>, rest: seq<Item>, v: SubChannelId,
                     c: SubChannelId)
    requires Counted(b, queued, LocalCargo(head + rest), v, c)
    ensures CountedWith(b, queued, LocalCargo(rest), v, c, Count(LocalCargo(head), c))
  {
    LocalConcat(head, rest);
    CountAppend(LocalCargo(head), LocalCargo(rest), c);
  }

  lemma TakeCountedAt(w: World, v: SubChannelId, n: nat, give: bool, hangUp: bool, u: SubChannelId, c: SubChannelId)
    requires w.Shaped() && v in w.home && n <= |w.Local(v)| && w.Take(v, n, give, hangUp).Shaped()
    requires u in w.home && c in w.home && CoupledAt(w, u, c)
    ensures CoupledButAt(w.Take(v, n, give, hangUp), LocalCargo(w.Local(v)[..n]), v, u, c)
  {
    if u == v {
      assert w.Local(v)[..n] + w.Local(v)[n..] == w.Local(v);
      CountedTaken(w.book[c], QueuedCargo(w.queue[w.home[u]], u), w.Local(v)[..n], w.Local(v)[n..], u, c);
    }
  }

  lemma TakeCounted(w: World, v: SubChannelId, n: nat, give: bool, hangUp: bool)
    requires w.Shaped() && Coupled(w) && v in w.home && n <= |w.Local(v)| && w.Take(v, n, give, hangUp).Shaped()
    ensures CoupledBut(w.Take(v, n, give, hangUp), LocalCargo(w.Local(v)[..n]), v)
  {
    hide CountedWith, Counted;
    var t := w.Take(v, n, give, hangUp);
    forall u, c | u in t.home && c in t.home && t.home[u] !in t.dead
      ensures CoupledButAt(t, LocalCargo(w.Local(v)[..n]), v, u, c)
    {
      assert CoupledAt(w, u, c);
      TakeCountedAt(w, v, n, give, hangUp, u, c);
    }
  }

  lemma {:induction false} CargoOk(home: Homes, v: SubChannelId, items: seq<Item>)
    requires forall i | 0 <= i < |items| :: ItemOk(home, v, items[i])
    ensures EmbedsOk(home, LocalCargo(items))
  {
    if items != [] {
      assert ItemOk(home, v, items[0]);
      CargoOk(home, v, items[1..]);
    }
  }

  lemma TakeReady(w: World, v: SubChannelId, n: nat, give: bool, hangUp: bool)
    requires Base(w) && v in w.home && n <= |w.Local(v)|
    ensures w.Take(v, n, give, hangUp).CanMeetAll(LocalCargo(w.Local(v)[..n]), v)
    ensures EmbedsOk(w.home, LocalCargo(w.Local(v)[..n]))
  {
    TakeShaped(w, v, n, give, hangUp);
    assert TablesOk(w.home, w.demux, v);
    CargoOk(w.home, v, w.Local(v)[..n]);
    CanMeetThem(w.Take(v, n, give, hangUp), LocalCargo(w.Local(v)[..n]), v);
  }

  // Receiving.

  /** An arrival can be reported as long as the home channel lives. */
  predicate Reachable(dead: set<Chan>, senders: seq<Embed<Chan>>) {
    forall i | 0 <= i < |senders| :: senders[i].sender !in dead
  }

  /**
   How a `recv` on `v` can end. Rebuilding the message stops, if `fault` is `Some(i)`, behind its
   i-th subsender: because the arrival of the next cannot be reported, or because the payload is
   not what the caller expects.
   */
  ghost predicate CanTake(w: World, v: SubChannelId, fault: Fault)
    requires w.CanRecv(v)
  {
    var cargo := LocalCargo(w.Local(v)[..1]);
    match fault
    case None => Reachable(w.dead, cargo)
    case Some(i) => w.Local(v)[0].Resolved? && i <= |cargo| && Reachable(w.dead, cargo[..i])
  }

  /**
   Rebuilding a message fails after `i` subsenders: those are dropped with the part of the message
   that was rebuilt, and the others are dropped without a word.
   */
  ghost function Spoil(t: World, cargo: seq<Embed<Chan>>, i: nat, v: SubChannelId): World
    requires t.CanMeetAll(cargo, v) && i <= |cargo|
  {
    t.MeetAll(Accept, cargo[..i], v).MeetAll(Shed, cargo[..i], v).MeetAll(Release, cargo[i..], v)
  }

  /** The first items are taken out of a local queue, and all copies inside them meet one fate. */
  ghost function Withdraw(w: World, v: SubChannelId, n: nat, give: bool, hangUp: bool, fate: Fate): World
    requires Base(w) && v in w.home && n <= |w.Local(v)|
  {
    TakeReady(w, v, n, give, hangUp);
    w.Take(v, n, give, hangUp).MeetAll(fate, LocalCargo(w.Local(v)[..n]), v)
  }

  /**
   Receiving: every copy inside the message becomes a live one, if the message can be rebuilt.
   Otherwise the message is lost, though it has been taken.
   */
  ghost function Recv(w: World, v: SubChannelId, fault: Fault): World
    requires Base(w) && w.CanRecv(v) && CanTake(w, v, fault)
  {
    if fault.None? then Withdraw(w, v, 1, true, false, Accept)
    else
      TakeReady(w, v, 1, false, false);
      Spoil(w.Take(v, 1, false, false), LocalCargo(w.Local(v)[..1]), fault.value, v)
  }

  /** Dropping a receiver: every copy inside its local queue is reported as not received. */
  ghost function DropReceiver(w: World, v: SubChannelId): World
    requires Base(w) && v in w.home
  {
    Withdraw(w, v, |w.Local(v)|, false, true, Refuse)
  }

  lemma TakeKeeps(w: World, v: SubChannelId, n: nat, give: bool, hangUp: bool)
    requires Good(w) && v in w.home && w.home[v] !in w.dead && n <= |w.Local(v)|
    ensures var t, cargo := w.Take(v, n, give, hangUp), LocalCargo(w.Local(v)[..n]);
            && Base(t) && Alive(t) && t.home == w.home && t.dead == w.dead && EmbedsOk(t.home, cargo)
            && t.CanMeetAll(cargo, v) && CoupledBut(t, cargo, v)
  {
    TakeReady(w, v, n, give, hangUp);
    TakeBase(w, v, n, give, hangUp);
    TakeAlive(w, v, n, give, hangUp);
    TakeCounted(w, v, n, give, hangUp);
    hide Base, Alive, CoupledBut, Coupled, EmbedsOk, LocalCargo;
  }

  // A message that cannot be rebuilt.

  lemma CountedStill(fate: Fate, b: Book, b': Book, via: SubChannelId, queued: seq<Embed<Chan>>,
                     local: seq<Embed<Chan>>, v: SubChannelId, c: SubChannelId, n: nat, m: nat)
    requires CountedWith(b, queued, local, v, c, if v != via then 0 else if fate.Shed? then m else n + m)
    requires !Early(fate) && Shifted(fate, b, b', via, n)
    ensures CountedWith(b', queued, local, v, c, if v == via then m else 0)
  {
  }

  /** What `CoupledBut` leaves out once some copies have met their fate. */
  lemma StillCoupledBut(p: World, t: World, fate: Fate, senders: seq<Embed<Chan>>, rest: seq<Embed<Chan>>,
                        via: SubChannelId)
    requires !Early(fate) && p.Shaped() && t.Shaped() && SameCargo(p, t)
    requires AllShifted(p.book, t.book, fate, senders, via)
    requires CoupledBut(p, if fate.Shed? then rest else senders + rest, via)
    ensures CoupledBut(t, rest, via)
  {
    hide CountedWith, Shifted;
    forall v, c | v in t.home && c in t.home && t.home[v] !in t.dead ensures CoupledButAt(t, rest, via, v, c) {
      assert CoupledButAt(p, if fate.Shed? then rest else senders + rest, via, v, c);
      CountAppend(senders, rest, c);
      CountedStill(fate, p.book[c], t.book[c], via, QueuedCargo(p.queue[p.home[v]], v), LocalCargo(p.Local(v)),
                   v, c, Count(senders, c), Count(rest, c));
    }
  }

  /** Each accepted copy is one more live copy at the receiver of its carrier. */
  ghost predicate Gained(book: Books, book': Books, senders: seq<Embed<Chan>>, x: Source) {
    && book'.Keys == book.Keys
    && forall c | c in book ::
         book'[c].live[x] == book[c].live[x] + Count(senders, c) && book'[c].borrowed == book[c].borrowed
  }

  lemma FareGains(b: Book, b': Book, via: SubChannelId, x: Source)
    requires b' == b.Fare(Accept, via, x).(orphaned := b'.orphaned)
    ensures b'.live[x] == b.live[x] + 1 && b'.borrowed == b.borrowed
  {
  }

  lemma GainedOne(a: Books, b: Books, e: Embed<Chan>, via: SubChannelId, x: Source)
    requires e.scid in a && e.scid in b
    requires b == a[e.scid := a[e.scid].Fare(Accept, via, x).(orphaned := b[e.scid].orphaned)]
    ensures Gained(a, b, [e], x)
  {
    hide Book.Fare, Count;
    FareGains(a[e.scid], b[e.scid], via, x);
    forall c | c in a
      ensures b[c].live[x] == a[c].live[x] + Count([e], c) && b[c].borrowed == a[c].borrowed
    {
      CountOne(e, c);
    }
  }

  lemma CountOne(e: Embed<Chan>, c: SubChannelId)
    ensures Count([e], c) == if e.scid == c then 1 else 0
  {
    assert [e][1..] == [];
  }

  lemma FirstGained(w: World, senders: seq<Embed<Chan>>, via: SubChannelId)
    requires senders != [] && w.CanMeet(senders[0], via)
    ensures Gained(w.book, w.Meet(Accept, senders[0], via).book, senders[..1], Receiver(w.home[via]))
  {
    assert senders[0].scid in w.book && senders[..1] == [senders[0]];
    hide World.Meet, World.Shaped, Gained, Book.Fare;
    GainedOne(w.book, w.Meet(Accept, senders[0], via).book, senders[0], via, Receiver(w.home[via]));
  }

  lemma GainedTwice(a: Books, b: Books, c: Books, senders: seq<Embed<Chan>>, x: Source)
    requires senders != [] && Gained(a, b, senders[..1], x) && Gained(b, c, senders[1..], x)
    ensures Gained(a, c, senders, x)
  {
    assert senders[..1] + senders[1..] == senders;
    forall d | d in a ensures Count(senders, d) == Count(senders[..1], d) + Count(senders[1..], d) {
      CountAppend(senders[..1], senders[1..], d);
    }
    hide Count;
  }

  lemma {:induction false} AcceptedAll(w: World, senders: seq<Embed<Chan>>, via: SubChannelId)
    requires w.CanMeetAll(senders, via)
    ensures Gained(w.book, w.MeetAll(Accept, senders, via).book, senders, Receiver(w.home[via]))
    decreases |senders|
  {
    hide World.Meet, World.Shaped, Gained;
    if senders == [] {
      GainedNothing(w.book, Receiver(w.home[via]));
    } else {
      var t := w.Meet(Accept, senders[0], via);
      assert t.CanMeetAll(senders[1..], via);
      FirstGained(w, senders, via);
      AcceptedAll(t, senders[1..], via);
      GainedTwice(w.book, t.book, t.MeetAll(Accept, senders[1..], via).book, senders, Receiver(w.home[via]));
    }
  }

  lemma GainedNothing(book: Books, x: Source)
    ensures Gained(book, book, [], x)
  {
  }

  /** A copy refers to the channel its subchannel was created on. */
  lemma {:induction false} NoneElsewhere(home: Homes, senders: seq<Embed<Chan>>, c: SubChannelId)
    requires EmbedsOk(home, senders) && c in home && forall i | 0 <= i < |senders| :: senders[i].sender != home[c]
    ensures Count(senders, c) == 0
  {
    if senders != [] {
      assert EmbedOk(home, senders[0]) && senders[0].sender != home[c];
      NoneElsewhere(home, senders[1..], c);
    }
  }

  lemma ShedRoom(b: Book, b': Book, via: SubChannelId, x: Source, n: nat)
    requires b'.live[x] == b.live[x] + n && b'.borrowed == b.borrowed && (x in b.borrowed ==> x in b.live)
    ensures n <= Room(Shed, b', via, x)
  {
  }

  lemma BorrowedIsLive(w: World, c: SubChannelId, x: Source)
    requires w.Shaped() && c in w.home && Life.Inv(w.View(c))
    ensures c in w.book && (x in w.book[c].borrowed ==> x in w.book[c].live)
  {
  }

  /** Copies that have just been received can be dropped, whatever else is done with copies at that source. */
  lemma ReceivedProvided(t: World, a: World, first: seq<Embed<Chan>>, via: SubChannelId)
    requires t.Shaped() && Alive(t) && EmbedsOk(t.home, first) && Reachable(t.dead, first) && via in t.home
    requires Gained(t.book, a.book, first, Receiver(t.home[via]))
    ensures Provided(a.book, Shed, first, via, Receiver(t.home[via]))
  {
    hide Life.Inv, Count, Room, World.View;
    var x := Receiver(t.home[via]);
    forall c | c in a.book ensures Count(first, c) <= Room(Shed, a.book[c], via, x) {
      if t.home[c] in t.dead {
        NoneElsewhere(t.home, first, c);
      } else {
        BorrowedIsLive(t, c, x);
        ShedRoom(t.book[c], a.book[c], via, x, Count(first, c));
      }
    }
  }

  lemma FirstReceived(t: World, first: seq<Embed<Chan>>, rest: seq<Embed<Chan>>, v: SubChannelId)
    requires Base(t) && Alive(t) && EmbedsOk(t.home, first) && v in t.home && t.home[v] !in t.dead
    requires t.CanMeetAll(first, v) && CoupledBut(t, first + rest, v)
    ensures var a := t.MeetAll(Accept, first, v);
            && Base(a) && Alive(a) && a.home == t.home && a.dead == t.dead && CoupledBut(a, rest, v)
  {
    var a := t.MeetAll(Accept, first, v);
    FirstOfProvided(t, first, rest, v);
    MeetAllKeeps(t, Accept, first, v);
    hide Base, Alive, AllShifted, SameCargo;
    StillCoupledBut(t, a, Accept, first, rest, v);
  }

  lemma FirstOfProvided(t: World, first: seq<Embed<Chan>>, rest: seq<Embed<Chan>>, v: SubChannelId)
    requires t.Shaped() && v in t.home && t.home[v] !in t.dead && CoupledBut(t, first + rest, v)
    ensures Provided(t.book, Accept, first, v, Receiver(t.home[v]))
  {
    ProvidedBy(t, Accept, first + rest, v);
    forall c | c in t.book ensures Count(first, c) <= Room(Accept, t.book[c], v, Receiver(t.home[v])) {
      CountAppend(first, rest, c);
    }
  }

  lemma ReceivedDropped(t: World, a: World, first: seq<Embed<Chan>>, rest: seq<Embed<Chan>>, v: SubChannelId)
    requires t.Shaped() && Alive(t) && EmbedsOk(t.home, first) && Reachable(t.dead, first) && v in t.home
    requires t.CanMeetAll(first, v) && a == t.MeetAll(Accept, first, v)
    requires Base(a) && Alive(a) && a.home == t.home && a.dead == t.dead && CoupledBut(a, rest, v)
    ensures a.CanMeetAll(first, v)
    ensures var b := a.MeetAll(Shed, first, v);
            && Base(b) && Alive(b) && b.home == t.home && b.dead == t.dead && CoupledBut(b, rest, v)
  {
    AcceptedAll(t, first, v);
    ReceivedProvided(t, a, first, v);
    CanMeetThem(a, first, v);
    MeetAllKeeps(a, Shed, first, v);
    hide Base, Alive, AllShifted, SameCargo;
    StillCoupledBut(a, a.MeetAll(Shed, first, v), Shed, first, rest, v);
  }

  lemma SpoilGood(t: World, cargo: seq<Embed<Chan>>, i: nat, v: SubChannelId)
    requires Base(t) && Alive(t) && EmbedsOk(t.home, cargo) && v in t.home && t.home[v] !in t.dead
    requires t.CanMeetAll(cargo, v) && CoupledBut(t, cargo, v) && i <= |cargo| && Reachable(t.dead, cargo[..i])
    ensures Good(Spoil(t, cargo, i, v))
  {
    hide Base, Alive, CoupledBut, World.MeetAll, World.Shaped, Good;
    var first, rest := cargo[..i], cargo[i..];
    assert first + rest == cargo;
    FirstReceived(t, first, rest, v);
    var a := t.MeetAll(Accept, first, v);
    ReceivedDropped(t, a, first, rest, v);
    var b := a.MeetAll(Shed, first, v);
    DepartGood(b, Release, rest, v);
  }

  lemma WithdrawGood(w: World, v: SubChannelId, n: nat, give: bool, hangUp: bool, fate: Fate)
    requires Good(w) && v in w.home && w.home[v] !in w.dead && n <= |w.Local(v)| && Late(fate)
    ensures Good(Withdraw(w, v, n, give, hangUp, fate))
  {
    TakeReady(w, v, n, give, hangUp);
    TakeKeeps(w, v, n, give, hangUp);
    hide Base, Alive, CoupledBut, Coupled, EmbedsOk;
    DepartGood(w.Take(v, n, give, hangUp), fate, LocalCargo(w.Local(v)[..n]), v);
  }

  lemma RecvGood(w: World, v: SubChannelId, fault: Fault)
    requires Good(w) && w.CanRecv(v) && CanTake(w, v, fault)
    ensures Good(Recv(w, v, fault))
  {
    hide Base, Alive, CoupledBut, Coupled, EmbedsOk, LocalCargo, Withdraw, Spoil;
    if fault.None? {
      WithdrawGood(w, v, 1, true, false, Accept);
    } else {
      TakeReady(w, v, 1, false, false);
      TakeKeeps(w, v, 1, false, false);
      SpoilGood(w.Take(v, 1, false, false), LocalCargo(w.Local(v)[..1]), fault.value, v);
    }
  }

  lemma DropReceiverGood(w: World, v: SubChannelId)
    requires Good(w) && v in w.home && w.home[v] !in w.dead
    ensures Good(DropReceiver(w, v))
  {
    hide Coupled, Alive, TablesOk, Addressed, EndsOk, Withdraw;
    WithdrawGood(w, v, |w.Local(v)|, false, true, Refuse);
    hide Good;
  }
}
