/**
 Any number of IPC channels and subchannels, with every queue, demultiplexer and copy of a
 subsender in one state. A run is a sequence of events; each subchannel, looked at on its own,
 goes through a life as described by module `Subchannel`.
 */
module System {
  import opened Basics
  import opened Protocol
  import opened SubchannelLifecycle
  import Demux
  import Life = Subchannel

  type Msg = MultiMessage<Chan>

  type Item = Demux.Item<Chan>

  // ---------------------------------------------------------------------------------------
  // One subchannel's share of a shared queue
  // ---------------------------------------------------------------------------------------

  /** What a message says about a subchannel. */
  function NoteOf(msg: Msg, c: SubChannelId): seq<Life.Note> {
    match msg
    case Connect(_) => []
    case SubChannelName(_) => []
    case Data(scid, payload, _) => if scid == c then [Life.Note.Data(payload)] else []
    case Sending(scid, via, viaChan) => if scid == c then [Life.Note.Sending(via, OnResponses(viaChan))] else []
    case SendingViaIpcChannel(scid, n) =>
      if scid == c then [Life.Note.Sending(EMPTY_SUBCHANNEL_ID, OnKeepalive(n))] else []
    case Received(scid, via, source) => if scid == c then [Life.Note.Received(via, source)] else []
    case ReceiveFailed(scid, via) => if scid == c then [Life.Note.ReceiveFailed(via)] else []
    case Disconnect(scid, source) => if scid == c then [Life.Note.Disconnect(source)] else []
  }

  function Notes(queue: seq<Msg>, c: SubChannelId): seq<Life.Note> {
    if queue == [] then [] else NoteOf(queue[0], c) + Notes(queue[1..], c)
  }

  /** How many copies of subchannel `c` are among some embedded subsenders. */
  function Count(senders: seq<Embed<Chan>>, c: SubChannelId): nat {
    if senders == [] then 0 else (if senders[0].scid == c then 1 else 0) + Count(senders[1..], c)
  }

  /** The subsenders inside a message, if it is a data message for `via`. */
  function Cargo(msg: Msg, via: SubChannelId): seq<Embed<Chan>> {
    if msg.Data? && msg.scid == via then msg.senders else []
  }

  /** The subsenders inside the queued data messages for `via`. */
  function QueuedCargo(queue: seq<Msg>, via: SubChannelId): seq<Embed<Chan>> {
    if queue == [] then [] else Cargo(queue[0], via) + QueuedCargo(queue[1..], via)
  }

  function ItemCargo(item: Item): seq<Embed<Chan>> {
    if item.Resolved? then item.senders else []
  }

  /** The subsenders inside demultiplexed messages. */
  function LocalCargo(items: seq<Item>): seq<Embed<Chan>> {
    if items == [] then [] else ItemCargo(items[0]) + LocalCargo(items[1..])
  }

  function OutOf(item: Item): Life.Out {
    match item
    case Resolved(_, payload, _) => Life.Letter(payload)
    case Marker(_) => Life.Closed
  }

  function Outs(items: seq<Item>): seq<Life.Out> {
    seq(|items|, i requires 0 <= i < |items| => OutOf(items[i]))
  }

  lemma {:induction false} NotesAppend(queue: seq<Msg>, msg: Msg, c: SubChannelId)
    ensures Notes(queue + [msg], c) == Notes(queue, c) + NoteOf(msg, c)
  {
    if queue == [] {
      assert [msg][1..] == [];
    } else {
      assert (queue + [msg])[1..] == queue[1..] + [msg];
      NotesAppend(queue[1..], msg, c);
    }
  }

  lemma {:induction false} CountAppend(a: seq<Embed<Chan>>, b: seq<Embed<Chan>>, c: SubChannelId)
    ensures Count(a + b, c) == Count(a, c) + Count(b, c)
  {
    if a == [] {
      assert a + b == b;
    } else {
      assert (a + b)[1..] == a[1..] + b;
      CountAppend(a[1..], b, c);
    }
  }

  lemma {:induction false} QueuedAppend(queue: seq<Msg>, msg: Msg, via: SubChannelId)
    ensures QueuedCargo(queue + [msg], via) == QueuedCargo(queue, via) + Cargo(msg, via)
  {
    if queue == [] {
      assert [msg][1..] == [];
    } else {
      assert (queue + [msg])[1..] == queue[1..] + [msg];
      QueuedAppend(queue[1..], msg, via);
    }
  }

  lemma {:induction false} LocalAppend(items: seq<Item>, item: Item)
    ensures LocalCargo(items + [item]) == LocalCargo(items) + ItemCargo(item)
  {
    if items == [] {
      assert [item][1..] == [];
    } else {
      assert (items + [item])[1..] == items[1..] + [item];
      LocalAppend(items[1..], item);
    }
  }

  // ---------------------------------------------------------------------------------------
  // The state
  // ---------------------------------------------------------------------------------------

  type Homes = map<SubChannelId, Chan>

  type Demuxers = map<Chan, Demux.Tables<Chan>>

  /** Every subchannel has a machine and a local queue at its home, and a machine sends to its own queue. */
  ghost predicate Fits(home: Homes, channels: set<Chan>, demux: Demuxers, booked: set<SubChannelId>) {
    && channels == demux.Keys
    && booked == home.Keys
    && EMPTY_SUBCHANNEL_ID !in home
    && forall c | c in home ::
         && home[c] in channels
         && c in demux[home[c]].subChannels
         && c in demux[home[c]].local
         && demux[home[c]].subChannels[c].maybe in {None, Some(c)}
  }

  /**
   The copies of one subchannel's subsenders and the histories, as in `Subchannel.Sub`. `taken`
   is what the receiver has taken out of the local queue, and `handed` says of each item whether
   it was handed to the caller.
   */
  datatype Book = Book(
    live: multiset<Source>,
    borrowed: multiset<Source>,
    announced: multiset<SubChannelId>,
    transit: multiset<SubChannelId>,
    pending: multiset<SubChannelId>,
    carried: multiset<nat>,
    leaked: multiset<SubChannelId>,
    waived: multiset<SubChannelId>,
    orphaned: set<Source>,
    taken: seq<Item>,
    handed: seq<bool>,
    sent: seq<Payload>,
    fates: seq<bool>,
    told: set<Source>)
  {
    /** The fate of one copy inside a message for `via`, which is received at `x`. */
    function Fare(fate: Fate, via: SubChannelId, x: Source): Book {
      match fate
      case Arrive => this.(transit := transit - multiset{via}, pending := pending + multiset{via})
      case Strand => this.(transit := transit - multiset{via}, leaked := leaked + multiset{via})
      case Accept => this.(pending := pending - multiset{via}, live := live + multiset{x})
      case Refuse => this.(pending := pending - multiset{via})
      case Shed => this.(live := live - multiset{x})
      case Release => this.(pending := pending - multiset{via}, leaked := leaked + multiset{via})
    }

    /** What is on its way on carriers that go down is lost. */
    ghost function Purged(s: Life.Sub): Book {
      this.(transit := s.transit, pending := s.pending, leaked := s.leaked, orphaned := s.orphaned)
    }
  }

  /** The subchannels created on a channel. */
  function HomedAt(home: Homes, h: Chan): set<SubChannelId> {
    set v | v in home && home[v] == h
  }

  /**
   `home` is the IPC channel of each subchannel. `ends` are the endpoints that copies use:
   `(c, x, ch)` says that a copy of `c` at source `x` sends its messages to channel `ch`.
   `dead` are the channels whose receiving process is gone, `minted` counts transports.
   */
  datatype World = World(
    home: Homes,
    queue: map<Chan, seq<Msg>>,
    demux: Demuxers,
    dead: set<Chan>,
    book: map<SubChannelId, Book>,
    ends: set<(SubChannelId, Source, Chan)>,
    minted: nat)
  {
    ghost predicate Shaped() {
      Fits(home, queue.Keys, demux, book.Keys)
    }

    ghost function Machine(c: SubChannelId): Life.SM
      requires Shaped() && c in home
    {
      demux[home[c]].subChannels[c]
    }

    ghost function Local(c: SubChannelId): seq<Item>
      requires Shaped() && c in home
    {
      demux[home[c]].local[c]
    }

    ghost predicate Gone(c: SubChannelId)
      requires Shaped() && c in home
    {
      c in demux[home[c]].hungUp
    }

    ghost function DownVias(): set<SubChannelId> {
      set v | v in home && home[v] in dead
    }

    /** The life of one subchannel, as of now. */
    ghost function View(c: SubChannelId): Life.Sub
      requires Shaped() && c in home
    {
      Life.Sub(home, Machine(c), Notes(queue[home[c]], c),
               book[c].live, book[c].borrowed, book[c].announced, book[c].transit, book[c].pending, book[c].carried,
               book[c].leaked, book[c].waived, book[c].orphaned, Outs(book[c].taken + Local(c)), book[c].sent,
               book[c].fates, DownVias(), Gone(c), book[c].told)
    }

    /** A message is lost when nobody can receive it any more. */
    function Enqueue(ch: Chan, msg: Msg): (w: World)
      requires ch in queue
      ensures Shaped() ==> w.Shaped()
      ensures w.home == home && w.queue.Keys == queue.Keys && w.book == book && w.dead == dead && w.demux == demux
    {
      if ch in dead then this else this.(queue := queue[ch := queue[ch] + [msg]])
    }

    function SetBook(c: SubChannelId, b: Book): (w: World)
      ensures Shaped() && c in home ==> w.Shaped()
    {
      this.(book := book[c := b])
    }

    function AddEnd(c: SubChannelId, x: Source, ch: Chan): (w: World)
      ensures Shaped() ==> w.Shaped()
    {
      this.(ends := ends + {(c, x, ch)})
    }

    /** A fresh transport of `c`. */
    function Mint(c: SubChannelId, ch: Chan): (w: World)
      ensures Shaped() ==> w.Shaped()
    {
      this.(minted := minted + 1, ends := ends + {(c, Transport(minted), ch)})
    }

    /** A copy of `c` at `x` has gone, and nobody references the tracker any more. */
    ghost function Orphan(c: SubChannelId, x: Source): (w: World)
      requires Shaped() && c in home
      ensures w.Shaped() && w.book.Keys == book.Keys
              && w == this.(book := book[c := book[c].(orphaned := w.book[c].orphaned)])
    {
      SetBook(c, book[c].(orphaned := View(c).Orphan(x).orphaned))
    }

    /**
     The tracker of `c` at `x` sends its message when the last reference goes, unless it knows
     that the receiver is gone.
     */
    ghost function Untrack(c: SubChannelId, x: Source, ch: Chan): (w: World)
      requires Shaped() && c in home && ch in queue
      ensures w.Shaped() && w.home == home && w.queue.Keys == queue.Keys && w.dead == dead && w.demux == demux
      ensures w.book == book[c := book[c].(orphaned := w.book[c].orphaned)]
    {
      if View(c).Held(x) then this
      else if x in book[c].told then Orphan(c, x)
      else SetBook(c, book[c].(orphaned := book[c].orphaned - {x})).Enqueue(ch, Disconnect(c, x))
    }

    // -------------------------------------------------------------------------------------
    // Events
    // -------------------------------------------------------------------------------------

    /** A live copy of `c` at `x` that sends to `ch`. */
    ghost predicate Holds(c: SubChannelId, x: Source, ch: Chan) {
      c in book && x in book[c].live && (c, x, ch) in ends && ch in queue
    }

    ghost predicate Spare(c: SubChannelId, x: Source, ch: Chan) {
      Holds(c, x, ch) && (x in book[c].borrowed ==> book[c].live[x] > 1)
    }

    ghost function Clone(c: SubChannelId, x: Source): World
      requires c in book
    {
      SetBook(c, book[c].(live := book[c].live + multiset{x}))
    }

    ghost function Drop(c: SubChannelId, x: Source, ch: Chan): World
      requires Shaped() && Spare(c, x, ch)
    {
      SetBook(c, book[c].(live := book[c].live - multiset{x})).Untrack(c, x, ch)
    }

    ghost function Vanish(c: SubChannelId, x: Source): World
      requires Shaped() && c in home
    {
      var w := SetBook(c, book[c].(live := book[c].live - multiset{x}));
      if w.View(c).Held(x) then w else w.Orphan(c, x)
    }

    /** The process behind `x` finds out that the receiver of `c` is gone. */
    ghost function Learn(c: SubChannelId, x: Source): World
      requires c in book
    {
      SetBook(c, book[c].(told := book[c].told + {x}))
    }

    /** A `send` on `via` announces that it is about to embed a copy of `c`. */
    ghost function Announce(c: SubChannelId, x: Source, ch: Chan, via: SubChannelId, viaChan: Chan): World
      requires Holds(c, x, ch)
    {
      SetBook(c, book[c].(borrowed := book[c].borrowed + multiset{x}, announced := book[c].announced + multiset{via}))
        .Enqueue(ch, Sending(c, via, viaChan))
    }

    /** An announced copy leaves the hands of the `send`, towards a message or not. */
    ghost predicate CanBoard(r: Rider, via: SubChannelId) {
      && r.scid in book && r.source in book[r.scid].borrowed && via in book[r.scid].announced
      && (r.scid, r.source, r.sender) in ends
    }

    ghost function Board(r: Rider, via: SubChannelId): World
      requires CanBoard(r, via)
    {
      var b := book[r.scid];
      SetBook(r.scid, b.(borrowed := b.borrowed - multiset{r.source}, announced := b.announced - multiset{via},
                         transit := b.transit + multiset{via}))
    }

    ghost function Abandon(r: Rider, via: SubChannelId): World
      requires CanBoard(r, via)
    {
      var b := book[r.scid];
      SetBook(r.scid, b.(borrowed := b.borrowed - multiset{r.source}, announced := b.announced - multiset{via},
                         leaked := b.leaked + multiset{via}))
    }

    ghost predicate CanBoardAll(riders: seq<Rider>, via: SubChannelId)
      decreases |riders|
    {
      riders == [] || (CanBoard(riders[0], via) && Board(riders[0], via).CanBoardAll(riders[1..], via))
    }

    ghost function BoardAll(riders: seq<Rider>, via: SubChannelId): (w: World)
      requires CanBoardAll(riders, via)
      ensures w == this.(book := w.book) && w.book.Keys == book.Keys
      decreases |riders|
    {
      if riders == [] then this else Board(riders[0], via).BoardAll(riders[1..], via)
    }

    /** The data message of a `send` on `via`, whose announced copies are the riders. */
    ghost function Transmit(via: SubChannelId, ch: Chan, payload: Payload, riders: seq<Rider>): World
      requires CanBoardAll(riders, via) && via in book && ch in queue
    {
      BoardAll(riders, via).Post(via, ch, payload, Embeds(riders))
    }

    ghost function Post(via: SubChannelId, ch: Chan, payload: Payload, senders: seq<Embed<Chan>>): World
      requires via in book && ch in queue
    {
      SetBook(via, book[via].(sent := book[via].sent + [payload])).Enqueue(ch, Data(via, payload, senders))
    }

    /** What becomes of one copy on its way out of a data message for `via`. */
    ghost predicate CanMeet(e: Embed<Chan>, via: SubChannelId) {
      Shaped() && via in home && e.scid in home && e.sender in queue
    }

    ghost function ArriveOne(e: Embed<Chan>, via: SubChannelId): (w: World)
      requires CanMeet(e, via)
      ensures w.Shaped() && w.home == home && w.queue.Keys == queue.Keys && w.dead == dead && w.demux == demux
      ensures w.book == book[e.scid := book[e.scid].Fare(Arrive, via, Receiver(home[via]))]
      ensures w == this.(book := w.book)
    {
      SetBook(e.scid, book[e.scid].Fare(Arrive, via, Receiver(home[via])))
    }

    ghost function StrandOne(e: Embed<Chan>, via: SubChannelId): (w: World)
      requires CanMeet(e, via)
      ensures w.Shaped() && w.home == home && w.queue.Keys == queue.Keys && w.dead == dead && w.demux == demux
      ensures w.book == book[e.scid := book[e.scid].Fare(Strand, via, Receiver(home[via]))]
      ensures w == this.(book := w.book)
    {
      SetBook(e.scid, book[e.scid].Fare(Strand, via, Receiver(home[via])))
    }

    ghost function AcceptOne(e: Embed<Chan>, via: SubChannelId): (w: World)
      requires CanMeet(e, via)
      ensures w.Shaped() && w.home == home && w.queue.Keys == queue.Keys && w.dead == dead && w.demux == demux
      ensures w.book == book[e.scid := book[e.scid].Fare(Accept, via, Receiver(home[via]))]
    {
      var x := Receiver(home[via]);
      SetBook(e.scid, book[e.scid].Fare(Accept, via, x))
        .AddEnd(e.scid, x, e.sender)
        .Enqueue(e.sender, Received(e.scid, via, x))
    }

    /** One copy is reported as not received. */
    ghost function Report(e: Embed<Chan>, via: SubChannelId): (w: World)
      requires CanMeet(e, via)
      ensures w.Shaped() && w.home == home && w.queue.Keys == queue.Keys && w.dead == dead && w.demux == demux
      ensures w.book == book[e.scid := book[e.scid].Fare(Refuse, via, Receiver(home[via]))]
    {
      SetBook(e.scid, book[e.scid].Fare(Refuse, via, Receiver(home[via])))
        .Enqueue(e.sender, ReceiveFailed(e.scid, via))
    }

    ghost function RefuseOne(e: Embed<Chan>, via: SubChannelId): (w: World)
      requires CanMeet(e, via)
      ensures w.Shaped() && w.home == home && w.queue.Keys == queue.Keys && w.dead == dead && w.demux == demux
      ensures var b := book[e.scid].Fare(Refuse, via, Receiver(home[via]));
              w.book == book[e.scid := b.(orphaned := w.book[e.scid].orphaned)]
    {
      Report(e, via).Untrack(e.scid, Receiver(home[via]), e.sender)
    }

    /** A copy that was received is dropped again at once. */
    ghost function ShedOne(e: Embed<Chan>, via: SubChannelId): (w: World)
      requires CanMeet(e, via)
      ensures w.Shaped() && w.home == home && w.queue.Keys == queue.Keys && w.dead == dead && w.demux == demux
      ensures var b := book[e.scid].Fare(Shed, via, Receiver(home[via]));
              w.book == book[e.scid := b.(orphaned := w.book[e.scid].orphaned)]
    {
      SetBook(e.scid, book[e.scid].Fare(Shed, via, Receiver(home[via])))
        .Untrack(e.scid, Receiver(home[via]), e.sender)
    }

    ghost function ReleaseOne(e: Embed<Chan>, via: SubChannelId): (w: World)
      requires CanMeet(e, via)
      ensures w.Shaped() && w.home == home && w.queue.Keys == queue.Keys && w.dead == dead && w.demux == demux
      ensures var b := book[e.scid].Fare(Release, via, Receiver(home[via]));
              w.book == book[e.scid := b.(orphaned := w.book[e.scid].orphaned)]
    {
      SetBook(e.scid, book[e.scid].Fare(Release, via, Receiver(home[via])))
        .Untrack(e.scid, Receiver(home[via]), e.sender)
    }

    ghost function Meet(fate: Fate, e: Embed<Chan>, via: SubChannelId): (w: World)
      requires CanMeet(e, via)
      ensures w.Shaped() && w.home == home && w.queue.Keys == queue.Keys && w.dead == dead && w.demux == demux
      ensures w.book == book[e.scid :=
                               book[e.scid].Fare(fate, via, Receiver(home[via])).(orphaned := w.book[e.scid].orphaned)]
      ensures fate.Arrive? || fate.Strand? ==> w == this.(book := w.book)
    {
      match fate
      case Arrive => ArriveOne(e, via)
      case Strand => StrandOne(e, via)
      case Accept => AcceptOne(e, via)
      case Refuse => RefuseOne(e, via)
      case Shed => ShedOne(e, via)
      case Release => ReleaseOne(e, via)
    }

    ghost predicate CanMeetAll(senders: seq<Embed<Chan>>, via: SubChannelId) {
      Shaped() && via in home && forall i | 0 <= i < |senders| :: senders[i].scid in home && senders[i].sender in queue
    }

    ghost function MeetAll(fate: Fate, senders: seq<Embed<Chan>>, via: SubChannelId): (w: World)
      requires CanMeetAll(senders, via)
      ensures w.home == home && w.queue.Keys == queue.Keys && w.dead == dead && w.demux == demux && w.Shaped()
      ensures fate.Arrive? || fate.Strand? ==> w == this.(book := w.book)
      decreases |senders|
    {
      if senders == [] then this
      else Meet(fate, senders[0], via).MeetAll(fate, senders[1..], via)
    }

    /** A copy becomes a transport over a raw IPC channel. */
    ghost function BeginTransport(c: SubChannelId, x: Source, ch: Chan): World
      requires Shaped() && Spare(c, x, ch)
    {
      var carried := book[c].carried + multiset{minted};
      Mint(c, ch)
        .SetBook(c, book[c].(carried := carried))
        .Enqueue(ch, SendingViaIpcChannel(c, minted))
        .SetBook(c, book[c].(carried := carried, live := book[c].live - multiset{x}))
        .Untrack(c, x, ch)
    }

    /** The n-th transport is turned into a copy again. */
    ghost function EndTransport(c: SubChannelId, n: nat, ch: Chan): World
      requires c in book && ch in queue
    {
      Enqueue(ch, Connect(minted))
        .SetBook(c, book[c].(live := book[c].live + multiset{Transport(n)}, carried := book[c].carried - multiset{n}))
        .Enqueue(ch, Received(c, EMPTY_SUBCHANNEL_ID, Transport(n)))
    }

    ghost function LoseTransport(c: SubChannelId, n: nat): World
      requires c in book
    {
      SetBook(c, book[c].(carried := book[c].carried - multiset{n},
                          leaked := book[c].leaked + multiset{EMPTY_SUBCHANNEL_ID}))
    }

    ghost predicate CanDeliver(h: Chan) {
      Shaped() && h in queue && h !in dead && queue[h] != []
    }

    ghost function Handled(h: Chan): Demux.Handled<Chan>
      requires CanDeliver(h)
    {
      Demux.Act(demux[h], queue[h][0], true)
    }

    /** The head of a queue, handed to the demultiplexer. */
    ghost function Popped(h: Chan): World
      requires CanDeliver(h)
    {
      this.(queue := queue[h := queue[h][1..]], demux := demux[h := Handled(h).tables], book := Judged(h))
    }

    /** Whether a data message at the head of a queue gets into its local queue. */
    ghost function Judged(h: Chan): map<SubChannelId, Book>
      requires CanDeliver(h)
    {
      var msg := queue[h][0];
      if msg.Data? && msg.scid in home then
        var b := book[msg.scid];
        book[msg.scid := b.(fates := b.fates + [!Gone(msg.scid) && Machine(msg.scid).maybe.Some?])]
      else book
    }

    /** The data message at the head of a queue refers to a sender that cannot be resolved. */
    ghost function Lost(h: Chan): World
      requires CanDeliver(h) && queue[h][0].Data? && queue[h][0].scid in book
    {
      var b := book[queue[h][0].scid];
      this.(queue := queue[h := queue[h][1..]], book := book[queue[h][0].scid := b.(fates := b.fates + [false])])
    }

    /** So does the announcement at the head of a queue. */
    ghost function Waived(h: Chan): World
      requires CanDeliver(h) && queue[h][0].Sending? && queue[h][0].scid in book
    {
      var msg := queue[h][0];
      var b := book[msg.scid];
      this.(queue := queue[h := queue[h][1..]], demux := demux[h := Demux.Refused(demux[h], msg.scid, msg.via).tables],
            book := book[msg.scid := b.(waived := b.waived + multiset{msg.via})])
    }

    ghost predicate CanRecv(v: SubChannelId) {
      Shaped() && v in home && home[v] !in dead && !Gone(v) && Local(v) != []
    }

    /**
     A receiver takes the first items out of its local queue, to hand them out or not, and may
     hang up.
     */
    ghost function Take(v: SubChannelId, n: nat, give: bool, hangUp: bool): World
      requires Shaped() && v in home && n <= |Local(v)|
    {
      var d := demux[home[v]];
      this.(demux := demux[home[v] := d.(local := d.local[v := Local(v)[n..]],
                                         hungUp := if hangUp then d.hungUp + {v} else d.hungUp)])
          .SetBook(v, book[v].(taken := book[v].taken + Local(v)[..n],
                           handed := book[v].handed + seq(n, _ => give)))
    }

    /** The probes of `failing` answered false for subchannel `c`. */
    ghost function Poll(c: SubChannelId, failing: set<SubChannelId>): World
      requires Shaped() && c in home
    {
      var h := home[c];
      var (m, _, handed) := Machine(c).Poll(failing);
      var d := demux[h].Update(c, m);
      this.(demux := demux[h := if handed.Some? && d.Accepts(handed.value)
                                then d.Push(handed.value, Demux.Marker(c)) else d],
            book := book[c := book[c].(leaked := View(c).Poll(failing).leaked, waived := View(c).Poll(failing).waived)])
    }

    /** The process that receives on a channel is gone. */
    ghost function Crash(h: Chan): World
      requires Shaped() && h in queue
    {
      this.(dead := dead + {h}, queue := queue[h := []],
            book := map c | c in book :: book[c].Purged(View(c).GoDown(HomedAt(home, h))))
    }
  }

  /** How a copy inside a data message fares. */
  datatype Fate = Arrive | Strand | Accept | Refuse | Shed | Release

  /** A copy that a `send` has announced. */
  datatype Rider = Rider(scid: SubChannelId, source: Source, sender: Chan)

  function Embeds(riders: seq<Rider>): seq<Embed<Chan>> {
    seq(|riders|, i requires 0 <= i < |riders| => Embed(riders[i].scid, riders[i].sender))
  }

  // ---------------------------------------------------------------------------------------
  // The invariant
  // ---------------------------------------------------------------------------------------

  /** An embedded subsender refers to the channel its subchannel was created on. */
  ghost predicate EmbedOk(home: Homes, e: Embed<Chan>) {
    e.scid in home && home[e.scid] == e.sender
  }

  ghost predicate EmbedsOk(home: Homes, senders: seq<Embed<Chan>>) {
    forall i | 0 <= i < |senders| :: EmbedOk(home, senders[i])
  }

  /** A message about a subchannel waits in the queue of the channel it was created on. */
  ghost predicate MsgOk(home: Homes, ch: Chan, msg: Msg) {
    match msg
    case Connect(_) => true
    case SubChannelName(_) => true
    case Data(scid, _, senders) => scid in home && home[scid] == ch && EmbedsOk(home, senders)
    case Sending(scid, via, viaChan) =>
      scid in home && home[scid] == ch && via in home && home[via] == viaChan
    case SendingViaIpcChannel(scid, _) => scid in home && home[scid] == ch
    case Received(scid, _, _) => scid in home && home[scid] == ch
    case ReceiveFailed(scid, _) => scid in home && home[scid] == ch
    case Disconnect(scid, _) => scid in home && home[scid] == ch
  }

  ghost predicate ItemOk(home: Homes, c: SubChannelId, item: Item) {
    match item
    case Resolved(scid, _, senders) => scid == c && EmbedsOk(home, senders)
    case Marker(scid) => scid == c
  }

  /** A probe listens to the process that receives what its carrier carries, if it could be reached. */
  ghost predicate ProbeOk(home: Homes, via: SubChannelId, probe: Probe<Chan>) {
    if via == EMPTY_SUBCHANNEL_ID then probe.OnKeepalive?
    else via in home && probe in {OnResponses(home[via]), AlwaysFailing}
  }

  ghost predicate Addressed(home: Homes, queue: map<Chan, seq<Msg>>) {
    forall ch | ch in queue :: forall i | 0 <= i < |queue[ch]| :: MsgOk(home, ch, queue[ch][i])
  }

  ghost predicate TablesOk(home: Homes, demux: Demuxers, c: SubChannelId)
    requires c in home && home[c] in demux
    requires c in demux[home[c]].local && c in demux[home[c]].subChannels
  {
    var d := demux[home[c]];
    && (forall i | 0 <= i < |d.local[c]| :: ItemOk(home, c, d.local[c][i]))
    && (forall v | v in d.subChannels[c].probes :: ProbeOk(home, v, d.subChannels[c].probes[v]))
  }

  ghost predicate EndsOk(home: Homes, ends: set<(SubChannelId, Source, Chan)>) {
    forall c, x, ch | (c, x, ch) in ends :: c in home && home[c] == ch
  }

  /** Every reference to a subchannel leads to the channel it was created on. */
  ghost predicate Base(w: World) {
    && w.Shaped()
    && Addressed(w.home, w.queue)
    && EndsOk(w.home, w.ends)
    && forall c | c in w.home :: TablesOk(w.home, w.demux, c)
  }

  /** The books count the copies that really are in the queues. */
  ghost predicate Counted(b: Book, queued: seq<Embed<Chan>>, local: seq<Embed<Chan>>, v: SubChannelId,
                          c: SubChannelId) {
    b.transit[v] == Count(queued, c) && b.pending[v] == Count(local, c)
  }

  ghost predicate CoupledAt(w: World, v: SubChannelId, c: SubChannelId)
    requires w.Shaped() && v in w.home && c in w.home
  {
    Counted(w.book[c], QueuedCargo(w.queue[w.home[v]], v), LocalCargo(w.Local(v)), v, c)
  }

  ghost predicate Coupled(w: World)
    requires w.Shaped()
  {
    forall v, c | v in w.home && c in w.home && w.home[v] !in w.dead :: CoupledAt(w, v, c)
  }

  ghost predicate Alive(w: World)
    requires w.Shaped()
  {
    forall c | c in w.home && w.home[c] !in w.dead :: Life.Inv(w.View(c))
  }

  ghost predicate Good(w: World) {
    Base(w) && Coupled(w) && Alive(w)
  }
}
