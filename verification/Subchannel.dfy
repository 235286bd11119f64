/**
 The life of one subchannel, seen from its own messages: the notes about it that wait in the
 home channel, the state machine that will handle them, the copies of its subsenders held
 somewhere, and the copies that are being carried inside messages on other subchannels.
 */
module Subchannel {
  import opened Basics
  import opened Protocol
  import opened SubchannelLifecycle

  type Tx = nat

  type SM = Machine<Tx, Source, SubChannelId, Probe<Chan>>

  /** A message about this subchannel, in the queue of its home channel. */
  datatype Note =
    | Data(payload: Payload)
    | Sending(via: SubChannelId, probe: Probe<Chan>)
    | Received(via: SubChannelId, source: Source)
    | ReceiveFailed(via: SubChannelId)
    | Disconnect(source: Source)

  /** What the receiver of the subchannel is given. */
  datatype Out = Letter(payload: Payload) | Closed

  function MStep(m: SM, note: Note): SM {
    match note
    case Data(_) => m
    case Sending(via, probe) => m.ToBeSent(via, probe)
    case Received(via, source) => m.Received(via, source)
    case ReceiveFailed(via) => m.ReceiveFailed(via).0
    case Disconnect(source) => m.Disconnect(source).0
  }

  /** What handling a note adds to the receiver's local queue. */
  function Outs(m: SM, note: Note): seq<Out> {
    match note
    case Data(payload) => if m.maybe.Some? then [Letter(payload)] else []
    case Sending(_, _) => []
    case Received(_, _) => []
    case ReceiveFailed(via) => if m.ReceiveFailed(via).1.Some? then [Closed] else []
    case Disconnect(source) => if m.Disconnect(source).1.Some? then [Closed] else []
  }

  /** The state machine once all the queued notes have been handled. */
  function Replay(m: SM, q: seq<Note>): SM
    decreases q
  {
    if q == [] then m else Replay(MStep(m, q[0]), q[1..])
  }

  /** Notes that only somebody holding a copy, or carrying one, can have sent. */
  predicate NeedsCopy(note: Note) {
    note.Data? || note.Sending? || note.Received?
  }

  /** A note that proves a copy exists finds the machine not empty; an arrival finds its token. */
  ghost predicate Expected(m: SM, note: Note) {
    && (NeedsCopy(note) ==> !m.Empty())
    && (note.Received? || note.ReceiveFailed? ==> note.via in m.inFlight)
  }

  /** Every queued note will be expected when its turn comes. */
  ghost predicate Timely(m: SM, q: seq<Note>)
    decreases q
  {
    q == [] || (Expected(m, q[0]) && Timely(MStep(m, q[0]), q[1..]))
  }

  function DataOf(note: Note): seq<Payload> {
    if note.Data? then [note.payload] else []
  }

  function Payloads(q: seq<Note>): seq<Payload> {
    if q == [] then [] else DataOf(q[0]) + Payloads(q[1..])
  }

  function Letters(payloads: seq<Payload>): seq<Out> {
    seq(|payloads|, i requires 0 <= i < |payloads| => Letter(payloads[i]))
  }

  lemma {:induction false} ReplayAppend(m: SM, q: seq<Note>, note: Note)
    decreases q
    ensures Replay(m, q + [note]) == MStep(Replay(m, q), note)
    ensures Timely(m, q + [note]) <==> Timely(m, q) && Expected(Replay(m, q), note)
  {
    if q == [] {
      assert [note][1..] == [];
    } else {
      assert (q + [note])[1..] == q[1..] + [note];
      ReplayAppend(MStep(m, q[0]), q[1..], note);
    }
  }

  lemma {:induction false} PayloadsAppend(q: seq<Note>, note: Note)
    ensures Payloads(q + [note]) == Payloads(q) + DataOf(note)
  {
    if q != [] {
      assert (q + [note])[1..] == q[1..] + [note];
      PayloadsAppend(q[1..], note);
    }
  }

  /** On a machine that is empty, a timely queue holds nothing but departures. */
  lemma {:induction false} EmptyStaysEmpty(m: SM, q: seq<Note>)
    requires m.Empty() && Timely(m, q)
    ensures Replay(m, q).Empty() && Payloads(q) == []
    ensures forall i :: 0 <= i < |q| ==> !NeedsCopy(q[i])
    decreases q
  {
    if q != [] {
      assert m.inFlight == multiset{};
      EmptyStaysEmpty(MStep(m, q[0]), q[1..]);
      assert forall i :: 0 < i < |q| ==> q[i] == q[1..][i - 1];
    }
  }

  /** Of some messages, those whose flag is set. */
  function Kept(payloads: seq<Payload>, fates: seq<bool>): seq<Payload>
    requires |payloads| == |fates|
  {
    if payloads == [] then []
    else
      var n := |payloads| - 1;
      Kept(payloads[..n], fates[..n]) + if fates[n] then [payloads[n]] else []
  }

  lemma {:induction false} AllKept(payloads: seq<Payload>, fates: seq<bool>)
    requires |payloads| == |fates|
    ensures |Kept(payloads, fates)| <= |payloads|
    ensures |Kept(payloads, fates)| == |payloads| <==> forall i | 0 <= i < |fates| :: fates[i]
    ensures (forall i | 0 <= i < |fates| :: fates[i]) ==> Kept(payloads, fates) == payloads
  {
    if payloads != [] {
      var n := |payloads| - 1;
      AllKept(payloads[..n], fates[..n]);
      assert payloads[..n] + [payloads[n]] == payloads;
      assert (forall i | 0 <= i < |fates| :: fates[i]) <==> (forall i | 0 <= i < n :: fates[..n][i]) && fates[n];
    }
  }

  lemma KeptNext(payloads: seq<Payload>, fates: seq<bool>, payload: Payload, kept: bool)
    requires |payloads| == |fates|
    ensures Kept(payloads + [payload], fates + [kept]) == Kept(payloads, fates) + if kept then [payload] else []
  {
    assert (payloads + [payload])[..|payloads|] == payloads && (fates + [kept])[..|fates|] == fates;
  }

  /** The part of a bag that lies on some carriers. */
  ghost function On(bag: multiset<SubChannelId>, vias: set<SubChannelId>): multiset<SubChannelId> {
    bag - Purge(bag, vias)
  }

  /**
   `m` and `q` are the machine and the notes waiting for it. `live` counts the copies at each
   source; `borrowed` those of them in use by a `send` that has announced them, `announced`,
   but not yet put them into a message; `transit` and `pending` count the copies inside queued
   and inside demultiplexed messages of each carrier; `carried` are the transports over a raw
   IPC channel in progress.

   Three histories say what the machine has not been told. `leaked` counts the copies given up
   on each carrier without a word, and `waived` those whose announcement was not recorded, or
   no longer is; `orphaned` are the sources that it knows and from which nobody will send
   `Disconnect`.

   `log` is everything ever put into the local queue and `sent` everything ever sent; `fates`
   says of each message handled whether it was put there. `down` are the carriers whose receiving
   process is gone, `gone` says that the receiver of this subchannel is, and `told` are the
   sources that know.
   */
  datatype Sub = Sub(
    home: map<SubChannelId, Chan>,
    m: SM,
    q: seq<Note>,
    live: multiset<Source>,
    borrowed: multiset<Source>,
    announced: multiset<SubChannelId>,
    transit: multiset<SubChannelId>,
    pending: multiset<SubChannelId>,
    carried: multiset<nat>,
    leaked: multiset<SubChannelId>,
    waived: multiset<SubChannelId>,
    orphaned: set<Source>,
    log: seq<Out>,
    sent: seq<Payload>,
    fates: seq<bool>,
    down: set<SubChannelId>,
    gone: bool,
    told: set<Source>)
  {
    function Final(): SM {
      Replay(m, q)
    }

    /** Somebody still references the tracker of this source. */
    ghost predicate Held(source: Source) {
      source in live || exists v | v in pending :: v in home && source == Receiver(home[v])
    }

    function Enqueue(note: Note): Sub {
      this.(q := q + [note])
    }

    /** The last reference to the tracker of a source goes, and the state machine is not told. */
    function Orphan(source: Source): Sub {
      this.(orphaned := orphaned + if source in Final().sources then {source} else {})
    }

    function Part(source: Source): Sub {
      Enqueue(Note.Disconnect(source)).(orphaned := orphaned - {source})
    }

    /**
     The tracker of a source tells the state machine when its last reference goes, unless the
     receiver is known to be gone.
     */
    ghost function Untrack(source: Source): Sub {
      if Held(source) then this else if source in told then Orphan(source) else Part(source)
    }

    /** Copies on a carrier: announced, inside a queued message, or demultiplexed. */
    function Aboard(via: SubChannelId): nat {
      if via == EMPTY_SUBCHANNEL_ID then |carried| else announced[via] + transit[via] + pending[via]
    }

    /** A copy may go unless a `send` in progress still needs it. */
    predicate Spare(source: Source) {
      source in live && (source in borrowed ==> live[source] > 1)
    }

    // What can happen to a subchannel, one function per event.

    function Clone(source: Source): Sub {
      this.(live := live + multiset{source})
    }

    ghost function Drop(source: Source): Sub {
      this.(live := live - multiset{source}).Untrack(source)
    }

    /** A copy that goes without its tracker telling anybody. */
    ghost function Vanish(source: Source): Sub {
      var s := this.(live := live - multiset{source});
      if s.Held(source) then s else s.Orphan(source)
    }

    /** A source finds out that the receiver is gone. */
    function Learn(source: Source): Sub {
      this.(told := told + {source})
    }

    function Post(payload: Payload): Sub {
      this.(sent := sent + [payload]).Enqueue(Note.Data(payload))
    }

    /** A `send` on `via` announces a copy it is about to embed. */
    function Announce(source: Source, via: SubChannelId, probe: Probe<Chan>): Sub {
      this.(borrowed := borrowed + multiset{source}, announced := announced + multiset{via})
          .Enqueue(Note.Sending(via, probe))
    }

    /** The message with the announced copy enters the queue of the carrier. */
    function Launch(source: Source, via: SubChannelId): Sub {
      this.(borrowed := borrowed - multiset{source}, announced := announced - multiset{via},
            transit := transit + multiset{via})
    }

    /** The message with the announced copy is never sent. */
    function Abort(source: Source, via: SubChannelId): Sub {
      this.(borrowed := borrowed - multiset{source}, announced := announced - multiset{via},
            leaked := leaked + multiset{via})
    }

    /** The message is demultiplexed; it now holds a tracker at the carrier's receiver. */
    function Arrive(via: SubChannelId): Sub {
      this.(transit := transit - multiset{via}, pending := pending + multiset{via})
    }

    /** The message is demultiplexed only up to a reference before this copy. */
    function Strand(via: SubChannelId): Sub {
      this.(transit := transit - multiset{via}, leaked := leaked + multiset{via})
    }

    /** The message is deserialized into a live copy. */
    function Accept(via: SubChannelId): Sub
      requires via in home
    {
      this.(pending := pending - multiset{via}, live := live + multiset{Receiver(home[via])})
          .Enqueue(Note.Received(via, Receiver(home[via])))
    }

    /** The message is discarded by a receiver that is being dropped. */
    ghost function Refuse(via: SubChannelId): Sub
      requires via in home
    {
      this.(pending := pending - multiset{via}).Enqueue(Note.ReceiveFailed(via)).Untrack(Receiver(home[via]))
    }

    /** The message is discarded and nobody is told that the copy was not received. */
    ghost function Release(via: SubChannelId): Sub
      requires via in home
    {
      this.(pending := pending - multiset{via}, leaked := leaked + multiset{via}).Untrack(Receiver(home[via]))
    }

    /** A copy is turned into the n-th transport over a raw IPC channel. */
    ghost function BeginTransport(source: Source, n: nat): Sub {
      this.(carried := carried + multiset{n}).Enqueue(Note.Sending(EMPTY_SUBCHANNEL_ID, OnKeepalive(n)))
          .(live := live - multiset{source}).Untrack(source)
    }

    function EndTransport(n: nat): Sub {
      this.(live := live + multiset{Transport(n)}, carried := carried - multiset{n})
          .Enqueue(Note.Received(EMPTY_SUBCHANNEL_ID, Transport(n)))
    }

    /** The process that was to turn the transport into a copy is gone. */
    function LoseTransport(n: nat): Sub {
      this.(carried := carried - multiset{n}, leaked := leaked + multiset{EMPTY_SUBCHANNEL_ID})
    }

    /** The demultiplexer handles the note at the head of the queue. */
    function Handle(): Sub
      requires q != []
    {
      this.(m := MStep(m, q[0]), q := q[1..], log := if gone then log else log + Outs(m, q[0]),
            fates := fates + if q[0].Data? then [!gone && m.maybe.Some?] else [])
    }

    /** A reference in the message at the head of the queue cannot be resolved, and it is lost. */
    function Lose(): Sub
      requires q != []
    {
      this.(q := q[1..], fates := fates + [false])
    }

    /** The carrier in the announcement at the head of the queue cannot be resolved. */
    function Forget(): Sub
      requires q != [] && q[0].Sending?
    {
      var (m', handed) := m.Refuse(q[0].via, AlwaysFailing);
      this.(m := m', q := q[1..], log := if gone || handed.None? then log else log + [Closed],
            waived := waived + multiset{q[0].via})
    }

    /**
     The probes of `failing` answered false. What has leaked on these carriers is made up for;
     what may still be announced on them is not recorded any more.
     */
    ghost function Poll(failing: set<SubChannelId>): Sub {
      var (m', _, handed) := m.Poll(failing);
      this.(m := m', log := if gone || handed.None? then log else log + [Closed],
            leaked := Purge(leaked, failing), waived := Purge(waived, failing) + On(announced, failing))
    }

    /** The processes that receive on `vias` are gone, with everything queued there. */
    ghost function GoDown(vias: set<SubChannelId>): Sub {
      var s := this.(transit := Purge(transit, vias), pending := Purge(pending, vias), down := down + vias,
                     leaked := leaked + On(transit, vias) + On(pending, vias));
      s.(orphaned := orphaned + set x | x in Final().sources && !s.Held(x))
    }

    /** The receiver of this subchannel is dropped. */
    function ReceiverGone(): Sub {
      this.(gone := true)
    }
  }

  // ---------------------------------------------------------------------------------------
  // The invariant. `f` is the machine after all queued notes.
  // ---------------------------------------------------------------------------------------

  /** A source with a live copy will be known to the machine, and no other but for the orphaned. */
  ghost predicate SourcesKnown(s: Sub, f: SM) {
    && (forall x | x in s.live :: x in f.sources)
    && (forall x | x in f.sources :: s.Held(x) || x in s.orphaned)
    && s.orphaned <= f.sources
  }

  /** Each token stands for a copy being carried or one that leaked, and only waived ones have none. */
  ghost predicate TokensCover(s: Sub, f: SM) {
    && (forall v :: f.inFlight[v] + s.waived[v] == s.Aboard(v) + s.leaked[v])
    && (forall v | v !in s.down :: s.waived[v] <= s.leaked[v])
    && (forall v | v in s.down :: v !in s.transit && v !in s.pending)
  }

  ghost predicate CarriersKnown(s: Sub) {
    && (forall v | v in s.announced + s.transit + s.pending :: v in s.home)
    && EMPTY_SUBCHANNEL_ID !in s.home
    && EMPTY_SUBCHANNEL_ID !in s.down
  }

  ghost predicate BorrowsHeld(s: Sub) {
    && (forall x | x in s.borrowed :: x in s.live)
    && |s.borrowed| == |s.announced|
  }

  ghost predicate Covered(s: Sub, f: SM) {
    SourcesKnown(s, f) && TokensCover(s, f) && CarriersKnown(s) && BorrowsHeld(s)
  }

  /** Messages have been handled in the order in which they were sent. */
  ghost predicate Logged(s: Sub) {
    && |s.fates| <= |s.sent| && Payloads(s.q) == s.sent[|s.fates|..]
    && (s.gone || s.log == Given(s) + if s.m.maybe.None? then [Closed] else [])
  }

  /** What the receiver has been given, up to the marker: what was sent but for what was lost. */
  ghost function Given(s: Sub): seq<Out>
    requires |s.fates| <= |s.sent|
  {
    Letters(Kept(s.sent[..|s.fates|], s.fates))
  }

  ghost predicate Inv(s: Sub) {
    && Timely(s.m, s.q)
    && (s.m.maybe.None? <==> s.m.Empty())
    && Logged(s)
    && Covered(s, s.Final())
  }

  /** A subchannel starts with one copy, at its origin. */
  ghost predicate Fresh(s: Sub) {
    && s.m.maybe.Some? && s.m == Initial(s.m.maybe.value, Origin)
    && s.q == [] && s.live == multiset{Origin}
    && s.borrowed == multiset{} && s.announced == multiset{}
    && s.transit == multiset{} && s.pending == multiset{} && s.carried == multiset{}
    && s.leaked == multiset{} && s.waived == multiset{} && s.orphaned == {}
    && s.log == [] && s.sent == [] && s.fates == []
    && s.down == {} && !s.gone && s.told == {} && EMPTY_SUBCHANNEL_ID !in s.home
  }

  lemma FreshInv(s: Sub)
    requires Fresh(s)
    ensures Inv(s)
  {
  }

  // ---------------------------------------------------------------------------------------
  // The part about copies, event by event, without the queue
  // ---------------------------------------------------------------------------------------

  /** As `SourcesKnown`, but for one source that may have lost its last reference. */
  ghost predicate SourcesBut(s: Sub, f: SM, x: Source) {
    && (forall y | y in s.live :: y in f.sources)
    && (forall y | y in f.sources && y != x :: s.Held(y) || y in s.orphaned)
    && s.orphaned <= f.sources
  }

  ghost predicate CoveredBut(s: Sub, f: SM, x: Source) {
    SourcesBut(s, f, x) && TokensCover(s, f) && CarriersKnown(s) && BorrowsHeld(s)
  }

  // The parts of `Covered`, one by one.

  lemma BorrowsSame(s: Sub, t: Sub)
    requires BorrowsHeld(s) && t.borrowed == s.borrowed && t.announced == s.announced
    requires forall x | x in s.borrowed :: x in t.live
    ensures BorrowsHeld(t)
  {
  }

  lemma UnborrowHeld(s: Sub, t: Sub, x: Source, via: SubChannelId)
    requires BorrowsHeld(s) && x in s.borrowed && via in s.announced && t.live == s.live
    requires t.borrowed == s.borrowed - multiset{x} && t.announced == s.announced - multiset{via}
    ensures BorrowsHeld(t)
  {
  }

  /** The tokens change as much as the copies aboard and the leaked ones. */
  lemma TokensMove(s: Sub, f: SM, t: Sub, g: SM)
    requires TokensCover(s, f) && t.down == s.down && t.waived == s.waived && s.leaked <= t.leaked
    requires forall v | v in s.down :: v !in t.transit && v !in t.pending
    requires forall v :: g.inFlight[v] + s.Aboard(v) + s.leaked[v] == f.inFlight[v] + t.Aboard(v) + t.leaked[v]
    ensures TokensCover(t, g)
  {
  }

  lemma SameTokens(s: Sub, t: Sub, f: SM)
    requires t.announced == s.announced && t.transit == s.transit && t.pending == s.pending && t.carried == s.carried
    requires t.leaked == s.leaked && t.waived == s.waived && t.down == s.down
    ensures TokensCover(s, f) <==> TokensCover(t, f)
  {
    assert forall v :: t.Aboard(v) == s.Aboard(v);
  }

  lemma SameHeld(s: Sub, t: Sub)
    requires t.home == s.home && t.live == s.live && t.pending == s.pending
    ensures forall x :: t.Held(x) <==> s.Held(x)
  {
  }

  /** Copies on a carrier that lives are known to be on one that was created somewhere. */
  lemma LivelyCarrier(s: Sub, f: SM, via: SubChannelId)
    requires Covered(s, f) && via in s.transit + s.pending
    ensures via !in s.down && via in s.home && via != EMPTY_SUBCHANNEL_ID && s.Aboard(via) > 0
  {
  }

  /** Nothing that `Covered` speaks of differs. */
  ghost predicate SameCopies(s: Sub, t: Sub) {
    && t.home == s.home && t.live == s.live && t.borrowed == s.borrowed && t.announced == s.announced
    && t.transit == s.transit && t.pending == s.pending && t.carried == s.carried
    && t.leaked == s.leaked && t.waived == s.waived && t.orphaned == s.orphaned && t.down == s.down
  }

  lemma SameCovered(s: Sub, t: Sub, f: SM)
    requires Covered(s, f) && SameCopies(s, t)
    ensures Covered(t, f)
  {
    SameTokens(s, t, f);
    SameHeld(s, t);
    hide TokensCover;
  }

  lemma OrphanCovered(s: Sub, f: SM, x: Source)
    requires CoveredBut(s, f, x) && f == s.Final()
    ensures Covered(s.Orphan(x), f)
  {
    SameTokens(s, s.Orphan(x), f);
    SameHeld(s, s.Orphan(x));
    hide TokensCover;
  }

  lemma PartCovered(s: Sub, f: SM, x: Source)
    requires CoveredBut(s, f, x) && !s.Held(x)
    ensures Covered(s.Part(x), f.Disconnect(x).0)
  {
    hide TokensCover, BorrowsHeld, SourcesKnown, SourcesBut;
    SameTokens(s, s.Part(x), f);
    SameTokensLeft(s.Part(x), f, f.Disconnect(x).0);
    PartSources(s, f, x);
    assert forall y | y in s.borrowed :: y in s.live by {
      LivesOn(s, s);
    }
    BorrowsSame(s, s.Part(x));
  }

  lemma PartSources(s: Sub, f: SM, x: Source)
    requires SourcesBut(s, f, x) && !s.Held(x)
    ensures SourcesKnown(s.Part(x), f.Disconnect(x).0)
  {
    SameHeld(s, s.Part(x));
  }

  lemma SameTokensLeft(s: Sub, f: SM, g: SM)
    requires TokensCover(s, f) && g.inFlight == f.inFlight
    ensures TokensCover(s, g)
  {
  }

  // What leaves a carrier.

  /** Taking one copy off a carrier releases at most the tracker behind that carrier. */
  lemma PendingButOne(s: Sub, t: Sub, via: SubChannelId)
    requires via in s.home && t.home == s.home && s.live <= t.live && t.pending == s.pending - multiset{via}
    ensures forall y :: y != Receiver(s.home[via]) && s.Held(y) ==> t.Held(y)
  {
  }

  /** One token less for one copy less aboard. */
  lemma TokenTaken(s: Sub, f: SM, t: Sub, g: SM, via: SubChannelId)
    requires TokensCover(s, f) && via !in s.down && via != EMPTY_SUBCHANNEL_ID && via in s.pending
    requires t.down == s.down && t.announced == s.announced && t.transit == s.transit && t.carried == s.carried
    requires t.pending == s.pending - multiset{via} && t.leaked == s.leaked && t.waived == s.waived
    requires g.inFlight == f.inFlight - multiset{via}
    ensures TokensCover(t, g)
  {
    assert forall v :: t.Aboard(v) == if v == via then s.Aboard(v) - 1 else s.Aboard(v);
    assert s.Aboard(via) > 0 && f.inFlight[via] > 0;
    TokensMove(s, f, t, g);
  }

  lemma AcceptSources(s: Sub, f: SM, via: SubChannelId)
    requires SourcesKnown(s, f) && via in s.home
    ensures SourcesKnown(s.Accept(via), f.Received(via, Receiver(s.home[via])))
  {
    PendingButOne(s, s.Accept(via), via);
    assert s.Accept(via).Held(Receiver(s.home[via]));
  }

  lemma AcceptCovered(s: Sub, f: SM, via: SubChannelId)
    requires Covered(s, f) && via in s.pending && via in s.home
    ensures Covered(s.Accept(via), f.Received(via, Receiver(s.home[via])))
  {
    hide SourcesKnown, TokensCover, CarriersKnown, BorrowsHeld;
    var t, g := s.Accept(via), f.Received(via, Receiver(s.home[via]));
    LivelyCarrier(s, f, via);
    AcceptSources(s, f, via);
    TokenTaken(s, f, t, g, via);
    CarriersFewer(s, t);
    LivesOn(s, t);
    BorrowsSame(s, t);
  }

  lemma CarriersFewer(s: Sub, t: Sub)
    requires CarriersKnown(s) && t.home == s.home && t.down == s.down
    requires t.announced <= s.announced && t.transit <= s.transit && t.pending <= s.pending
    ensures CarriersKnown(t)
  {
  }

  lemma LivesOn(s: Sub, t: Sub)
    requires BorrowsHeld(s) && s.live <= t.live
    ensures forall x | x in s.borrowed :: x in t.live
  {
  }

  lemma RefuseCovered(s: Sub, f: SM, via: SubChannelId)
    requires Covered(s, f) && via in s.pending && via in s.home
    ensures CoveredBut(s.(pending := s.pending - multiset{via}).Enqueue(Note.ReceiveFailed(via)),
                       f.ReceiveFailed(via).0, Receiver(s.home[via]))
  {
    hide TokensCover, CarriersKnown, BorrowsHeld;
    var t := s.(pending := s.pending - multiset{via}).Enqueue(Note.ReceiveFailed(via));
    LivelyCarrier(s, f, via);
    TokenTaken(s, f, t, f.ReceiveFailed(via).0, via);
    PendingButOne(s, t, via);
    CarriersFewer(s, t);
    LivesOn(s, t);
    BorrowsSame(s, t);
  }

  lemma ReleaseTokens(s: Sub, f: SM, t: Sub, via: SubChannelId)
    requires TokensCover(s, f) && via in s.pending && via != EMPTY_SUBCHANNEL_ID
    requires t == s.(pending := s.pending - multiset{via}, leaked := s.leaked + multiset{via})
    ensures TokensCover(t, f)
  {
    assert forall v :: t.Aboard(v) + t.leaked[v] == s.Aboard(v) + s.leaked[v];
    TokensMove(s, f, t, f);
  }

  lemma ReleaseCovered(s: Sub, f: SM, via: SubChannelId)
    requires Covered(s, f) && via in s.pending && via in s.home
    ensures CoveredBut(s.(pending := s.pending - multiset{via}, leaked := s.leaked + multiset{via}), f,
                       Receiver(s.home[via]))
  {
    hide TokensCover, CarriersKnown, BorrowsHeld;
    var t := s.(pending := s.pending - multiset{via}, leaked := s.leaked + multiset{via});
    LivelyCarrier(s, f, via);
    ReleaseTokens(s, f, t, via);
    PendingButOne(s, t, via);
    CarriersFewer(s, t);
    LivesOn(s, t);
    BorrowsSame(s, t);
  }

  lemma StrandTokens(s: Sub, f: SM, via: SubChannelId)
    requires TokensCover(s, f) && via in s.transit && via != EMPTY_SUBCHANNEL_ID
    ensures TokensCover(s.Strand(via), f)
  {
    var t := s.Strand(via);
    assert forall v :: t.Aboard(v) + t.leaked[v] == s.Aboard(v) + s.leaked[v];
    TokensMove(s, f, t, f);
  }

  lemma StrandCovered(s: Sub, f: SM, via: SubChannelId)
    requires Covered(s, f) && via in s.transit
    ensures Covered(s.Strand(via), f)
  {
    hide SourcesKnown, TokensCover, CarriersKnown, BorrowsHeld;
    var t := s.Strand(via);
    LivelyCarrier(s, f, via);
    StrandTokens(s, f, via);
    SourcesSame(s, t, f);
    CarriersFewer(s, t);
    LivesOn(s, t);
    BorrowsSame(s, t);
  }

  lemma SourcesSame(s: Sub, t: Sub, f: SM)
    requires SourcesKnown(s, f) && t.home == s.home && t.live == s.live && t.orphaned == s.orphaned
    requires s.pending <= t.pending
    ensures SourcesKnown(t, f)
  {
    assert forall x :: s.Held(x) ==> t.Held(x);
  }

  // What gets onto one, or from one stage of being carried to another.

  lemma AnnounceTokens(s: Sub, f: SM, x: Source, via: SubChannelId, probe: Probe<Chan>)
    requires TokensCover(s, f) && via != EMPTY_SUBCHANNEL_ID
    ensures TokensCover(s.Announce(x, via, probe), f.ToBeSent(via, probe))
  {
    var t := s.Announce(x, via, probe);
    assert forall v :: t.Aboard(v) == s.Aboard(v) + if v == via then 1 else 0;
    TokensMove(s, f, t, f.ToBeSent(via, probe));
  }

  lemma BorrowMore(s: Sub, t: Sub, x: Source, via: SubChannelId)
    requires BorrowsHeld(s) && x in s.live && t.live == s.live
    requires t.borrowed == s.borrowed + multiset{x} && t.announced == s.announced + multiset{via}
    ensures BorrowsHeld(t)
  {
  }

  lemma AnnounceCovered(s: Sub, f: SM, x: Source, via: SubChannelId, probe: Probe<Chan>)
    requires Covered(s, f) && x in s.live && via in s.home
    ensures Covered(s.Announce(x, via, probe), f.ToBeSent(via, probe))
  {
    assert via != EMPTY_SUBCHANNEL_ID;
    hide TokensCover, BorrowsHeld;
    var t := s.Announce(x, via, probe);
    AnnounceTokens(s, f, x, via, probe);
    BorrowMore(s, t, x, via);
    SameHeld(s, t);
  }

  lemma LaunchTokens(s: Sub, f: SM, x: Source, via: SubChannelId)
    requires TokensCover(s, f) && via in s.announced && via !in s.down
    ensures TokensCover(s.Launch(x, via), f)
  {
    var t := s.Launch(x, via);
    assert forall v :: t.Aboard(v) == s.Aboard(v);
    TokensMove(s, f, t, f);
  }

  lemma LaunchCovered(s: Sub, f: SM, x: Source, via: SubChannelId)
    requires Covered(s, f) && x in s.borrowed && via in s.announced && via !in s.down
    ensures Covered(s.Launch(x, via), f)
  {
    hide TokensCover, BorrowsHeld, SourcesKnown;
    var t := s.Launch(x, via);
    LaunchTokens(s, f, x, via);
    UnborrowHeld(s, t, x, via);
    SourcesSame(s, t, f);
  }

  lemma AbortTokens(s: Sub, f: SM, x: Source, via: SubChannelId)
    requires TokensCover(s, f) && via in s.announced && via != EMPTY_SUBCHANNEL_ID
    ensures TokensCover(s.Abort(x, via), f)
  {
    var t := s.Abort(x, via);
    assert forall v :: t.Aboard(v) + t.leaked[v] == s.Aboard(v) + s.leaked[v];
    TokensMove(s, f, t, f);
  }

  lemma AbortCovered(s: Sub, f: SM, x: Source, via: SubChannelId)
    requires Covered(s, f) && x in s.borrowed && via in s.announced
    ensures Covered(s.Abort(x, via), f)
  {
    assert via != EMPTY_SUBCHANNEL_ID;
    hide TokensCover, BorrowsHeld, SourcesKnown;
    var t := s.Abort(x, via);
    AbortTokens(s, f, x, via);
    UnborrowHeld(s, t, x, via);
    SourcesSame(s, t, f);
  }

  lemma ArriveTokens(s: Sub, f: SM, via: SubChannelId)
    requires TokensCover(s, f) && via in s.transit
    ensures TokensCover(s.Arrive(via), f)
  {
    var t := s.Arrive(via);
    assert forall v :: t.Aboard(v) == s.Aboard(v);
    TokensMove(s, f, t, f);
  }

  lemma ArriveCovered(s: Sub, f: SM, via: SubChannelId)
    requires Covered(s, f) && via in s.transit
    ensures Covered(s.Arrive(via), f)
  {
    hide TokensCover, BorrowsHeld, SourcesKnown;
    var t := s.Arrive(via);
    ArriveTokens(s, f, via);
    LivesOn(s, t);
    BorrowsSame(s, t);
    SourcesSame(s, t, f);
  }

  lemma CloneCovered(s: Sub, f: SM, x: Source)
    requires Covered(s, f) && x in s.live
    ensures Covered(s.Clone(x), f)
  {
    var t := s.Clone(x);
    SameTokens(s, t, f);
    hide TokensCover, BorrowsHeld;
    LivesOn(s, t);
    BorrowsSame(s, t);
    assert forall y :: s.Held(y) ==> t.Held(y);
  }

  lemma BorrowsSpare(s: Sub, t: Sub, x: Source)
    requires BorrowsHeld(s) && s.Spare(x) && t.live == s.live - multiset{x}
    requires t.borrowed == s.borrowed && t.announced == s.announced
    ensures BorrowsHeld(t)
  {
  }

  lemma SourcesSpare(s: Sub, f: SM, t: Sub, x: Source)
    requires SourcesKnown(s, f) && t.live == s.live - multiset{x} && t.home == s.home && t.pending == s.pending
    requires t.orphaned == s.orphaned
    ensures SourcesBut(t, f, x)
  {
    assert forall y :: y != x && s.Held(y) ==> t.Held(y);
  }

  lemma DropCovered(s: Sub, f: SM, x: Source)
    requires Covered(s, f) && s.Spare(x)
    ensures CoveredBut(s.(live := s.live - multiset{x}), f, x)
  {
    var t := s.(live := s.live - multiset{x});
    SameTokens(s, t, f);
    BorrowsSpare(s, t, x);
    SourcesSpare(s, f, t, x);
    hide TokensCover, BorrowsHeld, SourcesKnown, SourcesBut;
  }

  lemma BeginTransportTokens(s: Sub, f: SM, t: Sub, n: nat)
    requires TokensCover(s, f) && t == s.(carried := s.carried + multiset{n}, live := t.live, q := t.q)
    ensures TokensCover(t, f.ToBeSent(EMPTY_SUBCHANNEL_ID, OnKeepalive(n)))
  {
    assert |t.carried| == |s.carried| + 1;
    assert forall v :: t.Aboard(v) == s.Aboard(v) + if v == EMPTY_SUBCHANNEL_ID then 1 else 0;
    TokensMove(s, f, t, f.ToBeSent(EMPTY_SUBCHANNEL_ID, OnKeepalive(n)));
  }

  lemma BeginTransportCovered(s: Sub, f: SM, x: Source, n: nat)
    requires Covered(s, f) && s.Spare(x)
    ensures CoveredBut(s.(carried := s.carried + multiset{n}).Enqueue(Note.Sending(EMPTY_SUBCHANNEL_ID, OnKeepalive(n)))
                        .(live := s.live - multiset{x}),
                       f.ToBeSent(EMPTY_SUBCHANNEL_ID, OnKeepalive(n)), x)
  {
    hide TokensCover, BorrowsHeld, SourcesKnown;
    var t := s.(carried := s.carried + multiset{n}).Enqueue(Note.Sending(EMPTY_SUBCHANNEL_ID, OnKeepalive(n)))
              .(live := s.live - multiset{x});
    BeginTransportTokens(s, f, t, n);
    BorrowsSpare(s, t, x);
    SourcesSpare(s, f, t, x);
  }

  lemma EndTransportTokens(s: Sub, f: SM, n: nat)
    requires TokensCover(s, f) && n in s.carried && EMPTY_SUBCHANNEL_ID !in s.down
    ensures TokensCover(s.EndTransport(n), f.Received(EMPTY_SUBCHANNEL_ID, Transport(n)))
  {
    var t := s.EndTransport(n);
    assert |t.carried| == |s.carried| - 1;
    assert forall v :: t.Aboard(v) == if v == EMPTY_SUBCHANNEL_ID then s.Aboard(v) - 1 else s.Aboard(v);
    assert f.inFlight[EMPTY_SUBCHANNEL_ID] > 0;
    TokensMove(s, f, t, f.Received(EMPTY_SUBCHANNEL_ID, Transport(n)));
  }

  lemma EndTransportSources(s: Sub, f: SM, n: nat)
    requires SourcesKnown(s, f)
    ensures SourcesKnown(s.EndTransport(n), f.Received(EMPTY_SUBCHANNEL_ID, Transport(n)))
  {
    assert forall y :: s.Held(y) ==> s.EndTransport(n).Held(y);
  }

  lemma EndTransportCovered(s: Sub, f: SM, n: nat)
    requires Covered(s, f) && n in s.carried
    ensures Covered(s.EndTransport(n), f.Received(EMPTY_SUBCHANNEL_ID, Transport(n)))
  {
    hide TokensCover, BorrowsHeld, SourcesKnown;
    var t := s.EndTransport(n);
    EndTransportTokens(s, f, n);
    EndTransportSources(s, f, n);
    LivesOn(s, t);
    BorrowsSame(s, t);
  }

  lemma LoseTransportCovered(s: Sub, f: SM, n: nat)
    requires Covered(s, f) && n in s.carried
    ensures Covered(s.LoseTransport(n), f)
  {
    var t := s.LoseTransport(n);
    LoseTransportTokens(s, f, n);
    hide TokensCover, BorrowsHeld, SourcesKnown;
    SourcesSame(s, t, f);
    LivesOn(s, t);
    BorrowsSame(s, t);
  }

  lemma LoseTransportTokens(s: Sub, f: SM, n: nat)
    requires TokensCover(s, f) && CarriersKnown(s) && n in s.carried
    ensures TokensCover(s.LoseTransport(n), f)
  {
    var t := s.LoseTransport(n);
    assert |t.carried| == |s.carried| - 1;
    assert forall v :: t.Aboard(v) + t.leaked[v] == s.Aboard(v) + s.leaked[v];
    TokensMove(s, f, t, f);
  }

  // Carriers that go down.

  lemma GoDownTokens(s: Sub, f: SM, vias: set<SubChannelId>)
    requires TokensCover(s, f) && CarriersKnown(s) && EMPTY_SUBCHANNEL_ID !in vias
    ensures TokensCover(s.GoDown(vias), f)
  {
    var t := s.GoDown(vias);
    forall v ensures t.Aboard(v) + t.leaked[v] == s.Aboard(v) + s.leaked[v] && s.leaked[v] <= t.leaked[v] {
      assert t.leaked[v] == s.leaked[v] + On(s.transit, vias)[v] + On(s.pending, vias)[v];
    }
  }

  lemma GoDownCovered(s: Sub, vias: set<SubChannelId>)
    requires Covered(s, s.Final()) && EMPTY_SUBCHANNEL_ID !in vias
    ensures Covered(s.GoDown(vias), s.Final())
  {
    hide TokensCover, BorrowsHeld, SourcesKnown, On;
    var t := s.GoDown(vias);
    GoDownTokens(s, s.Final(), vias);
    GoDownSources(s, vias);
    LivesOn(s, t);
    BorrowsSame(s, t);
  }

  lemma GoDownSources(s: Sub, vias: set<SubChannelId>)
    requires SourcesKnown(s, s.Final())
    ensures SourcesKnown(s.GoDown(vias), s.Final())
  {
    hide On;
    var t := s.GoDown(vias);
    var u := s.(transit := t.transit, pending := t.pending, down := t.down, leaked := t.leaked);
    SameHeld(u, t);
  }

  // ---------------------------------------------------------------------------------------
  // Polling
  // ---------------------------------------------------------------------------------------

  /** No copy is on a carrier whose probe fails, or nobody is there to receive it. */
  ghost predicate PollHarmless(s: Sub, failing: set<SubChannelId>) {
    forall v | v in failing :: v in s.down || s.Aboard(v) == 0
  }

  /** The histories after a poll. */
  ghost function Settled(s: Sub, failing: set<SubChannelId>): Sub {
    s.(leaked := Purge(s.leaked, failing), waived := Purge(s.waived, failing) + On(s.announced, failing))
  }

  lemma SettledAt(s: Sub, failing: set<SubChannelId>, v: SubChannelId)
    ensures Settled(s, failing).leaked[v] == if v in failing then 0 else s.leaked[v]
    ensures Settled(s, failing).waived[v] == if v in failing then s.announced[v] else s.waived[v]
  {
  }

  lemma PurgeAt(bag: multiset<SubChannelId>, failing: set<SubChannelId>, v: SubChannelId)
    ensures Purge(bag, failing)[v] == if v in failing then 0 else bag[v]
  {
  }

  lemma PollTokensAt(s: Sub, f: SM, failing: set<SubChannelId>, v: SubChannelId)
    requires TokensCover(s, f) && CarriersKnown(s)
    ensures Settled(s, failing).Aboard(v) == s.Aboard(v)
    ensures (v in failing && v !in s.down ==> s.Aboard(v) == 0)
            <==> && (v !in s.down ==> Settled(s, failing).waived[v] <= Settled(s, failing).leaked[v])
                 && Purge(f.inFlight, failing)[v] + Settled(s, failing).waived[v]
                    == s.Aboard(v) + Settled(s, failing).leaked[v]
  {
    SettledAt(s, failing, v);
    PurgeAt(f.inFlight, failing, v);
    assert v == EMPTY_SUBCHANNEL_ID ==> v !in s.announced;
  }

  lemma PollTokens(s: Sub, f: SM, failing: set<SubChannelId>, g: SM)
    requires TokensCover(s, f) && CarriersKnown(s) && g.inFlight == Purge(f.inFlight, failing)
    ensures TokensCover(Settled(s, failing), g) <==> PollHarmless(s, failing)
  {
    hide Purge, On, Settled;
    var t := Settled(s, failing);
    SettledFrame(s, failing);
    forall v
      ensures t.Aboard(v) == s.Aboard(v)
      ensures (v in failing && v !in s.down ==> s.Aboard(v) == 0)
              <==> && (v !in s.down ==> t.waived[v] <= t.leaked[v])
                   && g.inFlight[v] + t.waived[v] == s.Aboard(v) + t.leaked[v]
    {
      PollTokensAt(s, f, failing, v);
    }
  }

  lemma SettledFrame(s: Sub, failing: set<SubChannelId>)
    ensures var t := Settled(s, failing); t == s.(leaked := t.leaked, waived := t.waived)
  {
  }

  lemma PolledMachine(m: SM, failing: set<SubChannelId>)
    requires m.maybe.None? <==> m.Empty()
    ensures m.Poll(failing).0.inFlight == Purge(m.inFlight, failing) && m.Poll(failing).0.sources == m.sources
    ensures m.Poll(failing).0.maybe.None? <==> m.Poll(failing).0.Empty()
    ensures m.Poll(failing).2.Some? <==> m.maybe.Some? && m.Poll(failing).0.maybe.None?
  {
    if m.maybe.None? {
      assert Purge(m.inFlight, failing) == multiset{};
    }
  }

  lemma PollSources(s: Sub, t: Sub, f: SM, g: SM)
    requires t.home == s.home && t.live == s.live && t.pending == s.pending && t.orphaned == s.orphaned
    requires g.sources == f.sources && SourcesKnown(s, f)
    ensures SourcesKnown(t, g)
  {
    assert forall x :: t.Held(x) == s.Held(x);
  }

  lemma PollCovered(s: Sub, failing: set<SubChannelId>)
    requires Covered(s, s.m) && (s.m.maybe.None? <==> s.m.Empty())
    ensures Covered(s.Poll(failing), s.Poll(failing).m) <==> PollHarmless(s, failing)
  {
    var t := s.Poll(failing);
    PolledMachine(s.m, failing);
    PollTokens(s, s.m, failing, t.m);
    PollSources(s, t, s.m, t.m);
    SameTokens(t, Settled(s, failing), t.m);
    hide Purge, On, SourcesKnown, TokensCover, Machine.Poll;
  }

  // ---------------------------------------------------------------------------------------
  // The whole invariant, event by event
  // ---------------------------------------------------------------------------------------

  ghost predicate InvBut(s: Sub, x: Source) {
    && Timely(s.m, s.q)
    && (s.m.maybe.None? <==> s.m.Empty())
    && Logged(s)
    && CoveredBut(s, s.Final(), x)
  }

  ghost predicate SameQueue(s: Sub, t: Sub) {
    t.m == s.m && t.q == s.q && t.log == s.log && t.sent == s.sent && t.fates == s.fates && t.gone == s.gone
  }

  /** Appending one note to the queue, whatever else changes in the copies. */
  lemma Enqueued(s: Sub, t: Sub, note: Note)
    requires Timely(s.m, s.q) && Logged(s)
    requires t.m == s.m && t.q == s.q + [note] && t.log == s.log && t.fates == s.fates && t.gone == s.gone
    requires t.sent == s.sent + DataOf(note)
    requires Expected(s.Final(), note)
    ensures Timely(t.m, t.q) && Logged(t) && t.Final() == MStep(s.Final(), note)
  {
    hide Kept, Letters, MStep, Expected;
    ReplayAppend(s.m, s.q, note);
    PayloadsAppend(s.q, note);
    assert t.sent[..|s.fates|] == s.sent[..|s.fates|];
    assert t.sent[|s.fates|..] == s.sent[|s.fates|..] + DataOf(note);
  }

  lemma UntrackKeepsInv(s: Sub, x: Source)
    requires InvBut(s, x)
    ensures Inv(s.Untrack(x))
  {
    if s.Held(x) {
    } else if x in s.told {
      OrphanKeepsInv(s, x);
    } else {
      Enqueued(s, s.Part(x), Note.Disconnect(x));
      PartCovered(s, s.Final(), x);
    }
  }

  lemma OrphanKeepsInv(s: Sub, x: Source)
    requires InvBut(s, x)
    ensures Inv(s.Orphan(x))
  {
    OrphanCovered(s, s.Final(), x);
    assert SameQueue(s, s.Orphan(x));
  }

  lemma LiveMeansOpen(s: Sub)
    requires Inv(s) && s.live != multiset{}
    ensures s.Final().sources != {} && s.m.maybe.Some?
  {
    var x :| x in s.live;
    assert x in s.Final().sources;
    if s.m.Empty() {
      EmptyStaysEmpty(s.m, s.q);
    }
  }

  lemma CloneKeepsInv(s: Sub, x: Source)
    requires Inv(s) && x in s.live
    ensures Inv(s.Clone(x))
  {
    assert SameQueue(s, s.Clone(x));
    CloneCovered(s, s.Final(), x);
  }

  lemma DropKeepsInv(s: Sub, x: Source)
    requires Inv(s) && s.Spare(x)
    ensures Inv(s.Drop(x))
  {
    var t := s.(live := s.live - multiset{x});
    DropCovered(s, s.Final(), x);
    assert SameQueue(s, t);
    UntrackKeepsInv(t, x);
  }

  lemma VanishKeepsInv(s: Sub, x: Source)
    requires Inv(s) && s.Spare(x)
    ensures Inv(s.Vanish(x))
  {
    var t := s.(live := s.live - multiset{x});
    DropCovered(s, s.Final(), x);
    assert SameQueue(s, t);
    if !t.Held(x) {
      OrphanKeepsInv(t, x);
    }
  }

  lemma LearnKeepsInv(s: Sub, x: Source)
    requires Inv(s)
    ensures Inv(s.Learn(x))
  {
    SameCovered(s, s.Learn(x), s.Final());
  }

  lemma PostKeepsInv(s: Sub, payload: Payload)
    requires Inv(s) && s.live != multiset{}
    ensures Inv(s.Post(payload))
  {
    LiveMeansOpen(s);
    Enqueued(s, s.Post(payload), Note.Data(payload));
    SameCovered(s, s.Post(payload), s.Final());
  }

  lemma AnnounceKeepsInv(s: Sub, x: Source, via: SubChannelId, probe: Probe<Chan>)
    requires Inv(s) && x in s.live && via in s.home
    ensures Inv(s.Announce(x, via, probe))
  {
    LiveMeansOpen(s);
    Enqueued(s, s.Announce(x, via, probe), Note.Sending(via, probe));
    AnnounceCovered(s, s.Final(), x, via, probe);
  }

  lemma LaunchKeepsInv(s: Sub, x: Source, via: SubChannelId)
    requires Inv(s) && x in s.borrowed && via in s.announced && via !in s.down
    ensures Inv(s.Launch(x, via))
  {
    hide Covered;
    assert SameQueue(s, s.Launch(x, via));
    LaunchCovered(s, s.Final(), x, via);
  }

  lemma AbortKeepsInv(s: Sub, x: Source, via: SubChannelId)
    requires Inv(s) && x in s.borrowed && via in s.announced
    ensures Inv(s.Abort(x, via))
  {
    hide Covered;
    assert SameQueue(s, s.Abort(x, via));
    AbortCovered(s, s.Final(), x, via);
  }

  lemma ArriveKeepsInv(s: Sub, via: SubChannelId)
    requires Inv(s) && via in s.transit && via in s.home
    ensures Inv(s.Arrive(via))
  {
    assert SameQueue(s, s.Arrive(via));
    ArriveCovered(s, s.Final(), via);
  }

  lemma StrandKeepsInv(s: Sub, via: SubChannelId)
    requires Inv(s) && via in s.transit && via in s.home
    ensures Inv(s.Strand(via))
  {
    var t := s.Strand(via);
    assert SameQueue(s, t);
    StrandCovered(s, s.Final(), via);
  }

  lemma AcceptKeepsInv(s: Sub, via: SubChannelId)
    requires Inv(s) && via in s.pending && via in s.home
    ensures Inv(s.Accept(via))
  {
    assert via !in s.down && s.Aboard(via) <= s.Final().inFlight[via];
    Enqueued(s, s.Accept(via), Note.Received(via, Receiver(s.home[via])));
    AcceptCovered(s, s.Final(), via);
  }

  lemma RefuseKeepsInv(s: Sub, via: SubChannelId)
    requires Inv(s) && via in s.pending && via in s.home
    ensures Inv(s.Refuse(via))
  {
    var t := s.(pending := s.pending - multiset{via}).Enqueue(Note.ReceiveFailed(via));
    assert via !in s.down && s.Aboard(via) <= s.Final().inFlight[via];
    Enqueued(s, t, Note.ReceiveFailed(via));
    RefuseCovered(s, s.Final(), via);
    UntrackKeepsInv(t, Receiver(s.home[via]));
  }

  lemma ReleaseKeepsInv(s: Sub, via: SubChannelId)
    requires Inv(s) && via in s.pending && via in s.home
    ensures Inv(s.Release(via))
  {
    var t := s.(pending := s.pending - multiset{via}, leaked := s.leaked + multiset{via});
    assert SameQueue(s, t);
    ReleaseCovered(s, s.Final(), via);
    UntrackKeepsInv(t, Receiver(s.home[via]));
  }

  lemma BeginTransportKeepsInv(s: Sub, x: Source, n: nat)
    requires Inv(s) && s.Spare(x)
    ensures Inv(s.BeginTransport(x, n))
  {
    LiveMeansOpen(s);
    var note := Note.Sending(EMPTY_SUBCHANNEL_ID, OnKeepalive(n));
    var t := s.(carried := s.carried + multiset{n}).Enqueue(note).(live := s.live - multiset{x});
    Enqueued(s, t, note);
    BeginTransportCovered(s, s.Final(), x, n);
    UntrackKeepsInv(t, x);
  }

  lemma EndTransportKeepsInv(s: Sub, n: nat)
    requires Inv(s) && n in s.carried
    ensures Inv(s.EndTransport(n))
  {
    assert 0 < s.Aboard(EMPTY_SUBCHANNEL_ID) <= s.Final().inFlight[EMPTY_SUBCHANNEL_ID];
    Enqueued(s, s.EndTransport(n), Note.Received(EMPTY_SUBCHANNEL_ID, Transport(n)));
    EndTransportCovered(s, s.Final(), n);
  }

  lemma LoseTransportKeepsInv(s: Sub, n: nat)
    requires Inv(s) && n in s.carried
    ensures Inv(s.LoseTransport(n))
  {
    assert SameQueue(s, s.LoseTransport(n));
    LoseTransportCovered(s, s.Final(), n);
  }

  lemma GoDownKeepsInv(s: Sub, vias: set<SubChannelId>)
    requires Inv(s) && EMPTY_SUBCHANNEL_ID !in vias
    ensures Inv(s.GoDown(vias))
  {
    assert SameQueue(s, s.GoDown(vias));
    GoDownCovered(s, vias);
  }

  lemma ReceiverGoneKeepsInv(s: Sub)
    requires Inv(s)
    ensures Inv(s.ReceiverGone())
  {
    SameCovered(s, s.ReceiverGone(), s.Final());
  }

  lemma StepHandsOut(m: SM, note: Note)
    requires (m.maybe.None? <==> m.Empty()) && (NeedsCopy(note) ==> !m.Empty())
    ensures MStep(m, note).maybe.None? <==> MStep(m, note).Empty()
    ensures m.maybe.None? ==> MStep(m, note).maybe.None?
  {
    match note
    case Received(_, source) => assert source in MStep(m, note).sources;
    case ReceiveFailed(via) => HandsOut(m.(inFlight := m.inFlight - multiset{via}));
    case Disconnect(source) => HandsOut(m.(sources := m.sources - {source}));
    case _ =>
  }

  /** Handling a note takes the sender out of the machine exactly when the machine runs empty. */
  lemma StepKeepsHandOut(m: SM, note: Note)
    requires (m.maybe.None? <==> m.Empty()) && (NeedsCopy(note) ==> !m.Empty())
    ensures MStep(m, note).maybe.None? <==> MStep(m, note).Empty()
    ensures m.maybe.None? ==> MStep(m, note).maybe.None?
    ensures Outs(m, note) == Letters(DataOf(note))
                             + (if m.maybe.Some? && MStep(m, note).maybe.None? then [Closed] else [])
  {
    StepHandsOut(m, note);
    if note.ReceiveFailed? {
      HandsOut(m.(inFlight := m.inFlight - multiset{note.via}));
    } else if note.Disconnect? {
      HandsOut(m.(sources := m.sources - {note.source}));
    }
    hide Machine.HandOut, Machine.Empty;
  }

  lemma HandsOut(m: SM)
    requires m.maybe.None? ==> m.Empty()
    ensures m.HandOut().0.maybe.None? <==> m.HandOut().0.Empty()
    ensures m.HandOut().1.Some? <==> m.maybe.Some? && m.HandOut().0.maybe.None?
    ensures m.HandOut().1.None? ==> m.HandOut().0 == m
    ensures m.maybe.None? ==> m.HandOut().0.maybe.None?
  {
  }

  lemma LettersAppend(a: seq<Payload>, b: seq<Payload>)
    ensures Letters(a + b) == Letters(a) + Letters(b)
  {
  }

  /** A message at the head of the queue is the next of those sent. */
  lemma NextFate(s: Sub, t: Sub, kept: bool)
    requires Logged(s) && s.q != [] && s.q[0].Data?
    requires t.q == s.q[1..] && t.sent == s.sent && t.fates == s.fates + [kept]
    ensures |t.fates| <= |t.sent| && Payloads(t.q) == t.sent[|t.fates|..]
    ensures Given(t) == Given(s) + if kept then [Letter(s.q[0].payload)] else []
  {
    var n, payload := |s.fates|, s.q[0].payload;
    assert s.sent[n..] == [payload] + Payloads(s.q[1..]);
    assert s.sent[n] == payload && t.sent[..n + 1] == s.sent[..n] + [payload];
    assert t.sent[n + 1..] == s.sent[n..][1..];
    KeptNext(s.sent[..n], s.fates, payload, kept);
    LettersAppend(Kept(s.sent[..n], s.fates), if kept then [payload] else []);
  }

  lemma HandleLogs(s: Sub)
    requires s.q != [] && Logged(s)
    requires (s.m.maybe.None? <==> s.m.Empty()) && (NeedsCopy(s.q[0]) ==> !s.m.Empty())
    ensures Logged(s.Handle())
  {
    StepKeepsHandOut(s.m, s.q[0]);
    var t := s.Handle();
    if s.q[0].Data? {
      NextFate(s, t, !s.gone && s.m.maybe.Some?);
    } else {
      assert Outs(s.m, s.q[0]) == if s.m.maybe.Some? && t.m.maybe.None? then [Closed] else [];
      assert t.fates == s.fates;
    }
  }

  lemma HandleKeepsInv(s: Sub)
    requires Inv(s) && s.q != []
    ensures Inv(s.Handle())
  {
    var t := s.Handle();
    assert t.Final() == s.Final();
    StepKeepsHandOut(s.m, s.q[0]);
    SameCovered(s, t, s.Final());
    HandleLogs(s);
  }

  lemma LoseKeepsInv(s: Sub)
    requires Inv(s) && s.q != [] && s.q[0].Data?
    ensures Inv(s.Lose())
  {
    var t := s.Lose();
    assert t.Final() == s.Final();
    NextFate(s, t, false);
    SameCovered(s, t, s.Final());
  }

  lemma PollLogs(s: Sub, failing: set<SubChannelId>)
    requires Logged(s) && s.q == [] && (s.m.maybe.None? <==> s.m.Empty())
    ensures Logged(s.Poll(failing))
  {
    PolledMachine(s.m, failing);
    assert Given(s.Poll(failing)) == Given(s);
  }

  /** With the queue handled, a poll keeps the invariant exactly if it is harmless. */
  lemma PollKeepsInvIff(s: Sub, failing: set<SubChannelId>)
    requires Inv(s) && s.q == []
    ensures Inv(s.Poll(failing)) <==> PollHarmless(s, failing)
  {
    PollCovered(s, failing);
    PolledMachine(s.m, failing);
    PollLogs(s, failing);
    var t := s.Poll(failing);
    assert t.q == [] && t.Final() == t.m && s.Final() == s.m && t.m == s.m.Poll(failing).0;
    hide Covered, Logged, Sub.Poll, Machine.Poll;
  }

  // ---------------------------------------------------------------------------------------
  // A carrier that cannot be connected to
  // ---------------------------------------------------------------------------------------

  /** A note does without one of the tokens on `via`. */
  ghost predicate Spares(m: SM, via: SubChannelId, note: Note) {
    && (NeedsCopy(note) ==> m.sources != {} || m.inFlight != multiset{via})
    && ((note.Received? || note.ReceiveFailed?) && note.via == via ==> m.inFlight[via] > 1)
  }

  /**
   The announcement at the head of the queue can do without being recorded: had it been, its
   token would at no point be the last one on the carrier when an arrival is handled, nor all the
   machine has left when a message, an announcement or an arrival is; and in the end the carrier
   would have a token more than copies, or be gone.
   */
  ghost predicate Harmless(s: Sub)
    requires s.q != [] && s.q[0].Sending?
  {
    var via, m, rest := s.q[0].via, MStep(s.m, s.q[0]), s.q[1..];
    && (forall i | 0 <= i < |rest| :: Spares(Replay(m, rest[..i]), via, rest[i]))
    && (via in s.down || s.Aboard(via) < s.Final().inFlight[via])
  }

  /** Two machines that differ in one token, and in nothing else that lasts. */
  ghost predicate Short(m: SM, l: SM, via: SubChannelId) {
    l.sources == m.sources && via in m.inFlight && l.inFlight == m.inFlight - multiset{via}
  }

  lemma ShortEmpty(m: SM, l: SM, via: SubChannelId)
    requires Short(m, l, via)
    ensures l.Empty() <==> m.sources == {} && m.inFlight == multiset{via}
    ensures forall v :: v in l.inFlight <==> if v == via then m.inFlight[v] > 1 else v in m.inFlight
    ensures !m.Empty()
  {
    if l.inFlight == multiset{} {
      assert m.inFlight == l.inFlight + multiset{via};
    }
  }

  lemma ShortExpected(m: SM, l: SM, via: SubChannelId, note: Note)
    requires Short(m, l, via) && Expected(m, note)
    ensures Expected(l, note) <==> Spares(m, via, note)
    ensures Expected(l, note) ==> Short(MStep(m, note), MStep(l, note), via)
  {
    ShortEmpty(m, l, via);
    if Expected(l, note) {
      ShortStep(m, l, via, note);
    }
  }

  lemma ShortBags(a: multiset<SubChannelId>, b: multiset<SubChannelId>, via: SubChannelId, v: SubChannelId)
    requires via in a && b == a - multiset{via}
    ensures b + multiset{v} == a + multiset{v} - multiset{via}
    ensures v in b ==> b - multiset{v} == a - multiset{v} - multiset{via}
  {
  }

  lemma StepParts(m: SM, note: Note)
    ensures MStep(m, note).sources == match note
              case Received(_, source) => m.sources + {source}
              case Disconnect(source) => m.sources - {source}
              case _ => m.sources
    ensures MStep(m, note).inFlight == match note
              case Sending(via, _) => m.inFlight + multiset{via}
              case Received(via, _) => m.inFlight - multiset{via}
              case ReceiveFailed(via) => m.inFlight - multiset{via}
              case _ => m.inFlight
  {
  }

  lemma ShortStep(m: SM, l: SM, via: SubChannelId, note: Note)
    requires Short(m, l, via) && (note.Received? || note.ReceiveFailed? ==> note.via in l.inFlight)
    ensures Short(MStep(m, note), MStep(l, note), via)
  {
    StepParts(m, note);
    StepParts(l, note);
    hide MStep;
    if note.Sending? || note.Received? || note.ReceiveFailed? {
      ShortBags(m.inFlight, l.inFlight, via, note.via);
    }
  }

  lemma {:induction false} ShortTimely(m: SM, l: SM, via: SubChannelId, q: seq<Note>)
    requires Short(m, l, via) && Timely(m, q)
    ensures Timely(l, q) <==> forall i | 0 <= i < |q| :: Spares(Replay(m, q[..i]), via, q[i])
    ensures Timely(l, q) ==> Short(Replay(m, q), Replay(l, q), via)
    decreases q
  {
    if q != [] {
      var m', l', rest := MStep(m, q[0]), MStep(l, q[0]), q[1..];
      ShortExpected(m, l, via, q[0]);
      assert q[..0] == [] && Replay(m, q[..0]) == m;
      forall i | 0 <= i < |rest| ensures Replay(m, q[..i + 1]) == Replay(m', rest[..i]) && q[i + 1] == rest[i] {
        assert q[..i + 1][0] == q[0] && q[..i + 1][1..] == rest[..i];
      }
      if Expected(l, q[0]) {
        ShortTimely(m', l', via, rest);
        SparesShift(m, m', via, q);
      }
    }
  }

  lemma SparesShift(m: SM, m': SM, via: SubChannelId, q: seq<Note>)
    requires q != [] && m' == MStep(m, q[0]) && Spares(m, via, q[0])
    requires forall i | 0 <= i < |q| - 1 :: Replay(m, q[..i + 1]) == Replay(m', q[1..][..i]) && q[i + 1] == q[1..][i]
    ensures (forall i | 0 <= i < |q| :: Spares(Replay(m, q[..i]), via, q[i]))
            <==> forall i | 0 <= i < |q| - 1 :: Spares(Replay(m', q[1..][..i]), via, q[1..][i])
  {
    assert Replay(m, q[..0]) == m;
    if forall i | 0 <= i < |q| - 1 :: Spares(Replay(m', q[1..][..i]), via, q[1..][i]) {
      forall i | 0 <= i < |q| ensures Spares(Replay(m, q[..i]), via, q[i]) {
        if i > 0 {
          assert Spares(Replay(m', q[1..][..i - 1]), via, q[1..][i - 1]);
        }
      }
    }
    if forall i | 0 <= i < |q| :: Spares(Replay(m, q[..i]), via, q[i]) {
      forall i | 0 <= i < |q| - 1 ensures Spares(Replay(m', q[1..][..i]), via, q[1..][i]) {
        assert Spares(Replay(m, q[..i + 1]), via, q[i + 1]);
      }
    }
  }

  lemma ShortTokens(s: Sub, t: Sub, f: SM, g: SM, via: SubChannelId)
    requires TokensCover(s, f) && Short(f, g, via) && SameCopies(s, t.(waived := s.waived))
    requires t.waived == s.waived + multiset{via}
    ensures TokensCover(t, g) <==> via in s.down || s.Aboard(via) < f.inFlight[via]
  {
    assert forall v :: t.Aboard(v) == s.Aboard(v);
    assert f.inFlight[via] + s.waived[via] == s.Aboard(via) + s.leaked[via];
  }

  lemma ShortCovered(s: Sub, t: Sub, f: SM, g: SM, via: SubChannelId)
    requires Covered(s, f) && Short(f, g, via) && SameCopies(s, t.(waived := s.waived))
    requires t.waived == s.waived + multiset{via}
    ensures Covered(t, g) <==> via in s.down || s.Aboard(via) < f.inFlight[via]
  {
    ShortTokens(s, t, f, g, via);
    SameHeld(s, t);
    hide TokensCover, Short;
    assert g.sources == f.sources;
    LivesOn(s, t);
    BorrowsSame(s, t);
    hide BorrowsHeld;
  }

  /** Not recording an announcement is harmless exactly if what follows does without it. */
  lemma ForgetKeepsInvIff(s: Sub)
    requires Inv(s) && s.q != [] && s.q[0].Sending?
    ensures Inv(s.Forget()) <==> Harmless(s)
  {
    hide Covered;
    var t, via, m := s.Forget(), s.q[0].via, MStep(s.m, s.q[0]);
    assert t.m.inFlight == s.m.inFlight && t.m.sources == s.m.sources && t.m.maybe == s.m.maybe by {
      assert s.m.inFlight + multiset{via} - multiset{via} == s.m.inFlight;
    }
    assert Short(m, t.m, via);
    ShortTimely(m, t.m, via, t.q);
    assert Logged(t) && s.Final() == Replay(m, t.q);
    if Timely(t.m, t.q) {
      ShortCovered(s, t, s.Final(), t.Final(), via);
    }
  }

  // ---------------------------------------------------------------------------------------
  // What the invariant means for the receiver
  // ---------------------------------------------------------------------------------------

  /** Nobody holds a copy, is about to embed one, carries one, or transports one. */
  ghost predicate Deserted(s: Sub) {
    && s.live == multiset{} && s.announced == multiset{}
    && s.transit == multiset{} && s.pending == multiset{} && s.carried == multiset{}
  }

  /** The machine has been told of all that has become of copies. */
  ghost predicate Accounted(s: Sub) {
    s.leaked == s.waived && s.orphaned == {}
  }

  /**
   No premature disconnection: when the machine has given its sender away, no copy is left
   anywhere, no message is left either, and the receiver has been given every message that was
   not lost, then one marker.
   */
  lemma ClosedMeansDeserted(s: Sub)
    requires Inv(s) && s.m.maybe.None?
    ensures Deserted(s) && Payloads(s.q) == [] && |s.fates| == |s.sent|
    ensures !s.gone ==> s.log == Letters(Kept(s.sent, s.fates)) + [Closed]
  {
    EmptyStaysEmpty(s.m, s.q);
    assert s.sent[|s.fates|..] == [] && s.sent[..|s.sent|] == s.sent;
    assert s.live == multiset{} && s.borrowed == multiset{};
    assert s.announced == multiset{};
    assert s.Aboard(EMPTY_SUBCHANNEL_ID) == 0;
    forall v ensures v !in s.transit && v !in s.pending {
      NothingAboard(s, v);
    }
  }

  lemma NothingAboard(s: Sub, v: SubChannelId)
    requires Covered(s, s.Final()) && s.Final().inFlight == multiset{}
    ensures v !in s.transit && v !in s.pending
  {
  }

  /**
   Exact detection: once every note has been handled, the machine has given its sender away
   exactly when nobody has a copy and the machine has been told of all that became of them.
   */
  lemma ClosedIffDeserted(s: Sub)
    requires Inv(s) && s.q == []
    ensures s.m.maybe.None? <==> Deserted(s) && Accounted(s)
  {
    assert s.Final() == s.m;
    assert Deserted(s) ==> forall v :: s.Aboard(v) == 0;
    if s.m.maybe.None? {
      ClosedMeansDeserted(s);
      assert forall v :: s.leaked[v] == s.waived[v];
    }
    if Deserted(s) && Accounted(s) {
      assert forall v :: s.m.inFlight[v] == 0;
      assert forall x :: !s.Held(x);
    }
  }
}
