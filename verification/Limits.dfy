/**
 Where the state machine meets its purpose only under a condition: exactly which one, and what
 happens otherwise.
 */
module Limits {
  import opened Basics
  import opened Protocol
  import opened SubchannelLifecycle
  import opened Subchannel

  // ---------------------------------------------------------------------------------------
  // Several transports over raw IPC channels
  // ---------------------------------------------------------------------------------------

  /** Transports `from`, `from + 1`, ..., one after the other; all count under the same key. */
  function BeginTransports(m: SM, from: nat, n: nat): SM
    decreases n
  {
    if n == 0 then m
    else BeginTransports(m, from, n - 1).ToBeSent(EMPTY_SUBCHANNEL_ID, OnKeepalive(from + n - 1))
  }

  function CountTrue(alive: seq<bool>): nat {
    if alive == [] then 0 else CountTrue(alive[..|alive| - 1]) + if alive[|alive| - 1] then 1 else 0
  }

  lemma {:induction false} CountBounds(alive: seq<bool>)
    ensures CountTrue(alive) <= |alive|
    ensures CountTrue(alive) == |alive| <==> forall i | 0 <= i < |alive| :: alive[i]
    ensures CountTrue(alive) == 0 <==> forall i | 0 <= i < |alive| :: !alive[i]
  {
    if alive != [] {
      var n := |alive| - 1;
      CountBounds(alive[..n]);
      assert forall i | 0 <= i < n :: alive[..n][i] == alive[i];
      assert (forall i | 0 <= i < |alive| :: alive[i]) <==> (forall i | 0 <= i < n :: alive[..n][i]) && alive[n];
      assert (forall i | 0 <= i < |alive| :: !alive[i]) <==> (forall i | 0 <= i < n :: !alive[..n][i]) && !alive[n];
    }
  }

  lemma {:induction false} TransportsCount(m: SM, from: nat, n: nat)
    ensures var t := BeginTransports(m, from, n);
            && t.sources == m.sources && t.maybe == m.maybe
            && t.inFlight[EMPTY_SUBCHANNEL_ID] == m.inFlight[EMPTY_SUBCHANNEL_ID] + n
            && (n > 0 ==> EMPTY_SUBCHANNEL_ID in t.probes
                          && t.probes[EMPTY_SUBCHANNEL_ID] == OnKeepalive(from + n - 1))
    decreases n
  {
    if n > 0 {
      TransportsCount(m, from, n - 1);
    }
  }

  type Answers = (SubChannelId, Probe<Chan>) -> bool

  /** The probe of the last transport answers truly. */
  predicate AnswersTruly(answer: Answers, from: nat, alive: seq<bool>)
    requires alive != []
  {
    var last := |alive| - 1;
    answer(EMPTY_SUBCHANNEL_ID, OnKeepalive(from + last)) == alive[last]
  }

  /**
   Of several transports in progress only the last one is probed, on behalf of all: of `earlier`
   ones that are alive, among the tokens that the machine had under their key before, and of
   those in `alive`. A poll keeps a token for every transport that is alive if and only if the
   last one is alive, or none is; and it keeps no more than that if and only if all fare like the
   last one.
   */
  lemma SharedKey(m: SM, earlier: nat, from: nat, alive: seq<bool>, answer: Answers)
    requires m.maybe.Some? && earlier <= m.inFlight[EMPTY_SUBCHANNEL_ID] && alive != []
             && AnswersTruly(answer, from, alive)
    ensures var t := BeginTransports(m, from, |alive|);
            var kept := t.Poll(Failing(t.probes, answer)).0.inFlight[EMPTY_SUBCHANNEL_ID];
            var last := alive[|alive| - 1];
            && (earlier + CountTrue(alive) <= kept
                <==> last || (earlier == 0 && forall i | 0 <= i < |alive| :: !alive[i]))
            && (earlier + CountTrue(alive) == kept
                <==> && (forall i | 0 <= i < |alive| :: alive[i] == last)
                     && earlier == if last then m.inFlight[EMPTY_SUBCHANNEL_ID] else 0)
  {
    var t := BeginTransports(m, from, |alive|);
    var failing := Failing(t.probes, answer);
    TransportsCount(m, from, |alive|);
    CountBounds(alive);
    assert EMPTY_SUBCHANNEL_ID in failing <==> !alive[|alive| - 1];
    PurgeAt(t.inFlight, failing, EMPTY_SUBCHANNEL_ID);
  }

  /** So a subchannel whose only copy travels in a transport can be closed by a later transport's failure. */
  lemma LiveTransportClosed(tx: Tx)
    ensures var first := Initial<Tx, Source, SubChannelId, Probe<Chan>>(tx, Origin);
            var m := BeginTransports(first, 0, 2).Disconnect(Origin).0;
            var answer := (v: SubChannelId, p: Probe<Chan>) => p != OnKeepalive(1);
            && AnswersTruly(answer, 0, [true, false])
            && m.Poll(Failing(m.probes, answer)).2 == Some(tx)
  {
    var m0 := Initial<Tx, Source, SubChannelId, Probe<Chan>>(tx, Origin);
    var m1 := m0.ToBeSent(EMPTY_SUBCHANNEL_ID, OnKeepalive(0));
    var m2 := m1.ToBeSent(EMPTY_SUBCHANNEL_ID, OnKeepalive(1));
    assert BeginTransports(m0, 0, 0) == m0 && BeginTransports(m0, 0, 1) == m1 && BeginTransports(m0, 0, 2) == m2;
    var m := m2.Disconnect(Origin).0;
    assert m.sources == {} && m.inFlight == multiset{EMPTY_SUBCHANNEL_ID, EMPTY_SUBCHANNEL_ID};
    var failing := Failing(m.probes, (v: SubChannelId, p: Probe<Chan>) => p != OnKeepalive(1));
    assert EMPTY_SUBCHANNEL_ID in failing;
    assert Purge(m.inFlight, failing) == multiset{};
  }

  /** A probe that has reason to fail when nobody carries a copy: nobody is there, or it never was. */
  ghost predicate MayFail(s: Sub, v: SubChannelId) {
    && v in s.m.probes
    && (v in s.down || v == EMPTY_SUBCHANNEL_ID || s.m.probes[v] == AlwaysFailing)
  }

  /**
   When the last copies of a subchannel have been lost, with the process that received what
   carried them or in a transport, a poll can find that out if and only if no source is orphaned
   and each carrier for which the machine still has a token has its probe: the arrival of another
   copy there would have removed it.
   */
  lemma LossDetectedIff(s: Sub)
    requires Inv(s) && s.q == [] && s.m.maybe.Some? && Deserted(s)
    ensures (exists failing :: (forall v | v in failing :: MayFail(s, v)) && s.Poll(failing).m.maybe.None?)
            <==> s.orphaned == {} && forall v | v in s.m.inFlight :: MayFail(s, v)
    ensures forall v :: v in s.m.inFlight <==> s.leaked[v] > s.waived[v]
  {
    hide Inv, Deserted, Sub.Poll, Machine.Poll, MayFail;
    LossKnown(s);
    if s.orphaned == {} && forall v | v in s.m.inFlight :: MayFail(s, v) {
      var failing := set v | v in s.m.inFlight && MayFail(s, v);
      PollEmpties(s, failing);
    }
    if failing :| (forall v | v in failing :: MayFail(s, v)) && s.Poll(failing).m.maybe.None? {
      PollEmpties(s, failing);
    }
  }

  lemma LossKnown(s: Sub)
    requires Inv(s) && s.q == [] && Deserted(s)
    ensures s.m.sources == s.orphaned && (s.m.maybe.None? <==> s.m.Empty())
    ensures forall v :: v in s.m.inFlight <==> s.leaked[v] > s.waived[v]
  {
    assert s.Final() == s.m;
    assert forall v :: s.Aboard(v) == 0;
    assert forall x :: !s.Held(x);
  }

  lemma PollEmpties(s: Sub, failing: set<SubChannelId>)
    requires s.m.maybe.Some? && !s.m.Empty()
    ensures s.Poll(failing).m.maybe.None? <==> s.m.sources == {} && forall v | v in s.m.inFlight :: v in failing
  {
    PolledMachine(s.m, failing);
    forall v ensures Purge(s.m.inFlight, failing)[v] == if v in failing then 0 else s.m.inFlight[v] {
      PurgeAt(s.m.inFlight, failing, v);
    }
    hide Machine.Poll;
    assert Purge(s.m.inFlight, failing) == multiset{} <==> forall v :: Purge(s.m.inFlight, failing)[v] == 0;
  }

  // ---------------------------------------------------------------------------------------
  // A carrier that cannot be connected to
  // ---------------------------------------------------------------------------------------

  /**
   `Sending`, when the carrier's IPC sender cannot be connected to or looked up: the copy is not
   accounted for. What follows in the queue will be expected all the same if and
   only if it can do without one token on the carrier: each arrival there finds another, and
   no message, announcement or arrival depends on the token alone.
   */
  lemma RefusedTimelyIff(m: SM, via: SubChannelId, probe: Probe<Chan>, rest: seq<Note>)
    requires Timely(m, [Note.Sending(via, probe)] + rest)
    ensures Timely(m.Refuse(via, AlwaysFailing).0, rest)
            <==> forall i | 0 <= i < |rest| :: Spares(Replay(m.ToBeSent(via, probe), rest[..i]), via, rest[i])
  {
    var all := [Note.Sending(via, probe)] + rest;
    assert all[0] == Note.Sending(via, probe) && all[1..] == rest;
    assert m.inFlight + multiset{via} - multiset{via} == m.inFlight;
    assert Short(m.ToBeSent(via, probe), m.Refuse(via, AlwaysFailing).0, via);
    ShortTimely(m.ToBeSent(via, probe), m.Refuse(via, AlwaysFailing).0, via, rest);
  }

  /** How many tokens a queue of notes puts on a carrier, and how many it takes off. */
  function Put(q: seq<Note>, via: SubChannelId): nat {
    if q == [] then 0 else (if q[0].Sending? && q[0].via == via then 1 else 0) + Put(q[1..], via)
  }

  function Taken(q: seq<Note>, via: SubChannelId): nat {
    if q == [] then 0
    else (if (q[0].Received? || q[0].ReceiveFailed?) && q[0].via == via then 1 else 0) + Taken(q[1..], via)
  }

  /** The tokens can be told by counting. */
  lemma {:induction false} TokensCounted(m: SM, q: seq<Note>, via: SubChannelId)
    requires Timely(m, q)
    ensures Replay(m, q).inFlight[via] == m.inFlight[via] + Put(q, via) - Taken(q, via)
    decreases q
  {
    if q != [] {
      StepParts(m, q[0]);
      TokensCounted(MStep(m, q[0]), q[1..], via);
    }
  }

  /** Then the subchannel can close while the copy is on its way, although the queue was timely. */
  lemma RefusedClosesEarly(tx: Tx, via: SubChannelId, x: Source, probe: Probe<Chan>, payload: Payload)
    ensures var m := Initial<Tx, Source, SubChannelId, Probe<Chan>>(tx, Origin);
            var rest := [Note.Disconnect(Origin), Note.Received(via, x), Note.Data(payload)];
            && Timely(m, [Note.Sending(via, probe)] + rest)
            && m.Refuse(via, AlwaysFailing).0.Disconnect(Origin).1 == Some(tx)
            && !Timely(m.Refuse(via, AlwaysFailing).0, rest)
  {
    var m := Initial<Tx, Source, SubChannelId, Probe<Chan>>(tx, Origin);
    var rest := [Note.Disconnect(Origin), Note.Received(via, x), Note.Data(payload)];
    var all := [Note.Sending(via, probe)] + rest;
    assert all[1..] == rest && rest[1..] == [Note.Received(via, x), Note.Data(payload)];
    assert rest[1..][1..] == [Note.Data(payload)] && rest[1..][1..][1..] == [];
    var m1 := m.ToBeSent(via, probe);
    var m2 := m1.Disconnect(Origin).0;
    var m3 := m2.Received(via, x);
    assert via in m1.inFlight && via in m2.inFlight && x in m3.sources;
    assert Timely(m3, rest[1..][1..]);
    assert Timely(m2, rest[1..]);
    assert Timely(m1, rest);
    var r := m.Refuse(via, AlwaysFailing).0;
    assert r.sources == {Origin} && r.inFlight == multiset{};
    assert {Origin} - {Origin} == {};
    assert r.Disconnect(Origin).0.Empty();
    assert !Timely(r.Disconnect(Origin).0, rest[1..]);
  }
}
