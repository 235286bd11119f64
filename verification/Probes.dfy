/**
 Which probes count: what the calls on a state machine do to its probes, as the polls that follow
 show it.
 */
module Probes {
  import opened SubchannelLifecycle

  /** Anything that can be done to a machine. The probes of `failing`, as far as there are any, answer false. */
  datatype Call<T, S, V(==), P> =
    | ToBeSent(via: V, probe: P)
    | Received(via: V, source: S)
    | ReceiveFailed(via: V)
    | Disconnect(source: S)
    | Poll(failing: set<V>)
    | SwitchSender(t: T)

  ghost function Called<T, S, V, P>(m: Machine<T, S, V, P>, call: Call<T, S, V, P>): Machine<T, S, V, P> {
    match call
    case ToBeSent(via, probe) => m.ToBeSent(via, probe)
    case Received(via, source) => m.Received(via, source)
    case ReceiveFailed(via) => m.ReceiveFailed(via).0
    case Disconnect(source) => m.Disconnect(source).0
    case Poll(failing) => m.Poll(failing * m.probes.Keys).0
    case SwitchSender(t) => m.SwitchSender(t)
  }

  ghost function CalledAll<T, S, V, P>(m: Machine<T, S, V, P>, calls: seq<Call<T, S, V, P>>): Machine<T, S, V, P> {
    if calls == [] then m else Called(CalledAll(m, calls[..|calls| - 1]), calls[|calls| - 1])
  }

  /** The copies on a carrier after a poll, if `n` were there before and `probes` were registered. */
  predicate Polled<V, P>(n: nat, n': nat, v: V, probes: map<V, P>, alive: (V, P) -> bool) {
    n' == if v in probes && !alive(v, probes[v]) then 0 else n
  }

  /**
   An arrival takes the probe of its carrier away: a poll that follows spares what is left there,
   whatever the probe would have answered, and treats the other carriers as it would have before.
   The receiving source is known then.
   */
  lemma ArrivalDisarms<T, S, V(!new), P>(m: Machine<T, S, V, P>, via: V, x: S, alive: (V, P) -> bool)
    requires m.maybe.Some?
    ensures var a := m.Received(via, x);
            var (p, open, _) := a.Poll(Failing(a.probes, alive));
            && p.inFlight[via] == (if m.inFlight[via] > 0 then m.inFlight[via] - 1 else 0)
            && (forall v | v != via :: Polled(m.inFlight[v], p.inFlight[v], v, m.probes, alive))
            && p.sources == m.sources + {x} && open && p.maybe == m.maybe
  {
    var a := m.Received(via, x);
    PollExactly(a, alive);
    assert x in a.Poll(Failing(a.probes, alive)).0.sources;
    hide Machine.Poll, Failing, Purge;
  }

  /** Only an announcement on the carrier registers a probe for it. */
  lemma StaysDisarmed<T, S, V, P>(m: Machine<T, S, V, P>, via: V, call: Call<T, S, V, P>)
    requires via !in m.probes && !(call.ToBeSent? && call.via == via)
    ensures via !in Called(m, call).probes
  {
    hide Purge;
  }

  lemma StaysArmed<T, S, V, P>(m: Machine<T, S, V, P>, via: V, call: Call<T, S, V, P>)
    requires via in m.probes && !((call.ToBeSent? || call.Received?) && call.via == via)
    requires !(call.Poll? && via in call.failing)
    ensures via in Called(m, call).probes && Called(m, call).probes[via] == m.probes[via]
  {
    hide Purge;
  }

  /** That lasts until a copy is announced on the carrier again, whatever else is done. */
  lemma {:induction false} ArrivalSpares<T, S, V(!new), P>(m: Machine<T, S, V, P>, via: V, x: S,
                                                           calls: seq<Call<T, S, V, P>>, alive: (V, P) -> bool)
    requires forall i | 0 <= i < |calls| :: !(calls[i].ToBeSent? && calls[i].via == via)
    ensures var a := CalledAll(m.Received(via, x), calls);
            via !in a.probes && a.Poll(Failing(a.probes, alive)).0.inFlight[via] == a.inFlight[via]
  {
    if calls != [] {
      var n := |calls| - 1;
      ArrivalSpares(m, via, x, calls[..n], alive);
      StaysDisarmed(CalledAll(m.Received(via, x), calls[..n]), via, calls[n]);
    }
    hide Called;
    PollExactly(CalledAll(m.Received(via, x), calls), alive);
    hide Machine.Poll;
  }

  /** A failure leaves the probe: a poll that follows treats all carriers as it would have before. */
  lemma FailureKeepsProbe<T, S, V(!new), P>(m: Machine<T, S, V, P>, via: V, alive: (V, P) -> bool)
    requires m.ReceiveFailed(via).1.None? && m.maybe.Some?
    ensures var a := m.ReceiveFailed(via).0;
            var p := a.Poll(Failing(a.probes, alive)).0;
            && Polled(if m.inFlight[via] > 0 then m.inFlight[via] - 1 else 0, p.inFlight[via], via, m.probes, alive)
            && (forall v | v != via :: Polled(m.inFlight[v], p.inFlight[v], v, m.probes, alive))
            && p.sources == m.sources
  {
    PollExactly(m.ReceiveFailed(via).0, alive);
    hide Machine.Poll, Failing, Purge;
  }

  /**
   A carrier that cannot be reached is registered with a probe of its own, though no copy is added:
   a poll that follows goes by that probe for the copies that were there before.
   */
  lemma RefusalArms<T, S, V(!new), P>(m: Machine<T, S, V, P>, via: V, probe: P, alive: (V, P) -> bool)
    requires m.maybe.Some? && m.Refuse(via, probe).1.None?
    ensures var a := m.Refuse(via, probe).0;
            var p := a.Poll(Failing(a.probes, alive)).0;
            && a.sources == m.sources && a.inFlight == m.inFlight && a.maybe == m.maybe
            && p.inFlight[via] == (if alive(via, probe) then m.inFlight[via] else 0)
            && (forall v | v != via :: Polled(m.inFlight[v], p.inFlight[v], v, m.probes, alive))
  {
    var a := m.Refuse(via, probe).0;
    assert m.inFlight + multiset{via} - multiset{via} == m.inFlight;
    PollExactly(a, alive);
    hide Machine.Poll, Failing, Purge;
  }

  /**
   The probe that came with the last announcement on a carrier is the one that counts, until an
   arrival or a poll upon its failure.
   */
  lemma {:induction false} LatestProbeCounts<T, S, V(!new), P>(m: Machine<T, S, V, P>, via: V, probe: P,
                                                               calls: seq<Call<T, S, V, P>>, alive: (V, P) -> bool)
    requires forall i | 0 <= i < |calls| ::
               && !((calls[i].ToBeSent? || calls[i].Received?) && calls[i].via == via)
               && !(calls[i].Poll? && via in calls[i].failing)
    ensures var a := CalledAll(m.ToBeSent(via, probe), calls);
            && via in a.probes && a.probes[via] == probe
            && (a.maybe.Some? ==>
                  a.Poll(Failing(a.probes, alive)).0.inFlight[via] == if alive(via, probe) then a.inFlight[via] else 0)
  {
    if calls != [] {
      var n := |calls| - 1;
      LatestProbeCounts(m, via, probe, calls[..n], alive);
      StaysArmed(CalledAll(m.ToBeSent(via, probe), calls[..n]), via, calls[n]);
    }
    hide Called;
    PollExactly(CalledAll(m.ToBeSent(via, probe), calls), alive);
    hide Machine.Poll;
  }
}
