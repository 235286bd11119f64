/**
 The state machine that decides when a subchannel has lost all its senders
 (`src/mux/subchannel_lifecycle.rs`): a value with one function per event, and the class that
 updates its fields in place and is proved against those functions.
 */
module SubchannelLifecycle {
  import opened Basics

  /**
   `maybe` holds the sender of the local queue until it is handed out, `sources` the places
   known to hold copies, `inFlight` one entry per copy being carried, keyed by its carrier,
   and `probes` the liveness check registered for a carrier.
   */
  datatype Machine<T, S(==), V(==), P> = Machine(
    maybe: Option<T>,
    sources: set<S>,
    inFlight: multiset<V>,
    probes: map<V, P>)
  {
    ghost predicate Empty() {
      sources == {} && inFlight == multiset{}
    }

    function ToBeSent(via: V, probe: P): Machine<T, S, V, P> {
      this.(inFlight := inFlight + multiset{via}, probes := probes[via := probe])
    }

    function Received(via: V, source: S): Machine<T, S, V, P> {
      this.(inFlight := inFlight - multiset{via}, sources := sources + {source}, probes := probes - {via})
    }

    function Disconnect(source: S): (Machine<T, S, V, P>, Option<T>) {
      this.(sources := sources - {source}).HandOut()
    }

    function ReceiveFailed(via: V): (Machine<T, S, V, P>, Option<T>) {
      this.(inFlight := inFlight - multiset{via}).HandOut()
    }

    /** What the demultiplexer does to a machine when the carrier of a copy cannot be reached. */
    function Refuse(via: V, probe: P): (Machine<T, S, V, P>, Option<T>) {
      ToBeSent(via, probe).ReceiveFailed(via)
    }

    /** The sender leaves a machine that has neither a source nor anything in flight. */
    function HandOut(): (Machine<T, S, V, P>, Option<T>) {
      if sources == {} && inFlight == multiset{} then (this.(maybe := None), maybe) else (this, None)
    }

    /**
     `failing` are the carriers whose probe answered false. Every copy on such a carrier is
     given up together with the probe; a failing probe with nothing in flight stays.
     The flag is false exactly when this call hands the sender out.
     */
    ghost function Poll(failing: set<V>): (Machine<T, S, V, P>, bool, Option<T>) {
      if maybe.None? then
        (this, true, None)
      else
        var (m, handed) :=
          this.(inFlight := Purge(inFlight, failing),
                probes := probes - (set v | v in failing && v in inFlight)).HandOut();
        (m, handed.None?, handed)
    }

    function SwitchSender(t: T): Machine<T, S, V, P> {
      this.(maybe := Some(t))
    }
  }

  /** A new machine knows the initial source and nothing else. */
  function Initial<T, S, V, P>(t: T, source: S): Machine<T, S, V, P> {
    Machine(Some(t), {source}, multiset{}, map[])
  }

  class SubSenderStateMachine<T, S(==), V(==), P> {
    var maybe: Option<T>
    var sources: set<S>
    var inFlight: multiset<V>
    var probes: map<V, P>

    ghost function State(): Machine<T, S, V, P>
      reads this
    {
      Machine(maybe, sources, inFlight, probes)
    }

    constructor (t: T, initialSource: S)
      ensures State() == Initial(t, initialSource)
    {
      maybe := Some(t);
      sources := {initialSource};
      inFlight := multiset{};
      probes := map[];
    }

    /** The sender to which a message goes, if the machine still has one. */
    method Send() returns (t: Option<T>)
      ensures t == State().maybe
    {
      t := maybe;
    }

    method ToBeSent(via: V, probe: P)
      modifies this
      ensures State() == old(State()).ToBeSent(via, probe)
    {
      inFlight := inFlight + multiset{via};
      probes := probes[via := probe];
    }

    method Received(via: V, receivedAtSource: S)
      modifies this
      ensures State() == old(State()).Received(via, receivedAtSource)
    {
      inFlight := inFlight - multiset{via};
      sources := sources + {receivedAtSource};
      probes := probes - {via};
    }

    method Disconnect(source: S) returns (handed: Option<T>)
      modifies this
      ensures (State(), handed) == old(State()).Disconnect(source)
    {
      sources := sources - {source};
      handed := Take();
    }

    method ReceiveFailed(via: V) returns (handed: Option<T>)
      modifies this
      ensures (State(), handed) == old(State()).ReceiveFailed(via)
    {
      inFlight := inFlight - multiset{via};
      handed := Take();
    }

    method Take() returns (handed: Option<T>)
      modifies this
      ensures (State(), handed) == old(State()).HandOut()
    {
      if sources == {} && inFlight == multiset{} {
        handed := maybe;
        maybe := None;
      } else {
        handed := None;
      }
    }

    /**
     `alive(v, p)` is what the probe `p` registered for `v` answers during this call. `ran`
     records the carriers whose probe was run.
     */
    method Poll(alive: (V, P) -> bool) returns (open: bool, handed: Option<T>, ghost ran: set<V>)
      modifies this
      ensures (State(), open, handed) == old(State()).Poll(Failing(old(probes), alive))
      ensures ran == if old(maybe).None? then {} else old(probes).Keys
    {
      ran := {};
      if maybe.None? {
        return true, None, {};
      }
      var disconnected := Disconnected(alive);
      ran := probes.Keys;
      var disconnectedInFlight := InFlightOn(disconnected);
      RemoveCarriers(disconnectedInFlight);
      assert inFlight == Purge(old(inFlight), disconnected);
      if sources == {} && inFlight == multiset{} {
        open, handed := false, maybe;
        maybe := None;
      } else {
        open, handed := true, None;
      }
    }

    /** The given carriers that have something in flight. */
    method InFlightOn(vias: set<V>) returns (busy: set<V>)
      ensures busy == set v | v in vias && v in inFlight
    {
      busy := {};
      var bag := inFlight;
      while bag != multiset{}
        invariant bag <= inFlight
        invariant forall v | v in bag :: bag[v] == inFlight[v]
        invariant busy == set v | v in vias && v in inFlight && v !in bag
        decreases |bag|
      {
        var via :| via in bag;
        if via in vias {
          busy := busy + {via};
        }
        bag := bag[via := 0];
      }
    }

    /** Removes every entry of each carrier, and its probe. */
    method RemoveCarriers(vias: set<V>)
      modifies `inFlight, `probes
      ensures inFlight == Purge(old(inFlight), vias)
      ensures probes == old(probes) - vias
    {
      var todo := vias;
      while todo != {}
        invariant todo <= vias
        invariant inFlight <= old(inFlight)
        invariant forall v | v in old(inFlight) ::
                    inFlight[v] == if v in vias && v !in todo then 0 else old(inFlight)[v]
        invariant probes == old(probes) - (vias - todo)
        decreases |todo|
      {
        var via :| via in todo;
        inFlight := inFlight[via := 0];
        probes := probes - {via};
        todo := todo - {via};
      }
      PurgeIs(old(inFlight), vias, inFlight);
    }

    /** Runs every probe once and collects the carriers whose probe answers false. */
    method Disconnected(alive: (V, P) -> bool) returns (failing: set<V>)
      ensures failing == Failing(probes, alive)
    {
      failing := {};
      var keys := probes.Keys;
      while keys != {}
        invariant keys <= probes.Keys
        invariant failing == Failing(probes - keys, alive)
        decreases |keys|
      {
        var via :| via in keys;
        if !alive(via, probes[via]) {
          failing := failing + {via};
        }
        assert probes - (keys - {via}) == (probes - keys)[via := probes[via]];
        keys := keys - {via};
      }
      assert probes - keys == probes;
    }

    method SwitchSender(t: T)
      modifies this
      ensures State() == old(State()).SwitchSender(t)
    {
      maybe := Some(t);
    }
  }

  /** The bag without any entry of the given carriers. */
  ghost function Purge<V>(bag: multiset<V>, vias: set<V>): (r: multiset<V>)
    ensures r <= bag
    ensures forall v | v in bag :: r[v] == if v in vias then 0 else bag[v]
    decreases vias
  {
    if vias == {} then bag
    else
      var via :| via in vias;
      Purge(bag[via := 0], vias - {via})
  }

  lemma PurgeIs<V>(bag: multiset<V>, vias: set<V>, r: multiset<V>)
    requires r <= bag && forall v | v in bag :: r[v] == if v in vias then 0 else bag[v]
    ensures r == Purge(bag, vias)
  {
  }

  /** The carriers whose registered probe answers false. */
  ghost function Failing<V, P>(probes: map<V, P>, alive: (V, P) -> bool): set<V> {
    set v | v in probes && !alive(v, probes[v])
  }

  /**
   What a poll does, carrier by carrier: every copy on a carrier whose registered probe fails is
   given up, with the probe; all else stays. The sender is handed out exactly if nothing is left
   then, and a machine without one is left alone.
   */
  lemma PollExactly<T, S, V(!new), P>(m: Machine<T, S, V, P>, alive: (V, P) -> bool)
    ensures var (m', open, handed) := m.Poll(Failing(m.probes, alive));
            && (forall v :: m'.inFlight[v] ==
                  if m.maybe.Some? && v in m.probes && !alive(v, m.probes[v]) then 0 else m.inFlight[v])
            && (forall v :: v in m'.probes <==>
                  v in m.probes && (m.maybe.None? || alive(v, m.probes[v]) || v !in m.inFlight))
            && (forall v | v in m'.probes :: m'.probes[v] == m.probes[v])
            && m'.sources == m.sources
            && (handed.Some? <==> m.maybe.Some? && m'.Empty())
            && (handed.Some? ==> handed == m.maybe && m'.maybe == None) && (handed.None? ==> m'.maybe == m.maybe)
            && (open <==> handed.None?)
  {
  }
}
