/**
 Sets of subreceivers with one common endpoint (`src/mux/subchannel_router/receiver_set.rs`), and
 the sets of IPC receivers behind them (`src/mux/subchannel_router/select.rs`).
 */
module ReceiverSet {
  import opened Basics
  import opened Protocol
  import opened SubchannelLifecycle
  import opened Demux
  import opened Wire

  /**
   A set of IPC receivers. A channel creates one with its own receiver `pending`; `registered`
   are those that the set listens to. A set may have been merged into another.
   */
  class MultiReceiverSet {
    var registered: seq<Chan>
    var pending: Option<Chan>
    var mergedInto: Option<MultiReceiverSet>

    constructor (pending: Option<Chan>)
      ensures registered == [] && this.pending == pending && mergedInto == None
    {
      registered := [];
      this.pending := pending;
      mergedInto := None;
    }

    predicate IsEmpty()
      reads this
    {
      registered == [] && pending.None?
    }

    method RegisterPending()
      modifies this`registered, this`pending
      ensures pending == None
      ensures registered == old(registered) + if old(pending).Some? then [old(pending).value] else []
    {
      if pending.Some? {
        registered := registered + [pending.value];
        pending := None;
      }
    }

    method TakePending() returns (receiver: Option<Chan>)
      modifies this`pending
      ensures receiver == old(pending) && pending == None
    {
      receiver := pending;
      pending := None;
    }

    method MergeReceiver(receiver: Chan)
      modifies this`registered
      ensures registered == old(registered) + [receiver]
    {
      registered := registered + [receiver];
    }

    method SetMergedInto(target: MultiReceiverSet)
      modifies this`mergedInto
      ensures mergedInto == Some(target)
    {
      mergedInto := Some(target);
    }
  }

  type StateMachine = SubSenderStateMachine<Tx, Source, SubChannelId, Probe<Endpoint>>

  /**
   A subreceiver: its channel, the set that the channel was created with, and the state machine
   that the channel's demultiplexer has for it.
   */
  datatype SubReceiver = SubReceiver(scid: SubChannelId, chan: Chan, multiReceiverSet: MultiReceiverSet,
                                     machine: StateMachine)

  /** What a set reports: a message, or that a channel is closed, under the id of the subreceiver. */
  datatype SubSelectionResult = MessageReceived(id: nat, item: Item<Endpoint>) | ChannelClosed(id: nat)

  type Ids = map<SubChannelId, nat>

  /** The set each channel was created with. */
  type Origins = map<Chan, MultiReceiverSet>

  ghost predicate Distinct(chans: seq<Chan>) {
    forall i, j | 0 <= i < j < |chans| :: chans[i] != chans[j]
  }

  class SubReceiverSet {
    var nextId: nat
    var rxs: map<nat, SubChannelId>
    var ids: Ids
    var multiReceiverSet: MultiReceiverSet
    const tx: Tx
    var queue: seq<Item<Endpoint>>
    ghost var added: set<Chan>
    ghost var reported: seq<SubSelectionResult>

    constructor (tx: Tx)
      ensures this.tx == tx && Bookkept() && Orderly(queue, ids) && fresh(multiReceiverSet) && added == {}
              && reported == [] && queue == []
      ensures multiReceiverSet.registered == [] && multiReceiverSet.pending == None
      ensures ids == map[] && rxs == map[] && nextId == 0
    {
      this.tx := tx;
      nextId, rxs, ids, queue := 0, map[], map[], [];
      multiReceiverSet := new MultiReceiverSet(None);
      added, reported := {}, [];
    }

    // -------------------------------------------------------------------------------------
    // Merging
    // -------------------------------------------------------------------------------------

    /**
     The receiver of every channel with a subreceiver in this set is registered in the current
     set of IPC receivers, once; no other is. Channels that have not been added still hold
     theirs back.
     */
    ghost predicate Gathered(origin: Origins)
      reads this`added, this`multiReceiverSet, multiReceiverSet, origin.Values
    {
      && (forall a, b | a in origin && b in origin && a != b :: origin[a] != origin[b])
      && Distinct(multiReceiverSet.registered) && multiReceiverSet.pending == None
      && (forall ch :: ch in added <==> ch in multiReceiverSet.registered)
      && added <= origin.Keys && (added == {} ==> multiReceiverSet !in origin.Values)
      && forall ch | ch in origin :: GatheredAt(origin, ch)
    }

    ghost predicate GatheredAt(origin: Origins, ch: Chan)
      requires ch in origin
      reads this`added, this`multiReceiverSet, multiReceiverSet, origin.Values
    {
      var m := origin[ch];
      if ch in added then
        m == multiReceiverSet || (m.pending == None && m.registered == [] && m.mergedInto == Some(multiReceiverSet))
      else
        m != multiReceiverSet && m.pending == Some(ch) && m.registered == [] && m.mergedInto == None
    }

    /**
     Makes this set listen to the channel of a subreceiver. That never fails while this is the
     only set in use; otherwise it fails exactly if another set has taken the channel already.
     */
    method Gather(receiver: SubReceiver, ghost origin: Origins) returns (result: Result<()>)
      requires receiver.chan in origin && origin[receiver.chan] == receiver.multiReceiverSet
      modifies this`multiReceiverSet, this`added, multiReceiverSet, receiver.multiReceiverSet
      ensures old(Gathered(origin)) ==>
                result.Ok? && Gathered(origin) && added == old(added) + {receiver.chan}
      ensures multiReceiverSet in {old(multiReceiverSet), receiver.multiReceiverSet}
      ensures result.Err? <==>
                && old(multiReceiverSet) != receiver.multiReceiverSet && !old(multiReceiverSet.IsEmpty())
                && old(receiver.multiReceiverSet.mergedInto) != Some(old(multiReceiverSet))
                && old(receiver.multiReceiverSet.pending) == None
    {
      var incoming := receiver.multiReceiverSet;
      assert Gathered(origin) ==> GatheredAt(origin, receiver.chan);
      if multiReceiverSet == incoming {
        assert Gathered(origin) ==> receiver.chan in added;
      } else if multiReceiverSet.IsEmpty() {
        assert Gathered(origin) ==> added == {};
        multiReceiverSet := incoming;
        multiReceiverSet.RegisterPending();
        added := {receiver.chan};
      } else {
        var alreadyMerged := incoming.mergedInto == Some(multiReceiverSet);
        if !alreadyMerged {
          var pending := incoming.TakePending();
          if pending.None? {
            return Err(InternalError);
          }
          multiReceiverSet.MergeReceiver(pending.value);
          incoming.SetMergedInto(multiReceiverSet);
          added := added + {receiver.chan};
        }
      }
      result := Ok(());
    }

    // -------------------------------------------------------------------------------------
    // Identifiers
    // -------------------------------------------------------------------------------------

    /** `ids` and `rxs` are inverse, and an id that was reported closed is not in use again. */
    ghost predicate Bookkept()
      reads this
    {
      && (forall c | c in ids :: ids[c] in rxs && rxs[ids[c]] == c)
      && (forall id | id in rxs :: id < nextId && rxs[id] in ids && ids[rxs[id]] == id)
      && (forall i | 0 <= i < |reported| :: reported[i].id < nextId)
      && (forall i | 0 <= i < |reported| && reported[i].ChannelClosed? :: reported[i].id !in rxs)
      && ClosedOnce(reported)
    }

    /** The subreceiver gets the next id. */
    method Enlist(c: SubChannelId) returns (id: nat)
      requires Bookkept() && c !in ids && Orderly(queue, ids)
      modifies this`nextId, this`ids, this`rxs
      ensures Bookkept() && Orderly(queue, ids)
      ensures id == old(nextId) && nextId == id + 1 && id !in old(rxs)
      ensures ids == old(ids)[c := id] && rxs == old(rxs)[id := c]
    {
      id := nextId;
      nextId := nextId + 1;
      ids := ids[c := id];
      rxs := rxs[id := c];
      OrderlyWider(queue, old(ids), ids);
    }

    /** Another set is in use here, and the receiver of the channel has been taken by a third one. */
    ghost predicate Refuses(receiver: SubReceiver)
      reads this`multiReceiverSet, multiReceiverSet, receiver.multiReceiverSet
    {
      && multiReceiverSet != receiver.multiReceiverSet && !multiReceiverSet.IsEmpty()
      && receiver.multiReceiverSet.mergedInto != Some(multiReceiverSet)
      && receiver.multiReceiverSet.pending == None
    }

    /**
     Adds a subreceiver, unless its channel belongs to another set for good. From now on its
     machine sends to the queue of this set.
     */
    method AddOpaque(receiver: SubReceiver, ghost origin: Origins) returns (id: Result<nat>)
      requires Bookkept() && receiver.scid !in ids && Orderly(queue, ids)
      requires receiver.chan in origin && origin[receiver.chan] == receiver.multiReceiverSet
      modifies this`nextId, this`ids, this`rxs, this`multiReceiverSet, this`added
      modifies multiReceiverSet, receiver.multiReceiverSet, receiver.machine
      ensures Bookkept() && Orderly(queue, ids)
      ensures multiReceiverSet in {old(multiReceiverSet), receiver.multiReceiverSet}
      ensures old(Gathered(origin)) ==> id.Ok? && Gathered(origin) && added == old(added) + {receiver.chan}
      ensures id.Err? <==> old(Refuses(receiver))
      ensures if id.Ok? then
                && id.value == old(nextId) && id.value !in old(rxs) && nextId == id.value + 1
                && ids == old(ids)[receiver.scid := id.value] && rxs == old(rxs)[id.value := receiver.scid]
              else nextId == old(nextId) && ids == old(ids) && rxs == old(rxs)
      ensures receiver.machine.State()
              == if id.Ok? then old(receiver.machine.State()).SwitchSender(tx) else old(receiver.machine.State())
    {
      var gathered := Gather(receiver, origin);
      if gathered.Err? {
        return Err(gathered.error);
      }
      receiver.machine.SwitchSender(tx);
      var next := Enlist(receiver.scid);
      id := Ok(next);
    }

    /** The demultiplexer of a subchannel in the set passes an item on. */
    method Deposit(item: Item<Endpoint>)
      requires Bookkept() && Orderly(queue + [item], ids)
      modifies this`queue
      ensures Bookkept() && queue == old(queue) + [item] && Orderly(queue, ids)
    {
      queue := queue + [item];
    }

    /** Reports the first item of the queue, if its subchannel has an id. */
    method ReportFirst() returns (result: Option<SubSelectionResult>)
      requires Bookkept() && queue != []
      modifies this`rxs, this`ids, this`queue, this`reported
      ensures queue == old(queue)[1..]
      ensures var item := old(queue)[0];
              if item.scid !in old(ids) then result == None && ids == old(ids) && reported == old(reported)
              else
                && result == Some(ReportOf(item, old(ids)[item.scid])) && reported == old(reported) + [result.value]
                && ids == if item.Marker? then old(ids) - {item.scid} else old(ids)
      ensures Bookkept()
    {
      var item := queue[0];
      queue := queue[1..];
      if item.scid !in ids {
        return None;
      }
      var id := ids[item.scid];
      if item.Marker? {
        ids := ids - {item.scid};
        rxs := rxs - {id};
        result := Some(ChannelClosed(id));
      } else {
        result := Some(MessageReceived(id, item));
      }
      reported := reported + [result.value];
    }

    /** The underlying set is asked as long as there is nothing in the queue, one round after the other. */
    method Await(rounds: seq<Round>) returns (failed: bool)
      modifies this`queue
      ensures (queue, failed) == Awaited(old(queue), rounds)
    {
      var k := 0;
      while queue == [] && k < |rounds|
        invariant 0 <= k <= |rounds|
        invariant Awaited(queue, rounds[k..]) == Awaited(old(queue), rounds)
      {
        queue := rounds[k].items;
        if rounds[k].failed {
          return true;
        }
        k := k + 1;
      }
      failed := false;
    }

    /**
     Reports everything in the queue; if there is nothing, the underlying set is asked for more:
     `rounds` are what it has to say. Fails exactly if the underlying set does before there is
     something, or if an item belongs to a subchannel that has no id, or no longer has one. In the
     first case what has been queued stays for the next call.
     */
    method Select(rounds: seq<Round>) returns (results: Result<seq<SubSelectionResult>>)
      requires Bookkept()
      modifies this`rxs, this`ids, this`queue, this`reported
      ensures Bookkept()
      ensures var (items, failed) := Awaited(old(queue), rounds);
              && (results.Err? <==> failed || !Identified(items, old(ids)))
              && (failed ==>
                    queue == items && ids == old(ids) && rxs == old(rxs) && reported == old(reported))
              && (results.Ok? ==>
                    && results.value == Reports(items, old(ids)) && ids == Remaining(items, old(ids)) && queue == []
                    && reported == old(reported) + results.value)
    {
      var some: seq<SubSelectionResult> := [];
      var failed := Await(rounds);
      assert Bookkept();
      hide Bookkept;
      if failed {
        return Err(InternalError);
      }
      ghost var items := queue;
      while queue != []
        invariant Bookkept() && reported == old(reported) + some
        invariant Identified(items, old(ids)) <==> Identified(queue, ids)
        invariant Identified(queue, ids) ==>
                    && Reports(items, old(ids)) == some + Reports(queue, ids)
                    && Remaining(items, old(ids)) == Remaining(queue, ids)
        decreases |queue|
      {
        var result := ReportFirst();
        if result.None? {
          return Err(InternalError);
        }
        some := some + [result.value];
      }
      results := Ok(some);
    }
  }

  /** What the underlying set does in one call: it has items queued, and may fail after that. */
  datatype Round = Round(items: seq<Item<Endpoint>>, failed: bool)

  /** The queue once there is something in it, or the underlying set has failed or has no more to say. */
  function Awaited(queue: seq<Item<Endpoint>>, rounds: seq<Round>): (seq<Item<Endpoint>>, bool)
    decreases |rounds|
  {
    if queue != [] || rounds == [] then (queue, false)
    else if rounds[0].failed then (rounds[0].items, true)
    else Awaited(rounds[0].items, rounds[1..])
  }

  /** No more is reported of an id after it has been closed. */
  ghost predicate ClosedOnce(reported: seq<SubSelectionResult>) {
    forall i, j | 0 <= i < j < |reported| && reported[i].ChannelClosed? :: reported[j].id != reported[i].id
  }

  /** Items belong to subchannels with an id; a marker is the last item of its subchannel. */
  ghost predicate Orderly(items: seq<Item<Endpoint>>, ids: Ids) {
    && (forall i | 0 <= i < |items| :: items[i].scid in ids)
    && (forall i, j | 0 <= i < j < |items| && items[i].Marker? :: items[j].scid != items[i].scid)
  }

  function Remaining(items: seq<Item<Endpoint>>, ids: Ids): Ids {
    if items == [] then ids
    else Remaining(items[1..], if items[0].Marker? then ids - {items[0].scid} else ids)
  }

  /** Each item finds an id. */
  predicate Identified(items: seq<Item<Endpoint>>, ids: Ids) {
    items == []
    || (items[0].scid in ids
        && Identified(items[1..], if items[0].Marker? then ids - {items[0].scid} else ids))
  }

  function ReportOf(item: Item<Endpoint>, id: nat): SubSelectionResult {
    if item.Marker? then ChannelClosed(id) else MessageReceived(id, item)
  }

  function Reports(items: seq<Item<Endpoint>>, ids: Ids): seq<SubSelectionResult>
    requires Identified(items, ids)
  {
    if items == [] then []
    else
      [ReportOf(items[0], ids[items[0].scid])]
      + Reports(items[1..], if items[0].Marker? then ids - {items[0].scid} else ids)
  }

  lemma OrderlyWider(items: seq<Item<Endpoint>>, ids: Ids, ids': Ids)
    requires Orderly(items, ids) && ids.Keys <= ids'.Keys
    ensures Orderly(items, ids')
  {
  }

  /** So `select` never misses an id while subreceivers are added before their machines close. */
  lemma {:induction false} OrderlyIsIdentified(items: seq<Item<Endpoint>>, ids: Ids)
    requires Orderly(items, ids)
    ensures Identified(items, ids)
  {
    if items != [] {
      var rest := items[1..];
      assert forall i | 0 <= i < |rest| :: rest[i] == items[i + 1];
      OrderlyIsIdentified(rest, if items[0].Marker? then ids - {items[0].scid} else ids);
    }
  }
}
