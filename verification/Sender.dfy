/**
 The sending end of an IPC channel: what it learns from its response channel, and how a `send`
 embeds other subsenders (`src/mux/sender/mod.rs`).
 */
module Sender {
  import opened Basics
  import opened Protocol
  import opened Wire
  import SenderId
  import Dedup

  // ---------------------------------------------------------------------------------------
  // The response channel
  // ---------------------------------------------------------------------------------------

  /** What one attempt to receive from the response channel yields. */
  datatype Reply = SubReceiverDisconnected(scid: SubChannelId) | NoReply | IpcFailure

  /** What has happened to a sender: a proxy was registered for a subchannel, or a reply received. */
  datatype Happening = Registered(scid: SubChannelId) | Heard(reply: Reply)

  /**
   Whether the history has the subreceiver of `c` gone: its notification was received after its
   proxy was registered, for the last time.
   */
  function KnownGone(history: seq<Happening>, c: SubChannelId): Option<bool> {
    if history == [] then None
    else
      var before, last := KnownGone(history[..|history| - 1], c), history[|history| - 1];
      if last == Registered(c) then Some(false)
      else if last == Heard(SubReceiverDisconnected(c)) && before.Some? then Some(true)
      else before
  }

  function Proxy(proxies: map<SubChannelId, bool>, c: SubChannelId): Option<bool> {
    if c in proxies then Some(proxies[c]) else None
  }

  /**
   `replies` are what further attempts to receive will yield; when they are used up there is
   nothing to receive. `proxies` says of each registered subreceiver whether it is gone.
   */
  class MultiSender {
    var replies: seq<Reply>
    var disconnected: bool
    var proxies: map<SubChannelId, bool>
    ghost var history: seq<Happening>

    /** The proxies are right, and the sender is disconnected once a failure was received. */
    ghost predicate Valid()
      reads this
    {
      && (forall c :: Proxy(proxies, c) == KnownGone(history, c))
      && (disconnected <==> Heard(IpcFailure) in history)
    }

    constructor (replies: seq<Reply>)
      ensures Valid() && !disconnected && proxies == map[] && history == [] && this.replies == replies
    {
      this.replies := replies;
      disconnected := false;
      proxies := map[];
      history := [];
    }

    method InsertSubReceiverProxy(c: SubChannelId)
      requires Valid()
      modifies this
      ensures Valid() && history == old(history) + [Registered(c)]
      ensures replies == old(replies) && disconnected == old(disconnected)
      ensures proxies == old(proxies)[c := false]
    {
      proxies := proxies[c := false];
      history := history + [Registered(c)];
      assert history[..|history| - 1] == old(history);
      assert Heard(IpcFailure) in history <==> Heard(IpcFailure) in old(history);
    }

    /** The other end sends something. */
    method Reach(more: seq<Reply>)
      modifies this`replies
      ensures replies == old(replies) + more
    {
      replies := replies + more;
    }

    /** The next reply. What comes from the channel is put on record. */
    method TryRecv() returns (reply: Reply)
      modifies this`replies, this`history
      ensures old(replies) == [] ==> reply == NoReply && replies == [] && history == old(history)
      ensures old(replies) != [] ==>
                && reply == old(replies)[0] && replies == old(replies)[1..]
                && history == old(history) + [Heard(reply)]
    {
      if replies == [] {
        return NoReply;
      }
      reply := replies[0];
      replies := replies[1..];
      history := history + [Heard(reply)];
    }

    /**
     Receives until there is nothing more, or the channel fails. A failure is final: it is
     remembered, and the channel is not asked again.
     */
    method DrainResponses() returns (alive: bool)
      requires Valid()
      modifies this
      ensures Valid() && alive == !disconnected && proxies.Keys == old(proxies.Keys)
      ensures var n := if old(disconnected) then 0 else Consumed(old(replies));
              && replies == old(replies)[n..] && history == old(history) + HeardAll(old(replies)[..n])
              && (disconnected <==> old(disconnected) || (n > 0 && old(replies)[n - 1].IpcFailure?))
    {
      assert HeardAll(old(replies)[..0]) == [] && old(history) + [] == old(history);
      if disconnected {
        return false;
      }
      ghost var n := 0;
      while true
        invariant Valid() && !disconnected && proxies.Keys == old(proxies.Keys)
        invariant n <= |old(replies)| && replies == old(replies)[n..]
        invariant Consumed(old(replies)) == n + Consumed(replies)
        invariant n > 0 ==> !old(replies)[n - 1].IpcFailure?
        invariant history == old(history) + HeardAll(old(replies)[..n])
        decreases |replies|
      {
        ghost var before, rest := history, replies;
        var reply := TryRecv();
        if rest != [] {
          assert old(replies)[..n + 1] == old(replies)[..n] + [reply];
          HeardAllAppend(old(replies)[..n], reply);
          n := n + 1;
        }
        ReplyTakesEffect(proxies, before, reply);
        match reply
        case SubReceiverDisconnected(c) =>
          if c in proxies {
            proxies := proxies[c := true];
          }
        case NoReply => return true;
        case IpcFailure =>
          disconnected := true;
          return false;
      }
    }

    /** The probe that state machines use: is the other end alive? */
    method Probe() returns (alive: bool)
      requires Valid()
      modifies this
      ensures Valid() && alive == !disconnected && OnlyHears(old(history), history)
      ensures old(disconnected) ==> disconnected
    {
      alive := DrainResponses();
    }

    /** Whether messages for `c` have somewhere to go. Without a proxy nobody knows better. */
    method IsReceiverConnected(c: SubChannelId) returns (connected: bool)
      requires Valid()
      modifies this
      ensures Valid() && OnlyHears(old(history), history) && (old(disconnected) ==> disconnected)
      ensures !old(disconnected) ==> history == old(history) + HeardAll(old(replies)[..Consumed(old(replies))])
      ensures connected <==> KnownGone(history, c) != Some(true)
    {
      var _ := DrainResponses();
      if c in proxies {
        connected := !proxies[c];
      } else {
        connected := true;
      }
      assert Proxy(proxies, c) == KnownGone(history, c);
    }
  }

  /** A notification concerns one proxy, and no other reply concerns any. */
  lemma ReplyTakesEffect(proxies: map<SubChannelId, bool>, history: seq<Happening>, reply: Reply)
    requires forall c :: Proxy(proxies, c) == KnownGone(history, c)
    ensures var gone := match reply
                        case SubReceiverDisconnected(c) => if c in proxies then proxies[c := true] else proxies
                        case _ => proxies;
            forall c :: Proxy(gone, c) == KnownGone(history + [Heard(reply)], c)
  {
  }

  function HeardAll(replies: seq<Reply>): seq<Happening> {
    seq(|replies|, i requires 0 <= i < |replies| => Heard(replies[i]))
  }

  lemma HeardAllAppend(replies: seq<Reply>, reply: Reply)
    ensures HeardAll(replies + [reply]) == HeardAll(replies) + [Heard(reply)]
  {
  }

  /** How many replies are received in one go: notifications, and then whatever stops it. */
  function Consumed(replies: seq<Reply>): (n: nat)
    ensures n <= |replies|
  {
    if replies == [] then 0 else if replies[0].SubReceiverDisconnected? then 1 + Consumed(replies[1..]) else 1
  }

  /** Nothing but replies was added to the record. */
  predicate OnlyHears(before: seq<Happening>, after: seq<Happening>) {
    before <= after && forall i | |before| <= i < |after| :: after[i].Heard?
  }

  /** Only a registration makes a subreceiver count as present again. */
  lemma {:induction false} GoneStaysGone(before: seq<Happening>, after: seq<Happening>, c: SubChannelId)
    requires before <= after && KnownGone(before, c) == Some(true)
    requires forall i | |before| <= i < |after| :: after[i] != Registered(c)
    ensures KnownGone(after, c) == Some(true)
    decreases |after|
  {
    if |after| == |before| {
      assert after == before;
    } else {
      GoneStaysGone(before, after[..|after| - 1], c);
    }
  }

  /** A notification takes effect if the subreceiver is registered, and on no other subreceiver. */
  lemma NotificationTakesEffect(history: seq<Happening>, c: SubChannelId, d: SubChannelId)
    ensures KnownGone(history + [Heard(SubReceiverDisconnected(c))], d)
            == if d == c && KnownGone(history, c).Some? then Some(true) else KnownGone(history, d)
  {
  }

  // ---------------------------------------------------------------------------------------
  // Calls in any order
  // ---------------------------------------------------------------------------------------

  datatype Call = Register(scid: SubChannelId) | Probing | Checking(scid: SubChannelId)

  /**
   Any calls, one after another, as several state machines and senders make them. Once a probe
   has failed all later ones fail, even if the channel would report its failure only once. A
   subreceiver found gone stays gone until it is registered again.
   */
  method CallAll(sender: MultiSender, calls: seq<Call>) returns (answers: seq<bool>)
    requires sender.Valid()
    modifies sender
    ensures sender.Valid() && |answers| == |calls| && old(sender.history) <= sender.history
    ensures old(sender.disconnected) ==> forall i | 0 <= i < |calls| && calls[i].Probing? :: !answers[i]
    ensures forall i, j | 0 <= i < j < |calls| && calls[i].Probing? && calls[j].Probing? && !answers[i] :: !answers[j]
    ensures forall i, j | 0 <= i < j < |calls| && calls[i].Checking? && calls[j] == calls[i] && !answers[i]
                          && Register(calls[i].scid) !in calls[i..j] :: !answers[j]
  {
    answers := [];
    var k := 0;
    while k < |calls|
      invariant 0 <= k <= |calls| && |answers| == k && sender.Valid() && old(sender.history) <= sender.history
      invariant old(sender.disconnected) ==> sender.disconnected
      invariant forall i | 0 <= i < k && calls[i].Probing? && !answers[i] :: sender.disconnected
      invariant forall i, j | 0 <= i < j < k && calls[i].Probing? && calls[j].Probing? && !answers[i] :: !answers[j]
      invariant old(sender.disconnected) ==> forall i | 0 <= i < k && calls[i].Probing? :: !answers[i]
      invariant forall i | 0 <= i < k :: Remembers(calls, answers[i], i, k, sender.history)
      invariant forall i, j | 0 <= i < j < k && calls[i].Checking? && calls[j] == calls[i] && !answers[i]
                              && Register(calls[i].scid) !in calls[i..j] :: !answers[j]
    {
      ghost var before := sender.history;
      var answer := true;
      match calls[k] {
        case Register(c) => sender.InsertSubReceiverProxy(c);
        case Probing => answer := sender.Probe();
        case Checking(c) => answer := sender.IsReceiverConnected(c);
      }
      forall i | 0 <= i < k ensures Remembers(calls, answers[i], i, k + 1, sender.history) {
        RemembersNext(calls, answers[i], i, k, before, sender.history);
      }
      answers := answers + [answer];
      k := k + 1;
    }
  }

  /** A subreceiver that the `i`-th call found gone is still gone, if it was not registered since. */
  predicate Remembers(calls: seq<Call>, answer: bool, i: nat, k: nat, history: seq<Happening>)
    requires i < k <= |calls|
  {
    calls[i].Checking? && !answer && Register(calls[i].scid) !in calls[i..k] ==>
      KnownGone(history, calls[i].scid) == Some(true)
  }

  lemma RemembersNext(calls: seq<Call>, answer: bool, i: nat, k: nat, before: seq<Happening>, after: seq<Happening>)
    requires i < k < |calls| && Remembers(calls, answer, i, k, before)
    requires if calls[k].Register? then after == before + [Registered(calls[k].scid)] else OnlyHears(before, after)
    ensures Remembers(calls, answer, i, k + 1, after)
  {
    if calls[i].Checking? && !answer && Register(calls[i].scid) !in calls[i..k + 1] {
      assert calls[i..k + 1] == calls[i..k] + [calls[k]];
      assert calls[k] in calls[i..k + 1];
      GoneStaysGone(before, after, calls[i].scid);
    }
  }

  function Notices(gone: seq<SubChannelId>): seq<Reply> {
    seq(|gone|, i requires 0 <= i < |gone| => SubReceiverDisconnected(gone[i]))
  }

  /**
   Notices of dropped subreceivers are all received in one go, and the registered proxies of just
   those subreceivers are then disconnected.
   */
  lemma {:induction false} NoticesReachProxies(history: seq<Happening>, gone: seq<SubChannelId>, c: SubChannelId)
    requires KnownGone(history, c).Some?
    ensures Consumed(Notices(gone)) == |gone|
    ensures KnownGone(history + HeardAll(Notices(gone)), c) == Some(KnownGone(history, c).value || c in gone)
    decreases |gone|
  {
    if gone == [] {
      assert history + HeardAll(Notices(gone)) == history;
    } else {
      var n := |gone| - 1;
      NoticesReachProxies(history, gone[..n], c);
      assert history + HeardAll(Notices(gone))
          == (history + HeardAll(Notices(gone[..n]))) + [Heard(SubReceiverDisconnected(gone[n]))];
      NotificationTakesEffect(history + HeardAll(Notices(gone[..n])), gone[n], c);
      assert gone == gone[..n] + [gone[n]];
      ConsumedAll(gone);
    }
  }

  lemma {:induction false} ConsumedAll(gone: seq<SubChannelId>)
    ensures Consumed(Notices(gone)) == |gone|
  {
    if gone != [] {
      ConsumedAll(gone[1..]);
      assert Notices(gone)[1..] == Notices(gone[1..]);
    }
  }

  // ---------------------------------------------------------------------------------------
  // Sending
  // ---------------------------------------------------------------------------------------

  /** A subsender as `send` sees it: its connection, and the source that its clones share. */
  datatype Context<K> = Context(scid: SubChannelId, ep: Endpoint, source: K)

  /** What the sources have sent, the announcements made, and the references collected. */
  datatype Inclusion<K(==)> = Inclusion(tables: map<K, set<Endpoint>>, mail: seq<Mail>, refs: Packet, ok: bool)

  /** One subsender: announced on the way of its subchannel, then added to the message of `me`. */
  function IncludeNext<K>(closed: set<Chan>, me: Context<K>, done: Inclusion<K>, ctx: Context<K>): Inclusion<K>
    requires me.source in done.tables && ctx.source in done.tables
  {
    if !done.ok then done
    else
      var announcement := Sending(ctx.scid, me.scid, RefFor(done.tables[ctx.source], me.ep));
      var tables := done.tables[ctx.source := done.tables[ctx.source] + {me.ep}];
      if ctx.ep.chan in closed then Inclusion(tables, done.mail, done.refs, false)
      else
        Inclusion(tables[me.source := tables[me.source] + {ctx.ep}],
                  done.mail + [Mail(ctx.ep.chan, announcement)],
                  done.refs + [Embed(ctx.scid, RefFor(tables[me.source], ctx.ep))],
                  true)
  }

  function IncludeAll<K>(closed: set<Chan>, me: Context<K>, tables: map<K, set<Endpoint>>, ctxs: seq<Context<K>>)
    : (r: Inclusion<K>)
    requires me.source in tables && forall i | 0 <= i < |ctxs| :: ctxs[i].source in tables
    ensures r.tables.Keys == tables.Keys
  {
    if ctxs == [] then Inclusion(tables, [], [], true)
    else
      var n := |ctxs| - 1;
      IncludeNext(closed, me, IncludeAll(closed, me, tables, ctxs[..n]), ctxs[n])
  }

  /**
   Every embedded subsender is announced, in order and under the carrier's identifier, and its
   reference in the message carries its own.
   */
  lemma {:induction false} EveryCopyIsAnnounced<K>(closed: set<Chan>, me: Context<K>, tables: map<K, set<Endpoint>>,
                                                   ctxs: seq<Context<K>>)
    requires me.source in tables && forall i | 0 <= i < |ctxs| :: ctxs[i].source in tables
    requires IncludeAll(closed, me, tables, ctxs).ok
    ensures var r := IncludeAll(closed, me, tables, ctxs);
            && |r.mail| == |r.refs| == |ctxs|
            && forall i | 0 <= i < |ctxs| ::
                 && r.mail[i].to == ctxs[i].ep.chan && r.mail[i].msg.Sending?
                 && r.mail[i].msg.scid == ctxs[i].scid && r.mail[i].msg.via == me.scid
                 && r.mail[i].msg.viaChan.uuid == me.ep.uuid
                 && r.refs[i].scid == ctxs[i].scid && r.refs[i].sender.uuid == ctxs[i].ep.uuid
  {
    if ctxs != [] {
      EveryCopyIsAnnounced(closed, me, tables, ctxs[..|ctxs| - 1]);
    }
  }

  /** What the sources of a net have sent. */
  function SentBy(n: Dedup.Net): map<Dedup.SourceId, set<Endpoint>> {
    map s | s in n.tables :: n.tables[s].sent
  }

  /** Including a subsender is the step of module `Dedup`. */
  lemma IncludeIsDedup(n: Dedup.Net, s: Dedup.SourceId, via: SubChannelId, x: Dedup.SourceId, c: SubChannelId)
    requires n.CanEmbed(s, via, x, c)
    ensures var told := n.Tell(s, via, x, c);
            var r := IncludeNext({}, Context(via, n.tables[s].self, s), Inclusion(SentBy(n), [], n.drafts[s], true),
                                 Context(c, n.tables[x].self, x));
            && s in told.tables && s in told.drafts && x in told.tables
            && r.tables == SentBy(told.Collect(s, x, c)) && r.refs == told.Collect(s, x, c).drafts[s]
            && |r.mail| == 1 && r.mail[0].to == n.home[c] && r.mail[0].msg.Sending? && r.mail[0].msg.scid == c
            && told.queue == n.queue[n.home[c] := n.queue[n.home[c]] + [PacketOf(r.mail[0].msg)]]
  {
  }

  /** The sources and the mail after a `send`, and whether it succeeded. */
  datatype SendResult<K(==)> = SendResult(tables: map<K, set<Endpoint>>, mail: seq<Mail>, ok: bool)

  /** A `send`: nothing happens if the receiver is gone; the data message follows all announcements. */
  function Transmission<K>(gone: bool, closed: set<Chan>, me: Context<K>, before: SendResult<K>, payload: Payload,
                           ctxs: seq<Context<K>>): SendResult<K>
    requires me.source in before.tables && forall i | 0 <= i < |ctxs| :: ctxs[i].source in before.tables
  {
    if gone then before.(ok := false)
    else
      var r := IncludeAll(closed, me, before.tables, ctxs);
      var delivered := r.ok && me.ep.chan !in closed;
      SendResult(r.tables,
                 before.mail + r.mail + if delivered then [Mail(me.ep.chan, Data(me.scid, payload, r.refs))] else [],
                 delivered)
  }

  /** The announcement of a subsender that is about to be sent on `me`, on the way of its own subchannel. */
  predicate Announces<K>(mail: Mail, me: Context<K>, ctx: Context<K>) {
    && mail.to == ctx.ep.chan && mail.msg.Sending? && mail.msg.scid == ctx.scid
    && mail.msg.via == me.scid && mail.msg.viaChan.uuid == me.ep.uuid
  }

  /** A data message on `me` with a reference to each subsender, in order. */
  predicate Carries<K>(mail: Mail, me: Context<K>, payload: Payload, ctxs: seq<Context<K>>) {
    && mail.to == me.ep.chan && mail.msg.Data? && mail.msg.scid == me.scid && mail.msg.payload == payload
    && |mail.msg.senders| == |ctxs|
    && forall i | 0 <= i < |ctxs| ::
         mail.msg.senders[i].scid == ctxs[i].scid && mail.msg.senders[i].sender.uuid == ctxs[i].ep.uuid
  }

  /** The first `n` subsenders can be announced; the next, if there is one, cannot. */
  predicate OpenTo<K>(closed: set<Chan>, ctxs: seq<Context<K>>, n: nat) {
    && n <= |ctxs| && (forall i | 0 <= i < n :: ctxs[i].ep.chan !in closed)
    && (n < |ctxs| ==> ctxs[n].ep.chan in closed)
  }

  lemma {:induction false} IncludedTo<K>(closed: set<Chan>, me: Context<K>, tables: map<K, set<Endpoint>>,
                                         ctxs: seq<Context<K>>, n: nat)
    requires me.source in tables && forall i | 0 <= i < |ctxs| :: ctxs[i].source in tables
    requires OpenTo(closed, ctxs, n)
    ensures var r := IncludeAll(closed, me, tables, ctxs);
            && (r.ok <==> n == |ctxs|) && |r.mail| == |r.refs| == n
            && (forall i | 0 <= i < n :: Announces(r.mail[i], me, ctxs[i]))
            && forall i | 0 <= i < n :: r.refs[i].scid == ctxs[i].scid && r.refs[i].sender.uuid == ctxs[i].ep.uuid
  {
    if ctxs != [] {
      var k := |ctxs| - 1;
      IncludedTo(closed, me, tables, ctxs[..k], if n <= k then n else k);
    }
  }

  /**
   What a `send` sends. Nothing if the receiver is known to be gone; otherwise an announcement for
   each subsender, up to the first whose channel is closed, and after all of them exactly one data
   message with a reference to each. It succeeds if and only if that could be sent.
   */
  lemma SendSends<K>(gone: bool, closed: set<Chan>, me: Context<K>, before: SendResult<K>, payload: Payload,
                     ctxs: seq<Context<K>>, n: nat)
    requires me.source in before.tables && forall i | 0 <= i < |ctxs| :: ctxs[i].source in before.tables
    requires OpenTo(closed, ctxs, n)
    ensures var t, k := Transmission(gone, closed, me, before, payload, ctxs), |before.mail|;
            && (t.ok <==> !gone && n == |ctxs| && me.ep.chan !in closed)
            && (gone ==> t.mail == before.mail && t.tables == before.tables)
            && (!gone ==>
                  && |t.mail| == k + n + (if t.ok then 1 else 0) && t.mail[..k] == before.mail
                  && (forall i | 0 <= i < n :: Announces(t.mail[k + i], me, ctxs[i]))
                  && (t.ok ==> Carries(t.mail[k + n], me, payload, ctxs)))
  {
    if !gone {
      IncludedTo(closed, me, before.tables, ctxs, n);
    }
  }

  /** The endpoints that have come up for the source of `me`: also its own, if it has told itself of it. */
  function ComeUp<K(==)>(me: Context<K>, tables: map<K, set<Endpoint>>, ctxs: seq<Context<K>>): set<Endpoint>
    requires me.source in tables
  {
    tables[me.source] + (set i | 0 <= i < |ctxs| :: ctxs[i].ep)
    + if exists i | 0 <= i < |ctxs| :: ctxs[i].source == me.source then {me.ep} else {}
  }

  lemma ComeUpNext<K>(me: Context<K>, tables: map<K, set<Endpoint>>, ctxs: seq<Context<K>>)
    requires me.source in tables && ctxs != []
    ensures var k := |ctxs| - 1;
            ComeUp(me, tables, ctxs) == ComeUp(me, tables, ctxs[..k]) + {ctxs[k].ep}
                                        + if ctxs[k].source == me.source then {me.ep} else {}
  {
    var k := |ctxs| - 1;
    assert forall i | 0 <= i < |ctxs| :: ctxs[i] == if i < k then ctxs[..k][i] else ctxs[k];
  }

  lemma IncludedOnce<K>(closed: set<Chan>, me: Context<K>, done: Inclusion<K>, ctx: Context<K>)
    requires me.source in done.tables && ctx.source in done.tables && done.ok
    requires IncludeNext(closed, me, done, ctx).ok
    ensures var r := IncludeNext(closed, me, done, ctx);
            && me.source in r.tables && |r.refs| == |done.refs| + 1 && r.refs[..|done.refs|] == done.refs
            && r.tables[me.source]
               == done.tables[me.source] + {ctx.ep} + (if ctx.source == me.source then {me.ep} else {})
            && (r.refs[|done.refs|].sender.ById?
                <==> ctx.ep in done.tables[me.source] || (ctx.ep == me.ep && ctx.source == me.source))
  {
  }

  lemma IncludedAllBefore<K>(closed: set<Chan>, me: Context<K>, tables: map<K, set<Endpoint>>, ctxs: seq<Context<K>>)
    requires me.source in tables && forall i | 0 <= i < |ctxs| :: ctxs[i].source in tables
    requires ctxs != [] && IncludeAll(closed, me, tables, ctxs).ok
    ensures var k := |ctxs| - 1;
            var done := IncludeAll(closed, me, tables, ctxs[..k]);
            done.ok && IncludeAll(closed, me, tables, ctxs) == IncludeNext(closed, me, done, ctxs[k])
  {
  }

  /** Whether the i-th reference can do without its sender. */
  predicate Known<K(==)>(me: Context<K>, tables: map<K, set<Endpoint>>, ctxs: seq<Context<K>>, i: nat)
    requires me.source in tables && i < |ctxs|
  {
    ctxs[i].ep in ComeUp(me, tables, ctxs[..i]) || (ctxs[i].ep == me.ep && ctxs[i].source == me.source)
  }

  /** What the source of `me` has sent, and the references of the message, are as they should be. */
  predicate EachOnce<K(==)>(me: Context<K>, tables: map<K, set<Endpoint>>, ctxs: seq<Context<K>>, r: Inclusion<K>)
    requires me.source in tables
  {
    && me.source in r.tables && |r.refs| == |ctxs| && r.tables[me.source] == ComeUp(me, tables, ctxs)
    && forall i | 0 <= i < |ctxs| :: r.refs[i].sender.ById? <==> Known(me, tables, ctxs, i)
  }

  lemma EachOnceNext<K>(closed: set<Chan>, me: Context<K>, tables: map<K, set<Endpoint>>, ctxs: seq<Context<K>>,
                        done: Inclusion<K>)
    requires me.source in tables && ctxs != [] && EachOnce(me, tables, ctxs[..|ctxs| - 1], done)
    requires ctxs[|ctxs| - 1].source in done.tables && done.ok
    requires IncludeNext(closed, me, done, ctxs[|ctxs| - 1]).ok
    ensures EachOnce(me, tables, ctxs, IncludeNext(closed, me, done, ctxs[|ctxs| - 1]))
  {
    var k := |ctxs| - 1;
    IncludedOnce(closed, me, done, ctxs[k]);
    ComeUpNext(me, tables, ctxs);
    hide ComeUp, IncludeNext;
    var r := IncludeNext(closed, me, done, ctxs[k]);
    forall i | 0 <= i < |ctxs| ensures r.refs[i].sender.ById? <==> Known(me, tables, ctxs, i) {
      if i < k {
        assert r.refs[i] == done.refs[i] && ctxs[..k][i] == ctxs[i] && ctxs[..k][..i] == ctxs[..i];
        assert Known(me, tables, ctxs[..k], i) <==> Known(me, tables, ctxs, i);
      }
    }
  }

  /**
   A sender goes along with the references of a source only once: a subsender is referred to by its
   identifier alone if and only if its connection has come up before.
   */
  lemma {:induction false} SentOnce<K>(closed: set<Chan>, me: Context<K>, tables: map<K, set<Endpoint>>,
                                       ctxs: seq<Context<K>>)
    requires me.source in tables && forall i | 0 <= i < |ctxs| :: ctxs[i].source in tables
    requires IncludeAll(closed, me, tables, ctxs).ok
    ensures EachOnce(me, tables, ctxs, IncludeAll(closed, me, tables, ctxs))
  {
    if ctxs == [] {
      assert ComeUp(me, tables, ctxs) == tables[me.source];
    } else {
      hide ComeUp, IncludeNext, IncludeAll, EachOnce;
      IncludedAllBefore(closed, me, tables, ctxs);
      SentOnce(closed, me, tables, ctxs[..|ctxs| - 1]);
      EachOnceNext(closed, me, tables, ctxs, IncludeAll(closed, me, tables, ctxs[..|ctxs| - 1]));
    }
  }

  // A whole `send`, as module `Dedup` has it.

  /** A subsender in a net: its source and its subchannel. */
  type Passenger = (Dedup.SourceId, SubChannelId)

  predicate CanEmbedAll(n: Dedup.Net, s: Dedup.SourceId, via: SubChannelId, ps: seq<Passenger>)
    decreases |ps|, 0
  {
    if ps == [] then s in n.tables && s in n.drafts
    else
      var k := |ps| - 1;
      CanEmbedAll(n, s, via, ps[..k]) && EmbedAll(n, s, via, ps[..k]).CanEmbed(s, via, ps[k].0, ps[k].1)
  }

  /** The steps of `Dedup` for each of the subsenders. */
  function EmbedAll(n: Dedup.Net, s: Dedup.SourceId, via: SubChannelId, ps: seq<Passenger>): (m: Dedup.Net)
    requires CanEmbedAll(n, s, via, ps)
    ensures s in m.tables && s in m.drafts && m.tables.Keys == n.tables.Keys && m.home == n.home
    ensures forall x | x in n.tables :: m.tables[x].self == n.tables[x].self
    ensures m.queue.Keys == n.queue.Keys
    decreases |ps|, 1
  {
    if ps == [] then n
    else
      var k := |ps| - 1;
      EmbedAll(n, s, via, ps[..k]).Tell(s, via, ps[k].0, ps[k].1).Collect(s, ps[k].0, ps[k].1)
  }

  predicate Aboard(n: Dedup.Net, ps: seq<Passenger>) {
    forall i | 0 <= i < |ps| :: ps[i].0 in n.tables
  }

  function ContextsOf(n: Dedup.Net, ps: seq<Passenger>): seq<Context<Dedup.SourceId>>
    requires Aboard(n, ps)
  {
    seq(|ps|, i requires 0 <= i < |ps| => Context(ps[i].1, n.tables[ps[i].0].self, ps[i].0))
  }

  lemma EmbedNext(n: Dedup.Net, s: Dedup.SourceId, via: SubChannelId, ps: seq<Passenger>)
    requires ps != [] && CanEmbedAll(n, s, via, ps)
    ensures var k := |ps| - 1;
            && CanEmbedAll(n, s, via, ps[..k]) && EmbedAll(n, s, via, ps[..k]).CanEmbed(s, via, ps[k].0, ps[k].1)
            && EmbedAll(n, s, via, ps)
               == EmbedAll(n, s, via, ps[..k]).Tell(s, via, ps[k].0, ps[k].1).Collect(s, ps[k].0, ps[k].1)
  {
  }

  lemma ContextsNext(n: Dedup.Net, ps: seq<Passenger>)
    requires ps != [] && Aboard(n, ps[..|ps| - 1]) && ps[|ps| - 1].0 in n.tables
    ensures var k := |ps| - 1;
            && Aboard(n, ps) && ContextsOf(n, ps)[..k] == ContextsOf(n, ps[..k])
            && ContextsOf(n, ps)[k] == Context(ps[k].1, n.tables[ps[k].0].self, ps[k].0)
  {
    assert forall i | 0 <= i < |ps| - 1 :: ps[..|ps| - 1][i] == ps[i];
  }

  function IncludePassengers(n: Dedup.Net, s: Dedup.SourceId, via: SubChannelId, ps: seq<Passenger>)
    : Inclusion<Dedup.SourceId>
    requires s in n.tables && Aboard(n, ps)
  {
    IncludeAll({}, Context(via, n.tables[s].self, s), SentBy(n), ContextsOf(n, ps))
  }

  lemma PassengersNext(n: Dedup.Net, s: Dedup.SourceId, via: SubChannelId, ps: seq<Passenger>)
    requires ps != [] && s in n.tables && Aboard(n, ps[..|ps| - 1]) && ps[|ps| - 1].0 in n.tables
    ensures Aboard(n, ps)
    ensures var k := |ps| - 1;
            var done := IncludePassengers(n, s, via, ps[..k]);
            && s in done.tables && ps[k].0 in done.tables
            && IncludePassengers(n, s, via, ps)
               == IncludeNext({}, Context(via, n.tables[s].self, s), done,
                              Context(ps[k].1, n.tables[ps[k].0].self, ps[k].0))
  {
    hide IncludeNext;
    ContextsNext(n, ps);
  }

  lemma {:induction false} IncludeAllIsDedup(n: Dedup.Net, s: Dedup.SourceId, via: SubChannelId, ps: seq<Passenger>)
    requires s in n.tables && s in n.drafts && CanEmbedAll(n, s, via, ps) && n.drafts[s] == []
    ensures Aboard(n, ps)
    ensures var m, r := EmbedAll(n, s, via, ps), IncludePassengers(n, s, via, ps);
            r.ok && r.tables == SentBy(m) && r.refs == m.drafts[s]
    decreases |ps|
  {
    if ps != [] {
      hide CanEmbedAll, EmbedAll, IncludeNext, Aboard, IncludePassengers, Dedup.Net.Tell, Dedup.Net.Collect;
      var k := |ps| - 1;
      EmbedNext(n, s, via, ps);
      IncludeAllIsDedup(n, s, via, ps[..k]);
      var m := EmbedAll(n, s, via, ps[..k]);
      IncludeOneIsDedup(m, s, via, ps[k].0, ps[k].1, IncludePassengers(n, s, via, ps[..k]));
      PassengersNext(n, s, via, ps);
    }
  }

  lemma IncludeOneIsDedup(n: Dedup.Net, s: Dedup.SourceId, via: SubChannelId, x: Dedup.SourceId, c: SubChannelId,
                          done: Inclusion<Dedup.SourceId>)
    requires n.CanEmbed(s, via, x, c) && done.ok && done.tables == SentBy(n) && done.refs == n.drafts[s]
    ensures s in SentBy(n) && x in SentBy(n)
    ensures s in n.Tell(s, via, x, c).tables && s in n.Tell(s, via, x, c).drafts && x in n.Tell(s, via, x, c).tables
    ensures var m := n.Tell(s, via, x, c).Collect(s, x, c);
            var r := IncludeNext({}, Context(via, n.tables[s].self, s), done, Context(c, n.tables[x].self, x));
            s in m.drafts && r.ok && r.tables == SentBy(m) && r.refs == m.drafts[s]
  {
    IncludeIsDedup(n, s, via, x, c);
    var me, ctx := Context(via, n.tables[s].self, s), Context(c, n.tables[x].self, x);
    IncludeOnto({}, me, done, ctx);
    IncludeOnto({}, me, Inclusion(SentBy(n), [], n.drafts[s], true), ctx);
    hide IncludeNext;
  }

  /**
   The data message of a `send` carries just the references that `Dedup` has collected, and the
   sources have sent what `Dedup` says.
   */
  lemma SendIsDedup(n: Dedup.Net, s: Dedup.SourceId, via: SubChannelId, ps: seq<Passenger>, payload: Payload)
    requires s in n.tables && CanEmbedAll(n.Begin(s), s, via, ps) && n.tables[s].self.chan in n.queue
    ensures Aboard(n, ps)
    ensures var m, ch := EmbedAll(n.Begin(s), s, via, ps), n.tables[s].self.chan;
            var me := Context(via, n.tables[s].self, s);
            var t := Transmission(false, {}, me, SendResult(SentBy(n), [], true), payload, ContextsOf(n, ps));
            && t.ok && t.tables == SentBy(m) && t.mail != []
            && var last := t.mail[|t.mail| - 1];
               && last.to == ch && last.msg.Data? && last.msg.scid == via && last.msg.payload == payload
               && m.End(s).queue[ch] == m.queue[ch] + [PacketOf(last.msg)]
  {
    IncludeAllIsDedup(n.Begin(s), s, via, ps);
    assert SentBy(n.Begin(s)) == SentBy(n);
    assert ContextsOf(n.Begin(s), ps) == ContextsOf(n, ps);
  }

  lemma {:induction false} OpenMakesNoDifference<K>(closed: set<Chan>, me: Context<K>, tables: map<K, set<Endpoint>>,
                                                    ctxs: seq<Context<K>>)
    requires me.source in tables && forall i | 0 <= i < |ctxs| :: ctxs[i].source in tables
    requires forall i | 0 <= i < |ctxs| :: ctxs[i].ep.chan !in closed
    ensures IncludeAll(closed, me, tables, ctxs) == IncludeAll({}, me, tables, ctxs)
  {
    if ctxs != [] {
      OpenMakesNoDifference(closed, me, tables, ctxs[..|ctxs| - 1]);
    }
  }

  /** What the sources have sent after the announcement of one more subsender has failed. */
  lemma FailedAnnouncement<K>(closed: set<Chan>, me: Context<K>, tables: map<K, set<Endpoint>>, ctxs: seq<Context<K>>)
    requires me.source in tables && forall i | 0 <= i < |ctxs| :: ctxs[i].source in tables
    requires ctxs != [] && OpenTo(closed, ctxs, |ctxs| - 1)
    ensures var k := |ctxs| - 1;
            var before := IncludeAll({}, me, tables, ctxs[..k]).tables;
            IncludeAll(closed, me, tables, ctxs).tables
            == before[ctxs[k].source := before[ctxs[k].source] + {me.ep}]
  {
    var k := |ctxs| - 1;
    OpenMakesNoDifference(closed, me, tables, ctxs[..k]);
    IncludedTo(closed, me, tables, ctxs[..k], k);
  }

  lemma SentByAfter(m: Dedup.Net, s: Dedup.SourceId, x: Dedup.SourceId, ep: Endpoint)
    requires x in m.tables
    ensures SentBy(Dedup.Abort(m.Insert(x, ep), s)) == SentBy(m)[x := SentBy(m)[x] + {ep}]
    ensures SentBy(Dedup.Abort(m, s)) == SentBy(m)
  {
  }

  /**
   A `send` that fails has left its marks on the sources all the same: those of every announcement
   made, and of the one that failed, as if that had been sent.
   */
  lemma FailedSendRecords(n: Dedup.Net, s: Dedup.SourceId, via: SubChannelId, ps: seq<Passenger>,
                          closed: set<Chan>, payload: Payload)
    requires ps != [] && s in n.tables && CanEmbedAll(n.Begin(s), s, via, ps[..|ps| - 1]) && Aboard(n, ps)
    requires OpenTo(closed, ContextsOf(n, ps), |ps| - 1)
    ensures var m, me := EmbedAll(n.Begin(s), s, via, ps[..|ps| - 1]), Context(via, n.tables[s].self, s);
            var x := ps[|ps| - 1].0;
            && x in m.tables
            && Transmission(false, closed, me, SendResult(SentBy(n), [], true), payload, ContextsOf(n, ps)).tables
               == SentBy(Dedup.Abort(m.Insert(x, me.ep), s))
  {
    var k, me := |ps| - 1, Context(via, n.tables[s].self, s);
    hide CanEmbedAll, EmbedAll, IncludeAll, Dedup.Net.Insert, Dedup.Abort;
    BeginChangesNothing(n, s, ps);
    IncludeAllIsDedup(n.Begin(s), s, via, ps[..k]);
    FailedAnnouncement(closed, me, SentBy(n), ContextsOf(n, ps));
    SentByAfter(EmbedAll(n.Begin(s), s, via, ps[..k]), s, ps[k].0, me.ep);
    hide SentBy, ContextsOf, OpenTo;
  }

  lemma BeginChangesNothing(n: Dedup.Net, s: Dedup.SourceId, ps: seq<Passenger>)
    requires Aboard(n, ps) && ps != []
    ensures var k := |ps| - 1;
            && SentBy(n.Begin(s)) == SentBy(n) && Aboard(n, ps[..k]) && Aboard(n.Begin(s), ps[..k])
            && ContextsOf(n.Begin(s), ps[..k]) == ContextsOf(n, ps)[..k]
  {
  }

  type SourceRef = SenderId.Source<Endpoint>

  ghost function Sent(sources: set<SourceRef>): map<SourceRef, set<Endpoint>>
    reads sources
  {
    map s | s in sources :: s.senders
  }

  ghost function SourcesOf(ctxs: seq<Context<SourceRef>>): set<SourceRef> {
    set i | 0 <= i < |ctxs| :: ctxs[i].source
  }

  /** The outgoing side of the IPC channels. */
  class Outbox {
    var closed: set<Chan>
    var sent: seq<Mail>

    method Send(to: Chan, msg: WireMessage) returns (result: Result<()>)
      modifies this`sent
      ensures result == if to in closed then Err(IpcError) else Ok(())
      ensures sent == if to in closed then old(sent) else old(sent) + [Mail(to, msg)]
    {
      if to in closed {
        return Err(IpcError);
      }
      sent := sent + [Mail(to, msg)];
      return Ok(());
    }
  }

  /** The reference for a connection; it has been sent from now on. */
  method IpcSenderAndOrUuid(source: SourceRef, ep: Endpoint) returns (ref: Ref)
    modifies source
    ensures ref == RefFor(old(source.senders), ep) && source.senders == old(source.senders) + {ep}
  {
    var alreadySent := source.Insert(ep);
    ref := if alreadySent then ById(ep.uuid) else Full(ep.chan, ep.uuid);
  }

  class SubChannelSender {
    const context: Context<SourceRef>
    const multiSender: MultiSender
    const outbox: Outbox

    constructor (context: Context<SourceRef>, multiSender: MultiSender, outbox: Outbox)
      ensures this.context == context && this.multiSender == multiSender && this.outbox == outbox
    {
      this.context := context;
      this.multiSender := multiSender;
      this.outbox := outbox;
    }

    /** One subsender inside a message: announced, and a reference to it made. */
    method AnnounceOne(ctx: Context<SourceRef>, ghost sources: set<SourceRef>) returns (ref: Ref, result: Result<()>)
      requires context.source in sources && ctx.source in sources
      modifies outbox`sent, context.source, ctx.source
      ensures var r := IncludeNext(outbox.closed, context, Inclusion(old(Sent(sources)), [], [], true), ctx);
              && Sent(sources) == r.tables && outbox.sent == old(outbox.sent) + r.mail
              && (result.Ok? <==> r.ok) && (r.ok ==> r.refs == [Embed(ctx.scid, ref)])
    {
      var announcement := IpcSenderAndOrUuid(ctx.source, context.ep);
      assert Sent(sources) == old(Sent(sources))[ctx.source := old(ctx.source.senders) + {context.ep}];
      result := outbox.Send(ctx.ep.chan, Sending(ctx.scid, context.scid, announcement));
      ref := announcement;
      if result.Ok? {
        ghost var between := Sent(sources);
        ref := IpcSenderAndOrUuid(context.source, ctx.ep);
        assert Sent(sources) == between[context.source := between[context.source] + {ctx.ep}];
      }
    }

    /** Announces the subsenders inside a message one after the other, and collects references to them. */
    method Announce(serialized: seq<Context<SourceRef>>, ghost sources: set<SourceRef>)
      returns (srs: Packet, result: Result<()>)
      requires context.source in sources && forall i | 0 <= i < |serialized| :: serialized[i].source in sources
      modifies outbox`sent, sources
      ensures var r := IncludeAll(outbox.closed, context, old(Sent(sources)), serialized);
              && Inclusion(Sent(sources), r.mail, if r.ok then srs else r.refs, result.Ok?) == r
              && outbox.sent == old(outbox.sent) + r.mail
    {
      ghost var before, mail, closed := Sent(sources), outbox.sent, outbox.closed;
      srs, result := [], Ok(());
      assert serialized[..0] == [];
      assert IncludeAll(closed, context, before, serialized[..0]) == Inclusion(before, [], [], true);
      hide IncludeNext, IncludeAll, Sent;
      var i := 0;
      while i < |serialized|
        invariant 0 <= i <= |serialized| && result.Ok?
        invariant var r := IncludeAll(closed, context, before, serialized[..i]);
                  r == Inclusion(Sent(sources), r.mail, srs, true) && outbox.sent == mail + r.mail
      {
        IncludeStep(closed, context, before, serialized, i);
        var ref;
        ref, result := AnnounceOne(serialized[i], sources);
        if result.Err? {
          IncludeStops(closed, context, before, serialized, i + 1);
          return;
        }
        srs := srs + [Embed(serialized[i].scid, ref)];
        i := i + 1;
      }
      assert serialized[..i] == serialized;
    }

    /** The announcements, and the data message after them. */
    method Dispatch(payload: Payload, serialized: seq<Context<SourceRef>>, ghost sources: set<SourceRef>)
      returns (result: Result<()>)
      requires context.source in sources && forall i | 0 <= i < |serialized| :: serialized[i].source in sources
      modifies outbox`sent, sources
      ensures SendResult(Sent(sources), outbox.sent, result.Ok?)
              == Transmission(false, outbox.closed, context, old(SendResult(Sent(sources), outbox.sent, true)), payload,
                              serialized)
    {
      hide IncludeAll, Sent;
      var srs;
      srs, result := Announce(serialized, sources);
      if result.Ok? {
        result := outbox.Send(context.ep.chan, Data(context.scid, payload, srs));
      }
    }

    /** `serialized` are the subsenders that serialization has found in the message. */
    method Send(payload: Payload, serialized: seq<Context<SourceRef>>) returns (result: Result<()>)
      requires multiSender.Valid()
      modifies multiSender, outbox`sent, {context.source} + SourcesOf(serialized)
      ensures multiSender.Valid() && OnlyHears(old(multiSender.history), multiSender.history)
      ensures !old(multiSender.disconnected) ==>
                multiSender.history
                == old(multiSender.history) + HeardAll(old(multiSender.replies)[..Consumed(old(multiSender.replies))])
      ensures var sources := {context.source} + SourcesOf(serialized);
              var gone := KnownGone(multiSender.history, context.scid) == Some(true);
              && (gone ==> result == Err(Disconnected))
              && SendResult(Sent(sources), outbox.sent, result.Ok?)
                 == Transmission(gone, outbox.closed, context, old(SendResult(Sent(sources), outbox.sent, true)),
                                 payload, serialized)
    {
      var connected := multiSender.IsReceiverConnected(context.scid);
      if !connected {
        return Err(Disconnected);
      }
      result := Dispatch(payload, serialized, {context.source} + SourcesOf(serialized));
    }

    /** The tracker of a source: its last reference has gone. */
    method Dropped(source: Protocol.Source)
      requires multiSender.Valid()
      modifies multiSender, outbox`sent
      ensures multiSender.Valid() && OnlyHears(old(multiSender.history), multiSender.history)
      ensures outbox.sent == if KnownGone(multiSender.history, context.scid) == Some(true)
                                || context.ep.chan in outbox.closed then old(outbox.sent)
                             else old(outbox.sent) + [Mail(context.ep.chan, Disconnect(context.scid, source))]
    {
      var connected := multiSender.IsReceiverConnected(context.scid);
      if connected {
        var _ := outbox.Send(context.ep.chan, Disconnect(context.scid, source));
      }
    }
  }

  /** What including one more subsender adds does not depend on the announcements before. */
  lemma IncludeOnto<K>(closed: set<Chan>, me: Context<K>, done: Inclusion<K>, ctx: Context<K>)
    requires me.source in done.tables && ctx.source in done.tables && done.ok
    ensures var r := IncludeNext(closed, me, done, ctx);
            var s := IncludeNext(closed, me, Inclusion(done.tables, [], [], true), ctx);
            r == Inclusion(s.tables, done.mail + s.mail, done.refs + s.refs, s.ok)
  {
  }

  lemma IncludeStep<K>(closed: set<Chan>, me: Context<K>, tables: map<K, set<Endpoint>>, ctxs: seq<Context<K>>, i: nat)
    requires me.source in tables && forall i | 0 <= i < |ctxs| :: ctxs[i].source in tables
    requires i < |ctxs| && IncludeAll(closed, me, tables, ctxs[..i]).ok
    ensures var r := IncludeAll(closed, me, tables, ctxs[..i]);
            var s := IncludeNext(closed, me, Inclusion(r.tables, [], [], true), ctxs[i]);
            IncludeAll(closed, me, tables, ctxs[..i + 1]) == Inclusion(s.tables, r.mail + s.mail, r.refs + s.refs, s.ok)
  {
    assert ctxs[..i + 1][..i] == ctxs[..i];
    IncludeOnto(closed, me, IncludeAll(closed, me, tables, ctxs[..i]), ctxs[i]);
  }

  lemma {:induction false} IncludeStops<K>(closed: set<Chan>, me: Context<K>, tables: map<K, set<Endpoint>>,
                                           ctxs: seq<Context<K>>, i: nat)
    requires me.source in tables && forall i | 0 <= i < |ctxs| :: ctxs[i].source in tables
    requires i <= |ctxs| && !IncludeAll(closed, me, tables, ctxs[..i]).ok
    ensures IncludeAll(closed, me, tables, ctxs) == IncludeAll(closed, me, tables, ctxs[..i])
    decreases |ctxs| - i
  {
    if i == |ctxs| {
      assert ctxs[..i] == ctxs;
    } else {
      assert ctxs[..i + 1][..i] == ctxs[..i];
      IncludeStops(closed, me, tables, ctxs, i + 1);
    }
  }
}
