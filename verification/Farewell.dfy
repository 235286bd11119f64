/**
 From a receiver that is dropped to the senders that find out: the last leg of a subchannel's
 life, across both ends of its IPC channel.
 */
module Farewell {
  import opened Basics
  import opened Protocol
  import opened Wire
  import opened Multiplexing
  import opened Dropping
  import opened Receiver
  import opened Sender

  /** What has been sent to a client so far. */
  function ResponsesTo(responses: map<ClientId, seq<SubChannelId>>, client: ClientId): seq<SubChannelId> {
    if client in responses then responses[client] else []
  }

  /**
   When a receiver is dropped, a client is sent just one notice, of just that subchannel, if it had
   registered before or its `Connect` is read before any message fails; and none otherwise.
   */
  lemma ClientHears(me: Chan, closed: set<Chan>, r: Inbox, c: SubChannelId, arrivals: seq<WireMessage>,
                    responses: map<ClientId, seq<SubChannelId>>, client: ClientId)
    requires Tidy(r.st) && c in r.st.tables.subChannels
    ensures var told := Told(responses, DropReceiver(me, closed, r, c, arrivals).notified, c);
            var news := if client in r.st.clients || exists i :: ConnectsAt(me, closed, r, client, i) then [c] else [];
            ResponsesTo(told, client) == ResponsesTo(responses, client) + news
  {
    DroppingPhases(me, closed, r, c, arrivals);
    ClientIsToldIff(me, closed, r, client);
    hide DropReceiver, Drain, ConnectsAt, Tidy;
  }

  /** A message to be sent: its payload, and the subsenders that serialization finds in it. */
  datatype Letter = Letter(payload: Payload, senders: seq<Context<SourceRef>>)

  ghost function SourcesIn(letters: seq<Letter>): set<SourceRef> {
    set i, j | 0 <= i < |letters| && 0 <= j < |letters[i].senders| :: letters[i].senders[j].source
  }

  /** Once the notice of its receiver is among those to be heard, a registered sender will know. */
  lemma NoticeMakesGone(history: seq<Happening>, gone: seq<SubChannelId>, c: SubChannelId)
    requires KnownGone(history, c).Some? && c in gone
    ensures KnownGone(history + HeardAll(Notices(gone)[..Consumed(Notices(gone))]), c) == Some(true)
  {
    NoticesReachProxies(history, gone, c);
    assert Notices(gone)[..|gone|] == Notices(gone);
  }

  /**
   The receiver of a subchannel is dropped, what this sends to a client reaches the sender that
   the client has registered for the subchannel, and the sender goes on sending. If the client
   was told, every one of these sends fails, and nothing is sent.
   */
  method DropThenSend(receiver: SubChannelReceiver, arrivals: seq<WireMessage>, client: ClientId,
                      sender: SubChannelSender, letters: seq<Letter>, ghost pending: seq<SubChannelId>)
    returns (results: seq<Result<()>>)
    requires receiver.Valid() && sender.multiSender.Valid() && sender.context.scid == receiver.subChannelId
    requires KnownGone(sender.multiSender.history, sender.context.scid).Some? && !sender.multiSender.disconnected
    requires sender.multiSender.replies == Notices(pending)
    modifies receiver.multiReceiver`queue, receiver.multiReceiver`responses, receiver.multiReceiver.demuxer`ipcSenders
    modifies receiver.multiReceiver.demuxer`supply, receiver.multiReceiver.demuxer`hungUp
    modifies receiver.multiReceiver.demuxer`sent, receiver.multiReceiver.demuxer`local
    modifies receiver.multiReceiver.demuxer.ipcSendersById, receiver.multiReceiver.demuxer.subChannels.Values
    modifies sender.multiSender, sender.outbox`sent, {sender.context.source} + SourcesIn(letters)
    ensures |results| == |letters|
    ensures client in DropReceiver(receiver.multiReceiver.me, receiver.multiReceiver.demuxer.closed,
                                   old(receiver.multiReceiver.View()), receiver.subChannelId, arrivals).notified ==>
              (forall i | 0 <= i < |results| :: results[i] == Err(Disconnected))
                  && sender.outbox.sent == old(sender.outbox.sent)
  {
    hide DropReceiver, SubChannelReceiver.Valid, MultiReceiver.View;
    var news := DropAndTell(receiver, arrivals, client);
    NoticesConcat(pending, news);
    sender.multiSender.Reach(Notices(news));
    results := SendAll(sender, letters, pending + news);
  }

  /** Dropping a receiver sends its notice to a client that is told, and nothing to others. */
  method DropAndTell(receiver: SubChannelReceiver, arrivals: seq<WireMessage>, client: ClientId)
    returns (news: seq<SubChannelId>)
    requires receiver.Valid()
    modifies receiver.multiReceiver`queue, receiver.multiReceiver`responses, receiver.multiReceiver.demuxer`ipcSenders
    modifies receiver.multiReceiver.demuxer`supply, receiver.multiReceiver.demuxer`hungUp
    modifies receiver.multiReceiver.demuxer`sent, receiver.multiReceiver.demuxer`local
    modifies receiver.multiReceiver.demuxer.ipcSendersById, receiver.multiReceiver.demuxer.subChannels.Values
    ensures news == if client in DropReceiver(receiver.multiReceiver.me, receiver.multiReceiver.demuxer.closed,
                                              old(receiver.multiReceiver.View()), receiver.subChannelId,
                                              arrivals).notified
                    then [receiver.subChannelId] else []
  {
    hide DropReceiver;
    var before := ResponsesTo(receiver.multiReceiver.responses, client);
    var _ := receiver.Drop(arrivals);
    var after := ResponsesTo(receiver.multiReceiver.responses, client);
    news := after[|before|..];
  }

  lemma NoticesConcat(pending: seq<SubChannelId>, news: seq<SubChannelId>)
    ensures Notices(pending) + Notices(news) == Notices(pending + news)
  {
  }

  /** Sends one message after the other. A sender that has a notice to hear gets nothing through. */
  method SendAll(sender: SubChannelSender, letters: seq<Letter>, ghost gone: seq<SubChannelId>)
    returns (results: seq<Result<()>>)
    requires sender.multiSender.Valid() && !sender.multiSender.disconnected
             && sender.multiSender.replies == Notices(gone)
    requires KnownGone(sender.multiSender.history, sender.context.scid).Some?
    modifies sender.multiSender, sender.outbox`sent, {sender.context.source} + SourcesIn(letters)
    ensures |results| == |letters|
    ensures sender.context.scid in gone ==>
              (forall i | 0 <= i < |results| :: results[i] == Err(Disconnected))
                  && sender.outbox.sent == old(sender.outbox.sent)
  {
    results := [];
    var c := sender.context.scid;
    if c in gone {
      NoticeMakesGone(sender.multiSender.history, gone, c);
    }
    for i := 0 to |letters|
      invariant |results| == i && sender.multiSender.Valid()
      invariant i == 0 ==> !sender.multiSender.disconnected && sender.multiSender.replies == Notices(gone)
                           && sender.multiSender.history == old(sender.multiSender.history)
      invariant c in gone ==>
                  && (i > 0 ==> KnownGone(sender.multiSender.history, c) == Some(true))
                  && (forall j | 0 <= j < i :: results[j] == Err(Disconnected))
                     && sender.outbox.sent == old(sender.outbox.sent)
    {
      ghost var history := sender.multiSender.history;
      SourcesInOne(letters, i);
      var result := sender.Send(letters[i].payload, letters[i].senders);
      if i > 0 && c in gone {
        GoneStaysGone(history, sender.multiSender.history, c);
      }
      results := results + [result];
    }
  }

  lemma SourcesInOne(letters: seq<Letter>, i: nat)
    requires i < |letters|
    ensures SourcesOf(letters[i].senders) <= SourcesIn(letters)
  {
  }
}
