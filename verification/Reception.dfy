/**
 What a `recv` reports, as the whole system has it: it ends with the news that its subchannel is
 disconnected only if no subsender is left anywhere.
 */
module Reception {
  import opened Protocol
  import Resolution
  import Life = Subchannel
  import opened Multiplexing
  import opened System
  import Runs
  import opened Guarantees

  /** The inbox is that of the home channel of `c`, with its connections replaced by channels. */
  ghost predicate IsHome(r: Inbox, w: World, c: SubChannelId) {
    w.Shaped() && c in w.home && w.demux[w.home[c]] == Resolution.TablesChans(r.st.tables)
  }

  lemma EndedIsReported(r: Inbox, w: World, c: SubChannelId)
    requires IsHome(r, w, c)
    ensures Ended(r, c) <==> ReportsDisconnected(w, c)
  {
    var d, d' := r.st.tables, Resolution.TablesChans(r.st.tables);
    assert c in d.local && c in d.subChannels;
    assert w.Local(c) == Resolution.ItemsChans(d.local[c]);
    assert d'.subChannels[c] == Resolution.MachineChans(d.subChannels[c]);
    if d.local[c] != [] {
      assert w.Local(c)[0] == Resolution.ItemChans(d.local[c][0]);
    }
    hide World.Shaped, Resolution.TablesChans;
  }

  /** `recv` reports the end of a subchannel exactly when the system has it that it does. */
  lemma RecvReportsEnd(me: Chan, closed: set<Chan>, r: Inbox, c: SubChannelId, w: World)
    requires Tidy(r.st) && c in r.st.tables.subChannels
    requires IsHome(Multiplexing.After(me, closed, r, Receive(me, closed, r, c).handled), w, c)
    requires !Receive(me, closed, r, c).outcome.Failed?
    ensures Receive(me, closed, r, c).outcome.Closed? <==> ReportsDisconnected(w, c)
  {
    hide Receive, Multiplexing.After, Tidy, IsHome;
    ReceiveEndsIff(me, closed, r, c);
    EndedIsReported(Multiplexing.After(me, closed, r, Receive(me, closed, r, c).handled), w, c);
  }

  /**
   In every run, if `recv` on a subchannel reads up to some state and then reports that it is
   disconnected, in that state no subsender is left, not inside any message either, and every
   message sent has been taken but for those lost.
   */
  lemma RecvIsNotPremature(start: World, events: seq<Runs.Event>, w: World, me: Chan, closed: set<Chan>, r: Inbox,
                           c: SubChannelId)
    requires Runs.Reaches(start, events, w) && w.Shaped() && c in w.home && w.home[c] !in w.dead && !w.Gone(c)
    requires Tidy(r.st) && c in r.st.tables.subChannels
    requires IsHome(Multiplexing.After(me, closed, r, Receive(me, closed, r, c).handled), w, c)
    requires Receive(me, closed, r, c).outcome.Closed?
    ensures Life.Deserted(w.View(c)) && NowhereInside(w, c) && AllReceived(w, c)
  {
    hide Receive, Multiplexing.After, Tidy, IsHome, Runs.Reaches;
    RecvReportsEnd(me, closed, r, c, w);
    NoPrematureDisconnection(start, events, w, c);
  }
}
