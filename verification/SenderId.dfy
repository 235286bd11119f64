/**
 The two ends of the scheme that sends an IPC sender at most once over a channel
 (`src/mux/sender/sender_id.rs`): a source remembers the senders it has sent, a target the
 identifiers it has received together with their senders.
 */
module SenderId {
  import opened Basics
  import opened Protocol

  class Source<A(==)> {
    var senders: set<A>

    constructor ()
      ensures senders == {}
    {
      senders := {};
    }

    /** Whether the sender has been sent before; it has been, from now on. */
    method Insert(s: A) returns (alreadySent: bool)
      modifies this
      ensures alreadySent <==> s in old(senders)
      ensures senders == old(senders) + {s}
    {
      alreadySent := s in senders;
      senders := senders + {s};
    }

    /** The sender is dropped everywhere else, and its weak entry with it. */
    method Expire(s: A)
      modifies this
      ensures senders == old(senders) - {s}
    {
      senders := senders - {s};
    }
  }

  /** The first sender that comes with an identifier is kept. */
  function Associate<T>(senders: map<Uuid, T>, id: Uuid, s: T): map<Uuid, T> {
    if id in senders then senders else senders[id := s]
  }

  class Target<T> {
    var senders: map<Uuid, T>

    constructor ()
      ensures senders == map[]
    {
      senders := map[];
    }

    method Add(id: Uuid, s: T)
      modifies this
      ensures senders == Associate(old(senders), id, s)
    {
      if id !in senders {
        senders := senders[id := s];
      }
    }

    method LookUp(id: Uuid) returns (s: Option<T>)
      ensures s == if id in senders then Some(senders[id]) else None
    {
      if id in senders {
        s := Some(senders[id]);
      } else {
        s := None;
      }
    }
  }
}
