/**
 The thread-local tables of `src/mux/ipc_channel.rs`, `src/mux/shared_memory.rs`,
 `src/mux/sender/mod.rs` and `src/mux/demux.rs`, which serialization and deserialization update
 in place, proved against the functions of module `OutOfBand`.
 */
module Contexts {
  import opened Basics
  import opened Protocol
  import opened OutOfBand

  class SerializationContext {
    var shm: seq<Handle>
    var tx: seq<Handle>
    var rx: seq<Handle>
    var subs: seq<Outgoing>
    var cells: Cells

    ghost function State(): Ser
      reads this
    {
      Ser(shm, tx, rx, subs, cells)
    }

    /** All four tables are cleared, as `send` does first. */
    method Clear()
      modifies this
      ensures State() == Cleared(old(State()))
    {
      shm, tx, rx, subs := [], [], [], [];
    }

    method Serialize(v: Message) returns (tokens: Option<seq<Token>>)
      modifies this
      ensures Encoded(State(), tokens) == Encode(v, old(State()))
      decreases v
    {
      match v
      case Plain(n) => tokens := Some([Num(n)]);
      case Shm(h) =>
        tokens := Some([Index(|shm|)]);
        shm := shm + [h];
      case Tx(h) =>
        tokens := Some([Index(|tx|)]);
        tx := tx + [h];
      case Rx(c) =>
        if c in cells && cells[c].Some? {
          tokens := Some([Index(|rx|)]);
          rx := rx + [cells[c].value];
          cells := cells[c := None];
        } else {
          tokens := None;
        }
      case Sub(o) =>
        tokens := Some([Ids(o.scid, o.uuid)]);
        subs := subs + [o];
      case Tuple(items) => tokens := SerializeAll(items);
      case Vec(items) =>
        tokens := SerializeAll(items);
        if tokens.Some? {
          tokens := Some([Len(Length(items))] + tokens.value);
        }
    }

    method SerializeAll(vs: Messages) returns (tokens: Option<seq<Token>>)
      modifies this
      ensures Encoded(State(), tokens) == EncodeAll(vs, old(State()))
      decreases vs
    {
      match vs
      case Nil => tokens := Some([]);
      case Cons(head, tail) =>
        tokens := Serialize(head);
        if tokens.Some? {
          var rest := SerializeAll(tail);
          tokens := if rest.Some? then Some(tokens.value + rest.value) else None;
        }
    }
  }

  class DeserializationContext<E> {
    var shm: Slots
    var tx: Slots
    var rx: Slots
    var eps: seq<E>
    var received: seq<Incoming<E>>

    ghost function State(): De<E>
      reads this
    {
      De(shm, tx, rx, eps, received)
    }

    /** The tables are filled from a message; what was in them is gone. */
    method Establish(s: Ser, eps: seq<E>)
      modifies this
      ensures State() == Established(s, eps, old(State()))
    {
      shm, tx, rx, this.eps := Somes(s.shm), Somes(s.tx), Somes(s.rx), eps;
    }

    method Deserialize(ty: Ty, tokens: seq<Token>) returns (result: Option<(Rebuilt<E>, seq<Token>)>)
      modifies this
      ensures Decoded(State(), result) == Decode(ty, tokens, old(State()))
      decreases ty, 0, 0
    {
      result := None;
      if ty.TTuple? {
        var fields := DeserializeFields(ty.fields, tokens);
        if fields.Some? {
          result := Some((Value.Tuple(fields.value.0), fields.value.1));
        }
        return;
      }
      if tokens == [] {
        return;
      }
      var token, rest := tokens[0], tokens[1..];
      match ty {
        case TPlain =>
          if token.Num? {
            result := Some((Value.Plain(token.n), rest));
          }
        case TShm =>
          if token.Index? && Slot(shm, token.i).Some? {
            result := Some((Value.Shm(Slot(shm, token.i).value), rest));
            shm := Without(shm, token.i);
          }
        case TTx =>
          if token.Index? && Slot(tx, token.i).Some? {
            result := Some((Value.Tx(Slot(tx, token.i).value), rest));
            tx := Without(tx, token.i);
          }
        case TRx =>
          if token.Index? && Slot(rx, token.i).Some? {
            result := Some((Value.Rx(Slot(rx, token.i).value), rest));
            rx := Without(rx, token.i);
          }
        case TSub =>
          if token.Ids? && |eps| > 0 {
            var sub := Incoming(token.scid, eps[0]);
            eps, received := eps[1..], received + [sub];
            result := Some((Value.Sub(sub), rest));
          }
        case TVec(elem) =>
          if token.Len? {
            var items := DeserializeItems(elem, token.n, rest);
            if items.Some? {
              result := Some((Value.Vec(items.value.0), items.value.1));
            }
          }
      }
    }

    method DeserializeFields(tys: Tys, tokens: seq<Token>) returns (result: Option<(Rebuilts<E>, seq<Token>)>)
      modifies this
      ensures Decoded(State(), result) == DecodeFields(tys, tokens, old(State()))
      decreases tys, 0, 0
    {
      match tys
      case TNil => result := Some((Nil, tokens));
      case TCons(head, tail) =>
        result := None;
        var first := Deserialize(head, tokens);
        if first.Some? {
          var others := DeserializeFields(tail, first.value.1);
          if others.Some? {
            result := Some((Cons(first.value.0, others.value.0), others.value.1));
          }
        }
    }

    method DeserializeItems(ty: Ty, n: nat, tokens: seq<Token>) returns (result: Option<(Rebuilts<E>, seq<Token>)>)
      modifies this
      ensures Decoded(State(), result) == DecodeItems(ty, n, tokens, old(State()))
      decreases ty, 1, n
    {
      if n == 0 {
        return Some((Nil, tokens));
      }
      result := None;
      var first := Deserialize(ty, tokens);
      if first.Some? {
        var others := DeserializeItems(ty, n - 1, first.value.1);
        if others.Some? {
          result := Some((Cons(first.value.0, others.value.0), others.value.1));
        }
      }
    }
  }
}
