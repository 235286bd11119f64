/**
 Handles inside messages travel out of band: serialization leaves an index in the payload and
 puts the handle into a table, deserialization takes it out again (`src/mux/ipc_channel.rs`,
 `src/mux/shared_memory.rs`, and the subsender parts of `src/mux/sender/mod.rs` and
 `src/mux/demux.rs`).
 */
module OutOfBand {
  import opened Basics
  import opened Protocol

  type Handle = nat

  type Cell = nat

  /** A subsender inside a message, before it is sent: its subchannel and its IPC sender's identifier. */
  datatype Outgoing = Outgoing(scid: SubChannelId, uuid: Uuid)

  /** A subsender rebuilt from a message, with the connection it was paired with. */
  datatype Incoming<E> = Incoming(scid: SubChannelId, ep: E)

  /**
   A message. `R` is how it holds an IPC receiver: in a cell that can be emptied, before it is
   sent, and outright afterwards. `S` is how it holds a subsender.
   */
  datatype Value<R, S> =
    | Plain(n: nat)
    | Shm(h: Handle)
    | Tx(h: Handle)
    | Rx(r: R)
    | Sub(s: S)
    | Tuple(items: Values<R, S>)
    | Vec(items: Values<R, S>)

  datatype Values<R, S> = Nil | Cons(head: Value<R, S>, tail: Values<R, S>)

  /** The type of a message, which the receiver knows; the payload does not tell it. */
  datatype Ty = TPlain | TShm | TTx | TRx | TSub | TTuple(fields: Tys) | TVec(elem: Ty)

  datatype Tys = TNil | TCons(head: Ty, tail: Tys)

  datatype Token = Num(n: nat) | Index(i: nat) | Ids(scid: SubChannelId, uuid: Uuid) | Len(n: nat)

  function Length<R, S>(vs: Values<R, S>): nat {
    match vs case Nil => 0 case Cons(_, tail) => 1 + Length(tail)
  }

  predicate HasType<R, S>(v: Value<R, S>, ty: Ty)
    decreases v
  {
    match ty
    case TPlain => v.Plain?
    case TShm => v.Shm?
    case TTx => v.Tx?
    case TRx => v.Rx?
    case TSub => v.Sub?
    case TTuple(fields) => v.Tuple? && HasTypes(v.items, fields)
    case TVec(elem) => v.Vec? && AllHaveType(v.items, elem)
  }

  predicate HasTypes<R, S>(vs: Values<R, S>, tys: Tys)
    decreases vs
  {
    match vs
    case Nil => tys.TNil?
    case Cons(head, tail) => tys.TCons? && HasType(head, tys.head) && HasTypes(tail, tys.tail)
  }

  predicate AllHaveType<R, S>(vs: Values<R, S>, ty: Ty)
    decreases vs
  {
    match vs
    case Nil => true
    case Cons(head, tail) => HasType(head, ty) && AllHaveType(tail, ty)
  }

  // ---------------------------------------------------------------------------------------
  // Serialization
  // ---------------------------------------------------------------------------------------

  type Message = Value<Cell, Outgoing>

  type Messages = Values<Cell, Outgoing>

  type Cells = map<Cell, Option<Handle>>

  /** The tables that fill up during serialization, and the cells of IPC receivers. */
  datatype Ser = Ser(shm: seq<Handle>, tx: seq<Handle>, rx: seq<Handle>, subs: seq<Outgoing>, cells: Cells)

  datatype Encoded = Encoded(ser: Ser, tokens: Option<seq<Token>>)

  function Encode(v: Message, s: Ser): Encoded
    decreases v
  {
    match v
    case Plain(n) => Encoded(s, Some([Num(n)]))
    case Shm(h) => Encoded(s.(shm := s.shm + [h]), Some([Index(|s.shm|)]))
    case Tx(h) => Encoded(s.(tx := s.tx + [h]), Some([Index(|s.tx|)]))
    case Rx(c) =>
      if c in s.cells && s.cells[c].Some? then
        Encoded(s.(rx := s.rx + [s.cells[c].value], cells := s.cells[c := None]), Some([Index(|s.rx|)]))
      else Encoded(s, None)
    case Sub(o) => Encoded(s.(subs := s.subs + [o]), Some([Ids(o.scid, o.uuid)]))
    case Tuple(items) => EncodeAll(items, s)
    case Vec(items) =>
      var e := EncodeAll(items, s);
      if e.tokens.None? then e else Encoded(e.ser, Some([Len(Length(items))] + e.tokens.value))
  }

  function EncodeAll(vs: Messages, s: Ser): Encoded
    decreases vs
  {
    match vs
    case Nil => Encoded(s, Some([]))
    case Cons(head, tail) =>
      var e := Encode(head, s);
      if e.tokens.None? then e
      else
        var f := EncodeAll(tail, e.ser);
        if f.tokens.None? then f else Encoded(f.ser, Some(e.tokens.value + f.tokens.value))
  }

  /** The cells of the IPC receivers in a message, in the order in which they are serialized. */
  function CellsOf(v: Message): seq<Cell>
    decreases v
  {
    match v
    case Rx(c) => [c]
    case Tuple(items) => AllCells(items)
    case Vec(items) => AllCells(items)
    case _ => []
  }

  function AllCells(vs: Messages): seq<Cell>
    decreases vs
  {
    match vs case Nil => [] case Cons(head, tail) => CellsOf(head) + AllCells(tail)
  }

  /** Each cell holds a receiver, until it is emptied by the first use. */
  predicate Takable(cs: seq<Cell>, cells: Cells) {
    cs == [] || (cs[0] in cells && cells[cs[0]].Some? && Takable(cs[1..], cells[cs[0] := None]))
  }

  function Emptied(cs: seq<Cell>, cells: Cells): Cells {
    if cs == [] then cells else Emptied(cs[1..], cells[cs[0] := None])
  }

  lemma {:induction false} TakableConcat(a: seq<Cell>, b: seq<Cell>, cells: Cells)
    ensures Takable(a + b, cells) <==> Takable(a, cells) && Takable(b, Emptied(a, cells))
    ensures Emptied(a + b, cells) == Emptied(b, Emptied(a, cells))
    decreases |a|
  {
    if a == [] {
      assert a + b == b;
    } else {
      assert (a + b)[1..] == a[1..] + b;
      TakableConcat(a[1..], b, cells[a[0] := None]);
    }
  }

  /** Serialization succeeds exactly if it finds every IPC receiver in its cell. */
  lemma {:induction false} EncodeSucceedsIff(v: Message, s: Ser)
    ensures Encode(v, s).tokens.Some? <==> Takable(CellsOf(v), s.cells)
    ensures Encode(v, s).tokens.Some? ==> Encode(v, s).ser.cells == Emptied(CellsOf(v), s.cells)
    decreases v
  {
    match v
    case Rx(c) => assert [c][1..] == [];
    case Tuple(items) => EncodeAllSucceedsIff(items, s);
    case Vec(items) => EncodeAllSucceedsIff(items, s);
    case _ =>
  }

  lemma {:induction false} EncodeAllSucceedsIff(vs: Messages, s: Ser)
    ensures EncodeAll(vs, s).tokens.Some? <==> Takable(AllCells(vs), s.cells)
    ensures EncodeAll(vs, s).tokens.Some? ==> EncodeAll(vs, s).ser.cells == Emptied(AllCells(vs), s.cells)
    decreases vs
  {
    match vs
    case Nil =>
    case Cons(head, tail) =>
      EncodeSucceedsIff(head, s);
      EncodeAllSucceedsIff(tail, Encode(head, s).ser);
      TakableConcat(CellsOf(head), AllCells(tail), s.cells);
  }

  /** So an IPC receiver can be sent only once: neither twice in a message nor in two. */
  lemma {:induction false} TakableIsOnce(cs: seq<Cell>, cells: Cells)
    ensures Takable(cs, cells) <==>
              (forall i | 0 <= i < |cs| :: cs[i] in cells && cells[cs[i]].Some?)
              && (forall i, j | 0 <= i < j < |cs| :: cs[i] != cs[j])
    decreases |cs|
  {
    if cs != [] {
      var rest, cells' := cs[1..], cells[cs[0] := None];
      TakableIsOnce(rest, cells');
      assert forall i | 0 < i < |cs| :: cs[i] == rest[i - 1];
      if Takable(cs, cells) {
        forall i, j | 0 <= i < j < |cs| ensures cs[i] != cs[j] {
          assert cs[j] == rest[j - 1] && cells'[rest[j - 1]].Some?;
          if i > 0 {
            assert cs[i] == rest[i - 1];
          }
        }
      }
      if (forall i | 0 <= i < |cs| :: cs[i] in cells && cells[cs[i]].Some?)
          && (forall i, j | 0 <= i < j < |cs| :: cs[i] != cs[j]) {
        forall i | 0 <= i < |rest| ensures rest[i] in cells' && cells'[rest[i]].Some? {
          assert rest[i] == cs[i + 1] && cs[0] != cs[i + 1];
        }
        forall i, j | 0 <= i < j < |rest| ensures rest[i] != rest[j] {
          assert rest[i] == cs[i + 1] && rest[j] == cs[j + 1];
        }
      }
    }
  }

  // ---------------------------------------------------------------------------------------
  // Deserialization
  // ---------------------------------------------------------------------------------------

  type Slots = seq<Option<Handle>>

  /**
   The tables that are emptied during deserialization. `eps` are the connections that wait to be
   paired with subsenders, and `received` the subsenders whose arrival was reported, each to the
   connection it was paired with.
   */
  datatype De<E> = De(shm: Slots, tx: Slots, rx: Slots, eps: seq<E>, received: seq<Incoming<E>>)

  type Rebuilt<E> = Value<Handle, Incoming<E>>

  type Rebuilts<E> = Values<Handle, Incoming<E>>

  datatype Decoded<V, E> = Decoded(de: De<E>, result: Option<(V, seq<Token>)>)

  function Slot(slots: Slots, i: nat): Option<Handle> {
    if i < |slots| then slots[i] else None
  }

  function Without(slots: Slots, i: nat): Slots {
    if i < |slots| then slots[i := None] else slots
  }

  function Decode<E>(ty: Ty, tokens: seq<Token>, d: De<E>): Decoded<Rebuilt<E>, E>
    decreases ty, 0, 0
  {
    if tokens == [] && !ty.TTuple? then Decoded(d, None)
    else match ty
      case TPlain => Decoded(d, if tokens[0].Num? then Some((Value.Plain(tokens[0].n), tokens[1..])) else None)
      case TShm =>
        if !tokens[0].Index? || Slot(d.shm, tokens[0].i).None? then Decoded(d, None)
        else Decoded(d.(shm := Without(d.shm, tokens[0].i)),
                     Some((Value.Shm(Slot(d.shm, tokens[0].i).value), tokens[1..])))
      case TTx =>
        if !tokens[0].Index? || Slot(d.tx, tokens[0].i).None? then Decoded(d, None)
        else Decoded(d.(tx := Without(d.tx, tokens[0].i)), Some((Value.Tx(Slot(d.tx, tokens[0].i).value), tokens[1..])))
      case TRx =>
        if !tokens[0].Index? || Slot(d.rx, tokens[0].i).None? then Decoded(d, None)
        else Decoded(d.(rx := Without(d.rx, tokens[0].i)), Some((Value.Rx(Slot(d.rx, tokens[0].i).value), tokens[1..])))
      case TSub =>
        if !tokens[0].Ids? || d.eps == [] then Decoded(d, None)
        else
          var sub := Incoming(tokens[0].scid, d.eps[0]);
          Decoded(d.(eps := d.eps[1..], received := d.received + [sub]), Some((Value.Sub(sub), tokens[1..])))
      case TTuple(fields) =>
        var r := DecodeFields(fields, tokens, d);
        Decoded(r.de, if r.result.None? then None else Some((Value.Tuple(r.result.value.0), r.result.value.1)))
      case TVec(elem) =>
        if !tokens[0].Len? then Decoded(d, None)
        else
          var r := DecodeItems(elem, tokens[0].n, tokens[1..], d);
          Decoded(r.de, if r.result.None? then None else Some((Value.Vec(r.result.value.0), r.result.value.1)))
  }

  function DecodeFields<E>(tys: Tys, tokens: seq<Token>, d: De<E>): Decoded<Rebuilts<E>, E>
    decreases tys, 0, 0
  {
    match tys
    case TNil => Decoded(d, Some((Nil, tokens)))
    case TCons(head, tail) =>
      var r := Decode(head, tokens, d);
      if r.result.None? then Decoded(r.de, None)
      else
        var q := DecodeFields(tail, r.result.value.1, r.de);
        Decoded(q.de,
                if q.result.None? then None else Some((Cons(r.result.value.0, q.result.value.0), q.result.value.1)))
  }

  function DecodeItems<E>(ty: Ty, n: nat, tokens: seq<Token>, d: De<E>): Decoded<Rebuilts<E>, E>
    decreases ty, 1, n
  {
    if n == 0 then Decoded(d, Some((Nil, tokens)))
    else
      var r := Decode(ty, tokens, d);
      if r.result.None? then Decoded(r.de, None)
      else
        var q := DecodeItems(ty, n - 1, r.result.value.1, r.de);
        Decoded(q.de,
                if q.result.None? then None else Some((Cons(r.result.value.0, q.result.value.0), q.result.value.1)))
  }

  // ---------------------------------------------------------------------------------------
  // The round trip
  // ---------------------------------------------------------------------------------------

  function SubsOf(v: Message): seq<Outgoing>
    decreases v
  {
    match v
    case Sub(o) => [o]
    case Tuple(items) => AllSubs(items)
    case Vec(items) => AllSubs(items)
    case _ => []
  }

  function AllSubs(vs: Messages): seq<Outgoing>
    decreases vs
  {
    match vs case Nil => [] case Cons(head, tail) => SubsOf(head) + AllSubs(tail)
  }

  predicate Holds(cs: seq<Cell>, cells: Cells) {
    forall i | 0 <= i < |cs| :: cs[i] in cells && cells[cs[i]].Some?
  }

  /** The message as the receiver should see it, its k-th subsender paired with the k-th connection. */
  function Rebuild<E>(v: Message, cells: Cells, eps: seq<E>): Rebuilt<E>
    requires |eps| == |SubsOf(v)| && Holds(CellsOf(v), cells)
    decreases v
  {
    match v
    case Plain(n) => Value.Plain(n)
    case Shm(h) => Value.Shm(h)
    case Tx(h) => Value.Tx(h)
    case Rx(c) => assert CellsOf(v)[0] == c; Value.Rx(cells[c].value)
    case Sub(o) => Value.Sub(Incoming(o.scid, eps[0]))
    case Tuple(items) => Value.Tuple(RebuildAll(items, cells, eps))
    case Vec(items) => Value.Vec(RebuildAll(items, cells, eps))
  }

  function RebuildAll<E>(vs: Messages, cells: Cells, eps: seq<E>): Rebuilts<E>
    requires |eps| == |AllSubs(vs)| && Holds(AllCells(vs), cells)
    decreases vs
  {
    match vs
    case Nil => Values.Nil
    case Cons(head, tail) =>
      assert forall i | 0 <= i < |CellsOf(head)| :: AllCells(vs)[i] == CellsOf(head)[i];
      assert forall i | 0 <= i < |AllCells(tail)| :: AllCells(vs)[|CellsOf(head)| + i] == AllCells(tail)[i];
      var k := |SubsOf(head)|;
      Values.Cons(Rebuild(head, cells, eps[..k]), RebuildAll(tail, cells, eps[k..]))
  }

  function Nones(n: nat): Slots {
    seq(n, _ => None)
  }

  function Somes(hs: seq<Handle>): Slots {
    seq(|hs|, i requires 0 <= i < |hs| => Some(hs[i]))
  }

  /** Slots of which the first `used` are empty and the next ones full. */
  function Stock(used: nat, full: seq<Handle>, rest: Slots): Slots {
    Nones(used) + Somes(full) + rest
  }

  function Arrivals<E>(subs: seq<Outgoing>, eps: seq<E>): seq<Incoming<E>>
    requires |subs| == |eps|
  {
    seq(|subs|, i requires 0 <= i < |subs| => Incoming(subs[i].scid, eps[i]))
  }

  /** The tables only grow. */
  predicate Grown(s: Ser, e: Ser) {
    s.shm <= e.shm && s.tx <= e.tx && s.rx <= e.rx
  }

  datatype Remainder<E> = Remainder(shm: Slots, tx: Slots, rx: Slots, eps: seq<E>)

  /** About to decode what was encoded between `s` and `e`. */
  function Poised<E>(s: Ser, e: Ser, eps: seq<E>, r: Remainder<E>, received: seq<Incoming<E>>): De<E>
    requires Grown(s, e)
  {
    De(Stock(|s.shm|, e.shm[|s.shm|..], r.shm), Stock(|s.tx|, e.tx[|s.tx|..], r.tx),
       Stock(|s.rx|, e.rx[|s.rx|..], r.rx),
       eps + r.eps, received)
  }

  /** All of it has been decoded. */
  function Spent<E>(e: Ser, r: Remainder<E>, received: seq<Incoming<E>>): De<E> {
    De(Stock(|e.shm|, [], r.shm), Stock(|e.tx|, [], r.tx), Stock(|e.rx|, [], r.rx), r.eps, received)
  }

  lemma {:induction false} EncodeGrows(v: Message, s: Ser)
    ensures Grown(s, Encode(v, s).ser)
    ensures Encode(v, s).tokens.Some? ==> Encode(v, s).ser.subs == s.subs + SubsOf(v)
    decreases v
  {
    match v
    case Tuple(items) => EncodeAllGrows(items, s);
    case Vec(items) => EncodeAllGrows(items, s);
    case _ =>
  }

  lemma {:induction false} EncodeAllGrows(vs: Messages, s: Ser)
    ensures Grown(s, EncodeAll(vs, s).ser)
    ensures EncodeAll(vs, s).tokens.Some? ==> EncodeAll(vs, s).ser.subs == s.subs + AllSubs(vs)
    decreases vs
  {
    match vs
    case Nil => assert s.subs + [] == s.subs;
    case Cons(head, tail) =>
      EncodeGrows(head, s);
      EncodeAllGrows(tail, Encode(head, s).ser);
      assert s.subs + SubsOf(head) + AllSubs(tail) == s.subs + (SubsOf(head) + AllSubs(tail));
  }

  lemma StockSplits(a: seq<Handle>, b: seq<Handle>, c: seq<Handle>, rest: Slots)
    requires a <= b <= c
    ensures Stock(|a|, c[|a|..], rest) == Stock(|a|, b[|a|..], Somes(c[|b|..]) + rest)
    ensures Stock(|b|, [], Somes(c[|b|..]) + rest) == Stock(|b|, c[|b|..], rest)
  {
  }

  /** What remains once the part up to `m` has been decoded. */
  function Beyond<E>(m: Ser, e: Ser, eps: seq<E>, r: Remainder<E>): Remainder<E>
    requires Grown(m, e)
  {
    Remainder(Somes(e.shm[|m.shm|..]) + r.shm, Somes(e.tx[|m.tx|..]) + r.tx, Somes(e.rx[|m.rx|..]) + r.rx, eps + r.eps)
  }

  lemma PoisedSplits<E>(s: Ser, m: Ser, e: Ser, a: seq<E>, b: seq<E>, r: Remainder<E>, received: seq<Incoming<E>>)
    requires Grown(s, m) && Grown(m, e)
    ensures Grown(s, e)
    ensures Poised(s, e, a + b, r, received) == Poised(s, m, a, Beyond(m, e, b, r), received)
    ensures Spent(m, Beyond(m, e, b, r), received) == Poised(m, e, b, r, received)
  {
    StockSplits(s.shm, m.shm, e.shm, r.shm);
    StockSplits(s.tx, m.tx, e.tx, r.tx);
    StockSplits(s.rx, m.rx, e.rx, r.rx);
    assert a + (b + r.eps) == (a + b) + r.eps;
  }

  lemma TakesSlot(used: nat, h: Handle, rest: Slots)
    ensures Slot(Stock(used, [h], rest), used) == Some(h)
    ensures Without(Stock(used, [h], rest), used) == Stock(used + 1, [], rest)
  {
  }

  lemma StockNothing(n: nat, hs: seq<Handle>, rest: Slots)
    requires |hs| == n
    ensures Stock(n, hs[n..], rest) == Stock(n, [], rest)
  {
  }

  /** Decoding what was encoded gives the message back and uses up exactly its part of each table. */
  ghost predicate ComesBack<E>(v: Message, ty: Ty, s: Ser, cells: Cells, eps: seq<E>, r: Remainder<E>,
                         received: seq<Incoming<E>>, rest: seq<Token>)
    requires |eps| == |SubsOf(v)| && Holds(CellsOf(v), cells)
    requires Encode(v, s).tokens.Some? && Grown(s, Encode(v, s).ser)
  {
    var e := Encode(v, s);
    Decode(ty, e.tokens.value + rest, Poised(s, e.ser, eps, r, received))
    == Decoded(Spent(e.ser, r, received + Arrivals(SubsOf(v), eps)), Some((Rebuild(v, cells, eps), rest)))
  }

  /** The cells that are yet to be emptied are as they were at first. */
  predicate Agree(cs: seq<Cell>, s: Ser, cells: Cells) {
    forall i | 0 <= i < |cs| :: cs[i] in cells &&
        (cs[i] in s.cells && s.cells[cs[i]].Some? ==> s.cells[cs[i]] == cells[cs[i]])
  }

  lemma LeafComesBack<E>(v: Message, ty: Ty, s: Ser, cells: Cells, eps: seq<E>, r: Remainder<E>,
                         received: seq<Incoming<E>>, rest: seq<Token>)
    requires HasType(v, ty) && !v.Tuple? && !v.Vec? && Agree(CellsOf(v), s, cells) && Holds(CellsOf(v), cells)
    requires |eps| == |SubsOf(v)| && Encode(v, s).tokens.Some? && Grown(s, Encode(v, s).ser)
    ensures ComesBack(v, ty, s, cells, eps, r, received, rest)
  {
    var e := Encode(v, s);
    assert (e.tokens.value + rest)[1..] == rest;
    StockNothing(|e.ser.shm|, e.ser.shm, r.shm);
    StockNothing(|e.ser.tx|, e.ser.tx, r.tx);
    StockNothing(|e.ser.rx|, e.ser.rx, r.rx);
    match v
    case Plain(_) => assert received + [] == received && eps + r.eps == r.eps;
    case Shm(h) =>
      assert e.ser.shm[|s.shm|..] == [h] && received + [] == received && eps + r.eps == r.eps;
      TakesSlot(|s.shm|, h, r.shm);
    case Tx(h) =>
      assert e.ser.tx[|s.tx|..] == [h] && received + [] == received && eps + r.eps == r.eps;
      TakesSlot(|s.tx|, h, r.tx);
    case Rx(c) =>
      assert CellsOf(v)[0] == c;
      assert e.ser.rx[|s.rx|..] == [cells[c].value] && received + [] == received && eps + r.eps == r.eps;
      TakesSlot(|s.rx|, cells[c].value, r.rx);
    case Sub(o) =>
      assert (eps + r.eps)[1..] == r.eps;
      assert Arrivals([o], eps) == [Incoming(o.scid, eps[0])];
  }

  /** Emptying cells of one part leaves those of another part, that can be emptied later, alone. */
  lemma {:induction false} EncodeAgrees(v: Message, s: Ser, c: Cell)
    ensures var t := Encode(v, s).ser.cells;
            c in t && t[c].Some? ==> c in s.cells && t[c] == s.cells[c]
    decreases v
  {
    match v
    case Tuple(items) => EncodeAllAgrees(items, s, c);
    case Vec(items) => EncodeAllAgrees(items, s, c);
    case _ =>
  }

  lemma {:induction false} EncodeAllAgrees(vs: Messages, s: Ser, c: Cell)
    ensures var t := EncodeAll(vs, s).ser.cells;
            c in t && t[c].Some? ==> c in s.cells && t[c] == s.cells[c]
    decreases vs
  {
    match vs
    case Nil =>
    case Cons(head, tail) =>
      EncodeAgrees(head, s, c);
      EncodeAllAgrees(tail, Encode(head, s).ser, c);
  }

  /** The first and the remaining elements of a list, one after the other. */
  lemma ConsSplits<E>(vs: Messages, s: Ser, cells: Cells, eps: seq<E>, r: Remainder<E>, received: seq<Incoming<E>>)
    requires vs.Cons? && EncodeAll(vs, s).tokens.Some? && |eps| == |AllSubs(vs)|
    requires Holds(AllCells(vs), cells) && Agree(AllCells(vs), s, cells)
    ensures var e, f := Encode(vs.head, s), EncodeAll(vs, s);
            var k := |SubsOf(vs.head)|;
            && e.tokens.Some? && Grown(s, e.ser) && Grown(e.ser, f.ser) && Grown(s, f.ser)
            && EncodeAll(vs.tail, e.ser).tokens.Some? && EncodeAll(vs.tail, e.ser).ser == f.ser
            && f.tokens.value == e.tokens.value + EncodeAll(vs.tail, e.ser).tokens.value
            && |eps[..k]| == k && |eps[k..]| == |AllSubs(vs.tail)|
            && Holds(CellsOf(vs.head), cells) && Holds(AllCells(vs.tail), cells)
            && Agree(CellsOf(vs.head), s, cells) && Agree(AllCells(vs.tail), e.ser, cells)
            && Poised(s, f.ser, eps, r, received)
               == Poised(s, e.ser, eps[..k], Beyond(e.ser, f.ser, eps[k..], r), received)
            && Arrivals(AllSubs(vs), eps) == Arrivals(SubsOf(vs.head), eps[..k]) + Arrivals(AllSubs(vs.tail), eps[k..])
  {
    var e := Encode(vs.head, s);
    var k := |SubsOf(vs.head)|;
    EncodeGrows(vs.head, s);
    EncodeAllGrows(vs.tail, e.ser);
    assert eps[..k] + eps[k..] == eps;
    PoisedSplits(s, e.ser, EncodeAll(vs, s).ser, eps[..k], eps[k..], r, received);
    ConsCells(vs, s, cells);
  }

  lemma ConsCells(vs: Messages, s: Ser, cells: Cells)
    requires vs.Cons? && Holds(AllCells(vs), cells) && Agree(AllCells(vs), s, cells)
    ensures Holds(CellsOf(vs.head), cells) && Holds(AllCells(vs.tail), cells)
    ensures Agree(CellsOf(vs.head), s, cells) && Agree(AllCells(vs.tail), Encode(vs.head, s).ser, cells)
  {
    var all, a, b := AllCells(vs), CellsOf(vs.head), AllCells(vs.tail);
    forall i | 0 <= i < |a|
      ensures a[i] in cells && cells[a[i]].Some? &&
              (a[i] in s.cells && s.cells[a[i]].Some? ==> s.cells[a[i]] == cells[a[i]])
    {
      assert all[i] == a[i];
    }
    var t := Encode(vs.head, s).ser.cells;
    forall i | 0 <= i < |b|
      ensures b[i] in cells && cells[b[i]].Some? && (b[i] in t && t[b[i]].Some? ==> t[b[i]] == cells[b[i]])
    {
      assert all[|a| + i] == b[i];
      EncodeAgrees(vs.head, s, b[i]);
    }
  }

  lemma {:induction false} ValueComesBack<E>(v: Message, ty: Ty, s: Ser, cells: Cells, eps: seq<E>, r: Remainder<E>,
                                             received: seq<Incoming<E>>, rest: seq<Token>)
    requires HasType(v, ty) && Encode(v, s).tokens.Some? && |eps| == |SubsOf(v)|
    requires Holds(CellsOf(v), cells) && Agree(CellsOf(v), s, cells)
    ensures Grown(s, Encode(v, s).ser) && ComesBack(v, ty, s, cells, eps, r, received, rest)
    decreases v
  {
    EncodeGrows(v, s);
    match v
    case Tuple(items) => FieldsComeBack(items, ty.fields, s, cells, eps, r, received, rest);
    case Vec(items) =>
      var e := EncodeAll(items, s);
      ItemsComeBack(items, ty.elem, s, cells, eps, r, received, rest);
      assert ([Len(Length(items))] + e.tokens.value + rest)[1..] == e.tokens.value + rest;
    case _ => LeafComesBack(v, ty, s, cells, eps, r, received, rest);
  }

  lemma {:induction false} FieldsComeBack<E>(vs: Messages, tys: Tys, s: Ser, cells: Cells, eps: seq<E>, r: Remainder<E>,
                                             received: seq<Incoming<E>>, rest: seq<Token>)
    requires HasTypes(vs, tys) && EncodeAll(vs, s).tokens.Some? && |eps| == |AllSubs(vs)|
    requires Holds(AllCells(vs), cells) && Agree(AllCells(vs), s, cells)
    ensures var f := EncodeAll(vs, s);
            Grown(s, f.ser)
            && DecodeFields(tys, f.tokens.value + rest, Poised(s, f.ser, eps, r, received))
               == Decoded(Spent(f.ser, r, received + Arrivals(AllSubs(vs), eps)),
                          Some((RebuildAll(vs, cells, eps), rest)))
    decreases vs
  {
    if vs.Nil? {
      NothingEncoded(s, eps, r, received);
      assert [] + rest == rest && received + Arrivals([], eps) == received;
    } else {
      var e, f := Encode(vs.head, s), EncodeAll(vs, s);
      var k := |SubsOf(vs.head)|;
      ConsSplits(vs, s, cells, eps, r, received);
      var g := EncodeAll(vs.tail, e.ser);
      var received' := received + Arrivals(SubsOf(vs.head), eps[..k]);
      ValueComesBack(vs.head, tys.head, s, cells, eps[..k], Beyond(e.ser, f.ser, eps[k..], r), received,
                     g.tokens.value + rest);
      PoisedSplits(s, e.ser, f.ser, eps[..k], eps[k..], r, received');
      FieldsComeBack(vs.tail, tys.tail, e.ser, cells, eps[k..], r, received', rest);
      Reassociate(e.tokens.value, g.tokens.value, rest);
      Reassociate(received, Arrivals(SubsOf(vs.head), eps[..k]), Arrivals(AllSubs(vs.tail), eps[k..]));
    }
  }

  lemma {:induction false} ItemsComeBack<E>(vs: Messages, ty: Ty, s: Ser, cells: Cells, eps: seq<E>, r: Remainder<E>,
                                            received: seq<Incoming<E>>, rest: seq<Token>)
    requires AllHaveType(vs, ty) && EncodeAll(vs, s).tokens.Some? && |eps| == |AllSubs(vs)|
    requires Holds(AllCells(vs), cells) && Agree(AllCells(vs), s, cells)
    ensures var f := EncodeAll(vs, s);
            Grown(s, f.ser)
            && DecodeItems(ty, Length(vs), f.tokens.value + rest, Poised(s, f.ser, eps, r, received))
               == Decoded(Spent(f.ser, r, received + Arrivals(AllSubs(vs), eps)),
                          Some((RebuildAll(vs, cells, eps), rest)))
    decreases vs
  {
    if vs.Nil? {
      NothingEncoded(s, eps, r, received);
      assert [] + rest == rest && received + Arrivals([], eps) == received;
    } else {
      hide Poised, Spent, Beyond, Arrivals, Agree, Holds, Grown;
      var e, f := Encode(vs.head, s), EncodeAll(vs, s);
      var k := |SubsOf(vs.head)|;
      ConsSplits(vs, s, cells, eps, r, received);
      var g := EncodeAll(vs.tail, e.ser);
      var received' := received + Arrivals(SubsOf(vs.head), eps[..k]);
      ValueComesBack(vs.head, ty, s, cells, eps[..k], Beyond(e.ser, f.ser, eps[k..], r), received,
                     g.tokens.value + rest);
      PoisedSplits(s, e.ser, f.ser, eps[..k], eps[k..], r, received');
      ItemsComeBack(vs.tail, ty, e.ser, cells, eps[k..], r, received', rest);
      Reassociate(e.tokens.value, g.tokens.value, rest);
      Reassociate(received, Arrivals(SubsOf(vs.head), eps[..k]), Arrivals(AllSubs(vs.tail), eps[k..]));
    }
  }

  lemma Reassociate<T>(a: seq<T>, b: seq<T>, c: seq<T>)
    ensures (a + b) + c == a + (b + c)
  {
  }

  lemma NothingEncoded<E>(s: Ser, eps: seq<E>, r: Remainder<E>, received: seq<Incoming<E>>)
    requires eps == []
    ensures Poised(s, s, eps, r, received) == Spent(s, r, received)
  {
  }

  // ---------------------------------------------------------------------------------------
  // Sending and receiving whole messages
  // ---------------------------------------------------------------------------------------

  /** `send` clears the tables before it serializes. */
  function Cleared(s: Ser): Ser {
    Ser([], [], [], [], s.cells)
  }

  /** The receiver fills the tables from the message, whatever was in them before. */
  function Established<E>(s: Ser, eps: seq<E>, before: De<E>): De<E> {
    De(Somes(s.shm), Somes(s.tx), Somes(s.rx), eps, before.received)
  }

  /**
   Whatever earlier messages have left in the tables on either side, decoding what `send` encodes
   gives the message back, with the k-th subsender paired with the k-th connection. Every slot is
   used, and so is every connection; no token is left; and the arrival of each subsender is
   reported once, in order.
   */
  lemma RoundTrip<E>(v: Message, ty: Ty, s: Ser, eps: seq<E>, before: De<E>)
    requires HasType(v, ty) && Encode(v, Cleared(s)).tokens.Some? && |eps| == |SubsOf(v)|
    ensures var e := Encode(v, Cleared(s));
            && Holds(CellsOf(v), s.cells) && e.ser.subs == SubsOf(v)
            && Decode(ty, e.tokens.value, Established(e.ser, eps, before))
               == Decoded(De(Nones(|e.ser.shm|), Nones(|e.ser.tx|), Nones(|e.ser.rx|), [],
                             before.received + Arrivals(SubsOf(v), eps)),
                          Some((Rebuild(v, s.cells, eps), [])))
  {
    var t, e := Cleared(s), Encode(v, Cleared(s));
    EncodeSucceedsIff(v, t);
    TakableIsOnce(CellsOf(v), t.cells);
    EncodeGrows(v, t);
    var r := Remainder([], [], [], []);
    ValueComesBack(v, ty, t, s.cells, eps, r, before.received, []);
    assert e.tokens.value + [] == e.tokens.value;
    StockAll(e.ser.shm);
    StockAll(e.ser.tx);
    StockAll(e.ser.rx);
    assert eps + [] == eps;
  }

  lemma StockAll(hs: seq<Handle>)
    ensures Stock(0, hs[0..], []) == Somes(hs) && Stock(|hs|, [], []) == Nones(|hs|)
  {
  }
}
