/** The message type of message.h: a header and a byte body used as a stack of typed values. */
module Message {
  import opened Common

  // ---------------------------------------------------------------- integers as bytes

  function Pow256(w: nat): nat {
    if w == 0 then 1 else 256 * Pow256(w - 1)
  }

  /** The object representation of an unsigned integer of `w` bytes, lowest byte first. */
  function ToBytes(n: nat, w: nat): (bs: seq<byte>)
    ensures |bs| == w
  {
    if w == 0 then [] else [n % 256] + ToBytes(n / 256, w - 1)
  }

  function FromBytes(bs: seq<byte>): nat {
    if bs == [] then 0 else bs[0] + 256 * FromBytes(bs[1..])
  }

  lemma {:induction false} FromToBytes(n: nat, w: nat)
    requires n < Pow256(w)
    ensures FromBytes(ToBytes(n, w)) == n
  {
    if w > 0 {
      FromToBytes(n / 256, w - 1);
      assert ToBytes(n, w)[1..] == ToBytes(n / 256, w - 1);
    }
  }

  lemma {:induction false} FromBytesBound(bs: seq<byte>)
    ensures FromBytes(bs) < Pow256(|bs|)
  {
    if bs != [] {
      FromBytesBound(bs[1..]);
    }
  }

  lemma LowByte(low: byte, rest: nat)
    ensures (low + 256 * rest) % 256 == low && (low + 256 * rest) / 256 == rest
  {
  }

  lemma {:induction false} ToFromBytes(bs: seq<byte>)
    ensures ToBytes(FromBytes(bs), |bs|) == bs
  {
    if bs != [] {
      ToFromBytes(bs[1..]);
      var n, rest := FromBytes(bs), FromBytes(bs[1..]);
      LowByte(bs[0], rest);
      assert n == bs[0] + 256 * rest;
      assert ToBytes(n, |bs|) == [n % 256] + ToBytes(n / 256, |bs| - 1);
      assert bs == [bs[0]] + bs[1..];
      hide FromBytes, ToBytes;
    }
  }

  // ---------------------------------------------------------------- typed values

  /** The standard-layout types the two programs push: `uint32_t` (identifiers, colours,
      directions), `int`, `size_t`, and a pair of `int` (`Position`, `PowerupData`). */
  datatype Kind = WordKind | IntKind | SizeKind | CellKind

  datatype Scalar = Word(word: uint32) | Int(int_: int32) | Size(size: uint64) | Cell(cell: Position)

  function KindOf(v: Scalar): Kind {
    match v
    case Word(_) => WordKind
    case Int(_) => IntKind
    case Size(_) => SizeKind
    case Cell(_) => CellKind
  }

  function Width(k: Kind): nat {
    match k
    case WordKind => 4
    case IntKind => 4
    case SizeKind => 8
    case CellKind => 8
  }

  /** `memcpy` from a value. */
  function Encode(v: Scalar): (bs: seq<byte>)
    ensures |bs| == Width(KindOf(v))
  {
    match v
    case Word(n) => ToBytes(n, 4)
    case Int(i) => ToBytes(AsUint32(i), 4)
    case Size(n) => ToBytes(n, 8)
    case Cell(p) => ToBytes(AsUint32(p.x), 4) + ToBytes(AsUint32(p.y), 4)
  }

  /** `memcpy` into a value. */
  function Decode(k: Kind, bs: seq<byte>): (v: Scalar)
    requires |bs| == Width(k)
    ensures KindOf(v) == k
  {
    FromBytesBound(bs);
    match k
    case WordKind => assert Pow256(4) == TWO_32; Word(FromBytes(bs))
    case IntKind => assert Pow256(4) == TWO_32; Int(AsInt32(FromBytes(bs)))
    case SizeKind => assert Pow256(8) == 0x1_0000_0000_0000_0000; Size(FromBytes(bs))
    case CellKind =>
      FromBytesBound(bs[..4]);
      FromBytesBound(bs[4..]);
      assert Pow256(4) == TWO_32;
      Cell(Position(AsInt32(FromBytes(bs[..4])), AsInt32(FromBytes(bs[4..]))))
  }

  lemma DecodeEncode(v: Scalar)
    ensures Decode(KindOf(v), Encode(v)) == v
  {
    match v
    case Word(n) => FromToBytes(n, 4);
    case Int(i) => FromToBytes(AsUint32(i), 4);
    case Size(n) => FromToBytes(n, 8);
    case Cell(p) =>
      FromToBytes(AsUint32(p.x), 4);
      FromToBytes(AsUint32(p.y), 4);
  }

  /** An `int` pushed on one side and popped as a `uint32_t` on the other, or the reverse. */
  lemma WordIntAgree(n: uint32, i: int32)
    ensures Decode(IntKind, Encode(Word(n))) == Int(AsInt32(n))
    ensures Decode(WordKind, Encode(Int(i))) == Word(AsUint32(i))
    ensures AsUint32(AsInt32(n)) == n && AsInt32(AsUint32(i)) == i
  {
    FromToBytes(n, 4);
    FromToBytes(AsUint32(i), 4);
  }

  // ---------------------------------------------------------------- the body as a stack

  function Push(body: seq<byte>, v: Scalar): seq<byte> {
    body + Encode(v)
  }

  /** One pop. It is undefined in the program when the body is shorter than the type. */
  function Pop(body: seq<byte>, k: Kind): (r: Option<(Scalar, seq<byte>)>)
    ensures r.Some? <==> Width(k) <= |body|
    ensures r.Some? ==> KindOf(r.value.0) == k && r.value.1 == body[..|body| - Width(k)]
  {
    if |body| < Width(k) then None
    else
      var i := |body| - Width(k);
      Some((Decode(k, body[i..]), body[..i]))
  }

  lemma PopPush(body: seq<byte>, v: Scalar)
    ensures Pop(Push(body, v), KindOf(v)) == Some((v, body))
  {
    DecodeEncode(v);
    var pushed := Push(body, v);
    var i := |pushed| - Width(KindOf(v));
    assert pushed[i..] == Encode(v) && pushed[..i] == body;
  }

  // ---------------------------------------------------------------- messages

  datatype Header = Header(id: uint32, bodySize: uint32)

  datatype Msg = Msg(header: Header, body: seq<byte>)

  /** What framing relies on: the announced size is the size of the body. */
  predicate Consistent(m: Msg) {
    m.header.bodySize == |m.body|
  }

  /** The value of `m` after `m << v`. */
  function Pushed(m: Msg, v: Scalar): Msg {
    var body := Push(m.body, v);
    Msg(m.header.(bodySize := |body| % TWO_32), body)
  }

  function PushedAll(m: Msg, vs: seq<Scalar>): Msg
    decreases |vs|
  {
    if vs == [] then m else PushedAll(Pushed(m, vs[0]), vs[1..])
  }

  /** The value and message left by `m >> v`. */
  function Popped(m: Msg, k: Kind): Option<(Scalar, Msg)> {
    match Pop(m.body, k)
    case None => None
    case Some((v, body)) => Some((v, Msg(m.header.(bodySize := |body| % TWO_32), body)))
  }

  /** Pops one value for each kind, in the order given. */
  function PoppedAll(m: Msg, ks: seq<Kind>): Option<(seq<Scalar>, Msg)>
    decreases |ks|
  {
    if ks == [] then Some(([], m))
    else
      match Popped(m, ks[0])
      case None => None
      case Some((v, rest)) =>
        match PoppedAll(rest, ks[1..])
        case None => None
        case Some((vs, end)) => Some(([v] + vs, end))
  }

  function Kinds(vs: seq<Scalar>): seq<Kind> {
    seq(|vs|, i requires 0 <= i < |vs| => KindOf(vs[i]))
  }

  lemma {:induction false} PushedAllSnoc(m: Msg, vs: seq<Scalar>, v: Scalar)
    ensures PushedAll(m, vs + [v]) == Pushed(PushedAll(m, vs), v)
    decreases |vs|
  {
    if vs == [] {
      assert vs + [v] == [v];
    } else {
      PushedAllSnoc(Pushed(m, vs[0]), vs[1..], v);
      assert (vs + [v])[1..] == vs[1..] + [v];
    }
  }

  /** Every push keeps the header in step with the body, modulo the cast to 32 bits. */
  lemma {:induction false} PushedAllSize(m: Msg, vs: seq<Scalar>)
    requires m.header.bodySize == |m.body| % TWO_32
    ensures var p := PushedAll(m, vs); p.header.id == m.header.id && p.header.bodySize == |p.body| % TWO_32
    ensures |PushedAll(m, vs).body| >= |m.body|
    ensures |PushedAll(m, vs).body| < TWO_32 ==> Consistent(PushedAll(m, vs))
    decreases |vs|
  {
    if vs != [] {
      PushedAllSize(Pushed(m, vs[0]), vs[1..]);
    }
  }

  lemma PoppedPushed(m: Msg, v: Scalar)
    requires m.header.bodySize == |m.body| % TWO_32
    ensures Popped(Pushed(m, v), KindOf(v)) == Some((v, m))
  {
    PopPush(m.body, v);
    hide Push, Pop, KindOf;
  }

  lemma KindsFirst(v: Scalar, vs: seq<Scalar>)
    ensures Kinds([v] + vs) == [KindOf(v)] + Kinds(vs)
  {
    hide KindOf;
  }

  lemma PoppedFirst(m: Msg, rest: Msg, v: Scalar, k: Kind, ks: seq<Kind>, vs: seq<Scalar>, end: Msg)
    requires Popped(m, k) == Some((v, rest)) && PoppedAll(rest, ks) == Some((vs, end))
    ensures PoppedAll(m, [k] + ks) == Some(([v] + vs, end))
  {
    hide Popped;
    assert ([k] + ks)[1..] == ks;
  }

  /** The stack law: any pushes, popped by the same types in reverse, give the values back and
      leave the body and the header as they were, for bodies of any size. */
  lemma {:induction false} StackLaw(m: Msg, vs: seq<Scalar>)
    requires m.header.bodySize == |m.body| % TWO_32
    ensures PoppedAll(PushedAll(m, vs), Kinds(Reverse(vs))) == Some((Reverse(vs), m))
    decreases |vs|
  {
    if vs != [] {
      var last := vs[|vs| - 1];
      var front := vs[..|vs| - 1];
      assert vs == front + [last];
      PushedAllSnoc(m, front, last);
      ReverseSnoc(front, last);
      PushedAllSize(m, front);
      StackLaw(m, front);
      hide PushedAll, PoppedAll, Pushed, Popped, Kinds, KindOf, Reverse;
      var before := PushedAll(m, front);
      PoppedPushed(before, last);
      KindsFirst(last, Reverse(front));
      PoppedFirst(PushedAll(m, vs), before, last, KindOf(last), Kinds(Reverse(front)), Reverse(front), m);
    } else {
      assert Kinds(Reverse(vs)) == [];
    }
  }

  lemma {:induction false} ReverseSnoc<T>(s: seq<T>, x: T)
    ensures Reverse(s + [x]) == [x] + Reverse(s)
  {
    if s == [] {
      assert s + [x] == [x];
    } else {
      ReverseSnoc(s[1..], x);
      assert (s + [x])[1..] == s[1..] + [x];
    }
  }

  // ---------------------------------------------------------------- the class

  /** A message under construction or being taken apart. */
  class MessageBuffer {
    var header: Header
    var body: seq<byte>

    function Value(): Msg
      reads this
    {
      Msg(header, body)
    }

    constructor (id: uint32)
      ensures Value() == Msg(Header(id, 0), [])
    {
      header := Header(id, 0);
      body := [];
    }

    /** The copy made when a message is taken out of a queue. */
    constructor Copy(m: Msg)
      ensures Value() == m
    {
      header := m.header;
      body := m.body;
    }

    method Push(v: Scalar)
      modifies this
      ensures Value() == Pushed(old(Value()), v)
    {
      body := body + Encode(v);
      header := header.(bodySize := |body| % TWO_32);
    }

    method Pop(k: Kind) returns (v: Scalar)
      requires Width(k) <= |body|
      modifies this
      ensures Popped(old(Value()), k) == Some((v, Value()))
    {
      var i := |body| - Width(k);
      v := Decode(k, body[i..]);
      body := body[..i];
      header := header.(bodySize := |body| % TWO_32);
    }
  }
}
