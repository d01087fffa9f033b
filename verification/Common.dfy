/** Constants and small types shared by the client and the server. */
module Common {
  const GRID_WIDTH := 40
  const GRID_HEIGHT := 30

  const TWO_32 := 0x1_0000_0000

  type byte = n: int | 0 <= n < 0x100
  type uint32 = n: int | 0 <= n < 0x1_0000_0000
  type uint64 = n: int | 0 <= n < 0x1_0000_0000_0000_0000
  type int32 = n: int | -0x8000_0000 <= n < 0x8000_0000

  datatype Option<+T> = None | Some(value: T)

  type Unnamed = n: int | 4 <= n < 0x1_0000_0000 witness 4

  /** A `Direction` is any `uint32_t`; four values have names, and a message can carry the others. */
  datatype Direction = Up | Right | Down | Left | Beyond(value: Unnamed)

  datatype Position = Position(x: int32, y: int32)

  /** What a value-initialised `Position`, `PowerupData` or `Powerup` holds. */
  const ORIGIN := Position(0, 0)

  predicate InGrid(p: Position) {
    0 <= p.x < GRID_WIDTH && 0 <= p.y < GRID_HEIGHT
  }

  function Opposite(d: Direction): Direction {
    match d
    case Up => Down
    case Down => Up
    case Left => Right
    case Right => Left
    case Beyond(_) => d
  }

  function Direction32(d: Direction): uint32 {
    match d
    case Up => 0
    case Right => 1
    case Down => 2
    case Left => 3
    case Beyond(n) => n
  }

  /** The conversion from `int` to `uint32_t` that every map access with an `int` key performs. */
  function AsUint32(i: int32): uint32 {
    if i < 0 then i + TWO_32 else i
  }

  /** The conversion from `uint32_t` to `int`, which keeps the bits. */
  function AsInt32(n: uint32): int32 {
    if n < 0x8000_0000 then n else n - TWO_32
  }

  /** The first occurrence of `p` erased, as the erase loops of server and client do. */
  function RemoveFirst<T(==)>(ps: seq<T>, p: T): seq<T> {
    if ps == [] then []
    else if ps[0] == p then ps[1..]
    else [ps[0]] + RemoveFirst(ps[1..], p)
  }

  /** All occurrences of `p` erased: `erase(remove(begin, end, p), end)`. */
  function RemoveAll<T(==)>(ps: seq<T>, p: T): seq<T> {
    if ps == [] then []
    else (if ps[0] == p then [] else [ps[0]]) + RemoveAll(ps[1..], p)
  }

  function Reverse<T>(s: seq<T>): (r: seq<T>)
    ensures |r| == |s|
  {
    if s == [] then [] else Reverse(s[1..]) + [s[0]]
  }

  /** The sequence without its element `n`, if it has one. */
  function Without<T>(s: seq<T>, n: nat): seq<T> {
    if n < |s| then s[..n] + s[n + 1..] else s
  }

  predicate Distinct<T(==)>(s: seq<T>) {
    forall i, j :: 0 <= i < j < |s| ==> s[i] != s[j]
  }

  function Elements<T(==)>(s: seq<T>): set<T> {
    set x | x in s
  }

  /** `order` visits every key of `m` once: one of the orders an unordered map may iterate in. */
  predicate Enumerates<K(==), V>(order: seq<K>, m: map<K, V>) {
    Distinct(order) && Elements(order) == m.Keys
  }

  lemma {:induction false} RemoveFirstCount<T>(ps: seq<T>, p: T)
    ensures multiset(RemoveFirst(ps, p)) == multiset(ps) - multiset{p}
    ensures |RemoveFirst(ps, p)| == if p in ps then |ps| - 1 else |ps|
  {
    if ps != [] {
      var x, rest := ps[0], ps[1..];
      assert ps == [x] + rest;
      if x != p {
        RemoveFirstCount(rest, p);
        var left := RemoveFirst(rest, p);
        assert RemoveFirst(ps, p) == [x] + left;
        hide RemoveFirst;
        assert multiset([x] + left) == multiset{x} + multiset(left);
        assert p in ps <==> p in rest;
      }
    }
  }

  lemma InCons<T>(x: T, s: seq<T>, y: T)
    ensures y in [x] + s <==> y == x || y in s
  {
  }

  lemma {:induction false} RemoveFirstElements<T>(ps: seq<T>, p: T, x: T)
    ensures x != p ==> (x in RemoveFirst(ps, p) <==> x in ps)
    ensures x in RemoveFirst(ps, p) ==> x in ps
    ensures Distinct(ps) ==> p !in RemoveFirst(ps, p)
    ensures p !in ps ==> RemoveFirst(ps, p) == ps
  {
    if ps != [] {
      var first, rest := ps[0], ps[1..];
      assert ps == [first] + rest;
      InCons(first, rest, x);
      InCons(first, rest, p);
      if first != p {
        RemoveFirstElements(rest, p, x);
        var left := RemoveFirst(rest, p);
        assert RemoveFirst(ps, p) == [first] + left;
        hide RemoveFirst;
        InCons(first, left, x);
        InCons(first, left, p);
      } else {
        assert Distinct(ps) ==> p !in rest;
      }
    }
  }

  lemma {:induction false} RemoveFirstDistinct<T>(ps: seq<T>, p: T)
    requires Distinct(ps)
    ensures Distinct(RemoveFirst(ps, p))
  {
    if ps != [] && ps[0] != p {
      RemoveFirstDistinct(ps[1..], p);
      RemoveFirstElements(ps[1..], p, ps[0]);
      assert ps[0] !in ps[1..];
    }
  }

  lemma {:induction false} RemoveAllNone<T>(ps: seq<T>, p: T)
    requires p !in ps
    ensures RemoveAll(ps, p) == ps
  {
    if ps != [] {
      RemoveAllNone(ps[1..], p);
    }
  }

  lemma {:induction false} RemoveAllOne<T>(ps: seq<T>, p: T, n: nat)
    requires n < |ps| && p !in ps
    ensures RemoveAll(ps[n := p], p) == ps[..n] + ps[n + 1..]
  {
    if n == 0 {
      RemoveAllNone(ps[1..], p);
      assert ps[0 := p][1..] == ps[1..];
    } else {
      RemoveAllOne(ps[1..], p, n - 1);
      assert ps[n := p][1..] == ps[1..][n - 1 := p];
      assert ps[1..][n..] == ps[n + 1..];
      assert [ps[0]] + ps[1..][..n - 1] == ps[..n];
    }
  }

  lemma Assoc<T>(a: seq<T>, b: seq<T>, c: seq<T>)
    ensures (a + b) + c == a + (b + c)
  {
  }
}
