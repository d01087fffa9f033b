/** The free cells of the board (server.cpp): mark a 2D array, then enumerate what is not marked. */
module FreeGrid {
  import opened Common
  import opened Codec

  // ---------------------------------------------------------------- what is covered

  predicate OnTail(players: map<uint32, PlayerData>, c: Position) {
    exists id :: id in players && c in players[id].tail
  }

  predicate Free(players: map<uint32, PlayerData>, powerups: seq<Position>, c: Position) {
    InGrid(c) && !OnTail(players, c) && c !in powerups
  }

  /** The array is indexed with every tail cell and every powerup, so they have to be in the grid. */
  predicate AllInGrid(players: map<uint32, PlayerData>, powerups: seq<Position>) {
    && (forall id, i :: id in players && 0 <= i < |players[id].tail| ==> InGrid(players[id].tail[i]))
    && (forall i :: 0 <= i < |powerups| ==> InGrid(powerups[i]))
  }

  /** The place of a cell when the grid is read x by x, and y by y within. */
  function Rank(c: Position): int {
    c.x * GRID_HEIGHT + c.y
  }

  predicate XMajor(cells: seq<Position>) {
    forall i, j :: 0 <= i < j < |cells| ==> Rank(cells[i]) < Rank(cells[j])
  }

  /** `cells` lists exactly the free cells, each once, in x-major order. */
  ghost predicate ListsFree(cells: seq<Position>, players: map<uint32, PlayerData>, powerups: seq<Position>) {
    XMajor(cells) && forall c :: c in cells <==> Free(players, powerups, c)
  }

  // ---------------------------------------------------------------- the method

  predicate OnSome(players: map<uint32, PlayerData>, order: seq<uint32>, n: nat, c: Position)
    requires n <= |order| && forall i :: 0 <= i < |order| ==> order[i] in players
  {
    exists k :: 0 <= k < n && c in players[order[k]].tail
  }

  /** The marking phase. The local array of the program is returned to its caller. */
  method Mark(players: map<uint32, PlayerData>, powerups: seq<Position>, order: seq<uint32>)
    returns (marks: array2<int>)
    requires Enumerates(order, players) && AllInGrid(players, powerups)
    requires forall i :: 0 <= i < |order| ==> order[i] in players
    ensures fresh(marks) && marks.Length0 == GRID_WIDTH && marks.Length1 == GRID_HEIGHT
    ensures forall x: int, y: int :: 0 <= x < GRID_WIDTH && 0 <= y < GRID_HEIGHT ==>
              (marks[x, y] == 0 <==> Free(players, powerups, Position(x, y)))
  {
    marks := new int[GRID_WIDTH, GRID_HEIGHT]((i, j) => 0);
    for k := 0 to |order|
      invariant forall x: int, y: int :: 0 <= x < GRID_WIDTH && 0 <= y < GRID_HEIGHT ==>
                  (marks[x, y] == 0 <==> !OnSome(players, order, k, Position(x, y)))
    {
      var tail := players[order[k]].tail;
      for i := 0 to |tail|
        invariant forall x: int, y: int :: 0 <= x < GRID_WIDTH && 0 <= y < GRID_HEIGHT ==>
                    (marks[x, y] == 0 <==>
                       !OnSome(players, order, k, Position(x, y)) && Position(x, y) !in tail[..i])
      {
        assert InGrid(tail[i]);
        marks[tail[i].x, tail[i].y] := 1;
        assert tail[..i + 1] == tail[..i] + [tail[i]];
      }
      assert tail[..|tail|] == tail;
    }
    forall c: Position
      ensures OnSome(players, order, |order|, c) <==> OnTail(players, c)
    {
      if OnTail(players, c) {
        var id :| id in players && c in players[id].tail;
        assert id in Elements(order);
      }
    }
    for i := 0 to |powerups|
      invariant forall x: int, y: int :: 0 <= x < GRID_WIDTH && 0 <= y < GRID_HEIGHT ==>
                  (marks[x, y] == 0 <==>
                     !OnTail(players, Position(x, y)) && Position(x, y) !in powerups[..i])
    {
      marks[powerups[i].x, powerups[i].y] := 1;
      assert powerups[..i + 1] == powerups[..i] + [powerups[i]];
    }
    assert powerups[..|powerups|] == powerups;
  }

  /** `Server::GetFreeGrid`, for any order in which the map of players iterates. */
  method GetFreeGrid(players: map<uint32, PlayerData>, powerups: seq<Position>, order: seq<uint32>)
    returns (free: seq<Position>)
    requires Enumerates(order, players) && AllInGrid(players, powerups)
    requires forall i :: 0 <= i < |order| ==> order[i] in players
    ensures ListsFree(free, players, powerups)
    ensures forall c :: c in free <==>
              InGrid(c) && c !in powerups && forall id :: id in players ==> c !in players[id].tail
  {
    var marks := Mark(players, powerups, order);
    free := [];
    for x := 0 to GRID_WIDTH
      invariant XMajor(free)
      invariant forall c :: c in free <==> c.x < x && Free(players, powerups, c)
    {
      for y := 0 to GRID_HEIGHT
        invariant XMajor(free)
        invariant forall c :: c in free <==> (c.x < x || (c.x == x && c.y < y)) && Free(players, powerups, c)
      {
        if marks[x, y] == 0 {
          assert forall i :: 0 <= i < |free| ==> free[i] in free;
          free := free + [Position(x, y)];
        }
      }
    }
  }

  // ---------------------------------------------------------------- order, count, room

  /** The list does not depend on the iteration order: what it lists and its order determine it. */
  lemma {:induction false} ListsFreeUnique(a: seq<Position>, b: seq<Position>)
    requires XMajor(a) && XMajor(b) && forall c :: c in a <==> c in b
    ensures a == b
    decreases |a|
  {
    HasElement(a);
    HasElement(b);
    if a != [] {
      SameFirst(a, b);
      forall c
        ensures c in a[1..] <==> c in b[1..]
      {
        TailElements(a, c);
        TailElements(b, c);
      }
      hide XMajor;
      assert XMajor(a[1..]) && XMajor(b[1..]) by { TailXMajor(a); TailXMajor(b); }
      ListsFreeUnique(a[1..], b[1..]);
      assert a == [a[0]] + a[1..] && b == [b[0]] + b[1..];
    }
  }

  lemma HasElement(a: seq<Position>)
    ensures a != [] ==> a[0] in a
  {
  }

  lemma TailXMajor(a: seq<Position>)
    requires XMajor(a) && a != []
    ensures XMajor(a[1..])
  {
  }

  lemma SameFirst(a: seq<Position>, b: seq<Position>)
    requires XMajor(a) && XMajor(b) && a != [] && b != []
    requires a[0] in b && b[0] in a
    ensures a[0] == b[0]
  {
    var i :| 0 <= i < |b| && b[i] == a[0];
    var j :| 0 <= j < |a| && a[j] == b[0];
  }

  lemma TailElements(a: seq<Position>, c: Position)
    requires XMajor(a) && a != []
    ensures c in a[1..] <==> c in a && c != a[0]
  {
    if c in a[1..] {
      var k :| 0 <= k < |a| - 1 && a[1..][k] == c;
      assert a[k + 1] == c;
    }
    if c in a && c != a[0] {
      var k :| 0 <= k < |a| && a[k] == c;
      assert a[1..][k - 1] == c;
    }
  }

  /** How many cells the tails have, in the order given. */
  function TailCells(players: map<uint32, PlayerData>, order: seq<uint32>): nat
    requires forall i :: 0 <= i < |order| ==> order[i] in players
  {
    if order == [] then 0 else |players[order[0]].tail| + TailCells(players, order[1..])
  }

  function Covering(players: map<uint32, PlayerData>, order: seq<uint32>): (cells: seq<Position>)
    requires forall i :: 0 <= i < |order| ==> order[i] in players
    ensures |cells| == TailCells(players, order)
  {
    if order == [] then [] else players[order[0]].tail + Covering(players, order[1..])
  }

  lemma {:induction false} CoveringHas(players: map<uint32, PlayerData>, order: seq<uint32>, c: Position)
    requires forall i :: 0 <= i < |order| ==> order[i] in players
    ensures c in Covering(players, order) <==> exists i :: 0 <= i < |order| && c in players[order[i]].tail
  {
    if order != [] {
      CoveringHas(players, order[1..], c);
      if exists i :: 0 <= i < |order| && c in players[order[i]].tail {
        var i :| 0 <= i < |order| && c in players[order[i]].tail;
        if i > 0 {
          assert order[1..][i - 1] == order[i];
        }
      }
      if exists i :: 0 <= i < |order[1..]| && c in players[order[1..][i]].tail {
        var i :| 0 <= i < |order[1..]| && c in players[order[1..][i]].tail;
        assert order[i + 1] == order[1..][i];
      }
    }
  }

  lemma {:induction false} ElementsBound<T>(s: seq<T>)
    ensures |Elements(s)| <= |s|
  {
    if s != [] {
      var front, last := s[..|s| - 1], s[|s| - 1];
      ElementsBound(front);
      assert s == front + [last];
      ElementsSnoc(front, last);
    }
  }

  /** The first `n` cells of the grid in x-major order. */
  function FirstCells(n: nat): (cells: set<Position>)
    requires n <= GRID_WIDTH * GRID_HEIGHT
  {
    set k: int | 0 <= k < n :: CellAt(k)
  }

  function CellAt(k: int): (c: Position)
    requires 0 <= k < GRID_WIDTH * GRID_HEIGHT
    ensures InGrid(c) && Rank(c) == k
  {
    Position(k / GRID_HEIGHT, k % GRID_HEIGHT)
  }

  lemma {:induction false} FirstCellsSize(n: nat)
    requires n <= GRID_WIDTH * GRID_HEIGHT
    ensures |FirstCells(n)| == n
  {
    if n == 0 {
      assert FirstCells(0) == {};
    } else {
      FirstCellsSize(n - 1);
      assert CellAt(n - 1) !in FirstCells(n - 1);
      assert FirstCells(n) == FirstCells(n - 1) + {CellAt(n - 1)};
    }
  }

  lemma AllCells(c: Position)
    ensures c in FirstCells(GRID_WIDTH * GRID_HEIGHT) <==> InGrid(c)
  {
    if InGrid(c) {
      var k := Rank(c);
      assert 0 <= k < GRID_WIDTH * GRID_HEIGHT;
      assert CellAt(k) == c;
    }
  }

  lemma XMajorSize(cells: seq<Position>)
    requires XMajor(cells)
    ensures |Elements(cells)| == |cells|
  {
    DistinctSize(cells);
  }

  lemma {:induction false} SubsetSize<T>(a: set<T>, b: set<T>)
    requires a <= b
    ensures |a| <= |b|
    decreases b
  {
    if a != {} {
      var x :| x in a;
      SubsetSize(a - {x}, b - {x});
    }
  }

  // ---------------------------------------------------------------- the set of free cells

  function FreeSet(players: map<uint32, PlayerData>, powerups: seq<Position>): set<Position> {
    set c | c in FirstCells(GRID_WIDTH * GRID_HEIGHT) && Free(players, powerups, c)
  }

  lemma FreeSetIs(players: map<uint32, PlayerData>, powerups: seq<Position>)
    ensures forall c :: c in FreeSet(players, powerups) <==> Free(players, powerups, c)
  {
    forall c: Position
      ensures c in FirstCells(GRID_WIDTH * GRID_HEIGHT) <==> InGrid(c)
    {
      AllCells(c);
    }
  }

  /** How many free cells there are, in terms of what covers the grid. */
  lemma FreeSetSize(players: map<uint32, PlayerData>, powerups: seq<Position>, order: seq<uint32>)
    requires Enumerates(order, players) && forall i :: 0 <= i < |order| ==> order[i] in players
    ensures |FreeSet(players, powerups)| + TailCells(players, order) + |powerups| >= GRID_WIDTH * GRID_HEIGHT
  {
    FreeSetIs(players, powerups);
    var covering := Covering(players, order) + powerups;
    var all := FirstCells(GRID_WIDTH * GRID_HEIGHT);
    FirstCellsSize(GRID_WIDTH * GRID_HEIGHT);
    forall c | c in all
      ensures c in FreeSet(players, powerups) + Elements(covering)
    {
      AllCells(c);
      CoveringHas(players, order, c);
      if OnTail(players, c) {
        var id :| id in players && c in players[id].tail;
        assert id in Elements(order);
      }
    }
    ElementsBound(covering);
    SubsetSize(all, FreeSet(players, powerups) + Elements(covering));
  }

  /** Fewer players leave at least as many cells free. */
  lemma FreeSetGrows(players: map<uint32, PlayerData>, fewer: map<uint32, PlayerData>, powerups: seq<Position>)
    requires forall id :: id in fewer ==> id in players && fewer[id] == players[id]
    ensures FreeSet(players, powerups) <= FreeSet(fewer, powerups)
    ensures |FreeSet(players, powerups)| <= |FreeSet(fewer, powerups)|
  {
    SubsetSize(FreeSet(players, powerups), FreeSet(fewer, powerups));
  }

  /** A new powerup takes one free cell. */
  lemma FreeSetShrinks(players: map<uint32, PlayerData>, powerups: seq<Position>, q: Position)
    requires Free(players, powerups, q)
    ensures FreeSet(players, powerups + [q]) == FreeSet(players, powerups) - {q}
    ensures |FreeSet(players, powerups + [q])| == |FreeSet(players, powerups)| - 1
  {
    FreeSetIs(players, powerups);
    assert forall c :: Free(players, powerups + [q], c) <==> Free(players, powerups, c) && c != q;
  }

  /** The list of free cells is as long as there are free cells. With fewer covering cells than the
      grid has, counted with repetition, it is not empty, and an index drawn below its length draws
      a free cell. */
  lemma DrawIsPossible(free: seq<Position>, players: map<uint32, PlayerData>, powerups: seq<Position>,
                       order: seq<uint32>)
    requires ListsFree(free, players, powerups) && Enumerates(order, players)
    requires forall i :: 0 <= i < |order| ==> order[i] in players
    ensures |free| == |FreeSet(players, powerups)|
    ensures |free| + TailCells(players, order) + |powerups| >= GRID_WIDTH * GRID_HEIGHT
    ensures TailCells(players, order) + |powerups| < GRID_WIDTH * GRID_HEIGHT ==> free != []
    ensures forall k :: 0 <= k < |free| ==> Free(players, powerups, free[k])
  {
    FreeSetIs(players, powerups);
    assert Elements(free) == FreeSet(players, powerups);
    XMajorSize(free);
    FreeSetSize(players, powerups, order);
    assert forall k :: 0 <= k < |free| ==> free[k] in free;
  }
}
