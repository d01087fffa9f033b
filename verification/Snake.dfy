/** The snake of player.cpp on the 40 x 30 torus, and the reversal guard of inputhandler.cpp. */
module Snake {
  import opened Common

  // ---------------------------------------------------------------- one snake

  datatype Body = Body(tail: seq<Position>, alive: bool, food: int, direction: Direction)

  /** The `%` of C++: the result has the sign of the dividend. */
  function Rem(a: int, b: nat): int
    requires b > 0
  {
    if a >= 0 then a % b else -((-a) % b)
  }

  /** The cell one step from `p`. */
  function Ahead(p: Position, d: Direction): Position {
    match d
    case Up => Position(p.x, Rem((p.y - 1) + GRID_HEIGHT, GRID_HEIGHT))
    case Right => Position(Rem((p.x + 1) + GRID_WIDTH, GRID_WIDTH), p.y)
    case Down => Position(p.x, Rem((p.y + 1) + GRID_HEIGHT, GRID_HEIGHT))
    case Left => Position(Rem((p.x - 1) + GRID_WIDTH, GRID_WIDTH), p.y)
    case Beyond(_) => p
  }

  function UpdateTail(s: Body): Body
    requires s.tail != []
  {
    if s.food > 0 then s.(food := s.food - 1) else s.(tail := s.tail[..|s.tail| - 1])
  }

  /** A live snake whose direction has a name. */
  predicate Moving(s: Body) {
    s.alive && !s.direction.Beyond?
  }

  /** A move reads `tail[0]`, so a moving snake needs a cell. The switch has no case for a direction
      without a name. */
  function Moved(s: Body): Body
    requires Moving(s) ==> s.tail != []
  {
    if !Moving(s) then s
    else UpdateTail(s.(tail := [Ahead(s.tail[0], s.direction)] + s.tail))
  }

  function Killed(s: Body): Body {
    s.(alive := false, tail := [])
  }

  /** `Player`: the fields change in place. */
  class Player {
    var tail: seq<Position>
    var alive: bool
    var food: int
    var direction: Direction

    function View(): Body
      reads this
    {
      Body(tail, alive, food, direction)
    }

    constructor ()
      ensures View() == Body([], true, 0, Up)
    {
      tail, alive, food, direction := [], true, 0, Up;
    }

    method Move()
      requires Moving(View()) ==> tail != []
      modifies this
      ensures View() == old(Moved(View()))
    {
      if !alive {
        return;
      }
      match direction {
        case Up => tail := [Position(tail[0].x, Rem((tail[0].y - 1) + GRID_HEIGHT, GRID_HEIGHT))] + tail;
        case Right => tail := [Position(Rem((tail[0].x + 1) + GRID_WIDTH, GRID_WIDTH), tail[0].y)] + tail;
        case Down => tail := [Position(tail[0].x, Rem((tail[0].y + 1) + GRID_HEIGHT, GRID_HEIGHT))] + tail;
        case Left => tail := [Position(Rem((tail[0].x - 1) + GRID_WIDTH, GRID_WIDTH), tail[0].y)] + tail;
        case Beyond(_) => return;
      }
      DropTail();
    }

    /** `Player::UpdateTail`. */
    method DropTail()
      requires tail != []
      modifies `tail, `food
      ensures View() == old(UpdateTail(View()))
    {
      if food > 0 {
        food := food - 1;
      } else {
        tail := tail[..|tail| - 1];
      }
    }

    method AddLength(l: int)
      modifies `food
      ensures food == old(food) + l
    {
      food := food + l;
    }

    method SetDirection(d: Direction)
      modifies `direction
      ensures direction == d
    {
      direction := d;
    }

    method Kill()
      modifies `alive, `tail
      ensures View() == old(Killed(View()))
      ensures !alive && tail == []
    {
      alive := false;
      tail := [];
    }
  }

  // ---------------------------------------------------------------- runs of a snake

  datatype Action = SetDirection(d: Direction) | AddLength(l: nat) | Move | Kill

  function Act(s: Body, a: Action): Body
    requires s.alive ==> s.tail != []
  {
    match a
    case SetDirection(d) => s.(direction := d)
    case AddLength(l) => s.(food := s.food + l)
    case Move => Moved(s)
    case Kill => Killed(s)
  }

  /** A snake as the server spawns it: one cell in the grid. */
  predicate Spawned(s: Body) {
    s.alive && s.food == 0 && |s.tail| == 1 && InGrid(s.tail[0])
  }

  /** A snake together with every cell its head has been on, newest first, and the directions of
      the moves that led there, newest first. */
  datatype Trace = Trace(s: Body, heads: seq<Position>, moves: seq<Direction>)

  function Start(s: Body): (t: Trace)
    requires Spawned(s)
    ensures TraceOk(t)
  {
    Trace(s, [s.tail[0]], [])
  }

  function Traced(t: Trace, a: Action): Trace
    requires t.s.alive ==> t.s.tail != []
  {
    var s := Act(t.s, a);
    if a.Move? && Moving(t.s)
    then Trace(s, [Ahead(t.s.tail[0], t.s.direction)] + t.heads, [t.s.direction] + t.moves)
    else t.(s := s)
  }

  /** The tail is the newest stretch of the head history, and the history is a path on the torus. */
  predicate TraceOk(t: Trace) {
    && t.s.food >= 0
    && (t.s.alive ==> t.s.tail != [])
    && t.s.tail <= t.heads
    && (t.s.alive ==> t.heads[0] == t.s.tail[0])
    && |t.heads| == |t.moves| + 1
    && (forall i :: 0 <= i < |t.heads| ==> InGrid(t.heads[i]))
    && (forall i :: 0 <= i < |t.moves| ==> !t.moves[i].Beyond? && t.heads[i] == Ahead(t.heads[i + 1], t.moves[i]))
  }

  function Run(t: Trace, actions: seq<Action>): Trace
    requires TraceOk(t)
    ensures TraceOk(Run(t, actions))
    decreases |actions|
  {
    if actions == [] then t
    else
      TracedOk(t, actions[0]);
      Run(Traced(t, actions[0]), actions[1..])
  }

  lemma AheadInGrid(p: Position, d: Direction)
    requires InGrid(p)
    ensures InGrid(Ahead(p, d))
  {
  }

  lemma TracedOk(t: Trace, a: Action)
    requires TraceOk(t)
    ensures TraceOk(Traced(t, a))
  {
    if a.Move? && t.s.alive {
      AheadInGrid(t.s.tail[0], t.s.direction);
    }
  }

  // ---------------------------------------------------------------- shape

  /** One step apart on the torus, in either direction. */
  predicate Adjacent(p: Position, q: Position) {
    || (p.x == q.x && ((p.y - q.y) % GRID_HEIGHT == 1 || (q.y - p.y) % GRID_HEIGHT == 1))
    || (p.y == q.y && ((p.x - q.x) % GRID_WIDTH == 1 || (q.x - p.x) % GRID_WIDTH == 1))
  }

  lemma AheadAdjacent(p: Position, d: Direction)
    requires InGrid(p) && !d.Beyond?
    ensures Adjacent(Ahead(p, d), p)
  {
  }

  /** In every run of a spawned snake its cells stay in the grid, neighbours in the tail are
      neighbours on the torus, a live snake has a head, and the tail is the newest part of the
      path that the head has taken. */
  lemma SnakeShape(s: Body, actions: seq<Action>)
    requires Spawned(s)
    ensures var t := Run(Start(s), actions);
            && (t.s.alive ==> t.s.tail != [])
            && (forall i :: 0 <= i < |t.s.tail| ==> InGrid(t.s.tail[i]))
            && (forall i :: 0 <= i < |t.s.tail| - 1 ==> Adjacent(t.s.tail[i], t.s.tail[i + 1]))
            && t.s.tail <= t.heads
  {
    var t := Run(Start(s), actions);
    forall i | 0 <= i < |t.s.tail| - 1
      ensures Adjacent(t.s.tail[i], t.s.tail[i + 1])
    {
      AheadAdjacent(t.heads[i + 1], t.moves[i]);
    }
  }

  // ---------------------------------------------------------------- length and food

  function Eaten(actions: seq<Action>): nat {
    if actions == [] then 0
    else (if actions[0].AddLength? then actions[0].l else 0) + Eaten(actions[1..])
  }

  /** The moves that a live snake with direction `d` makes: all of them but those for which its
      direction has no name. */
  function Moves(d: Direction, actions: seq<Action>): nat
    decreases |actions|
  {
    if actions == [] then 0
    else if actions[0].SetDirection? then Moves(actions[0].d, actions[1..])
    else (if actions[0].Move? && !d.Beyond? then 1 else 0) + Moves(d, actions[1..])
  }

  /** Length plus food changes only by what is eaten, as long as the snake lives. */
  lemma {:induction false} LengthConserved(t: Trace, actions: seq<Action>)
    requires TraceOk(t) && t.s.alive && Kill !in actions
    ensures var s := Run(t, actions).s;
            s.alive && |s.tail| + s.food == |t.s.tail| + t.s.food + Eaten(actions)
    ensures |t.s.tail| <= |Run(t, actions).s.tail|
    decreases |actions|
  {
    if actions != [] {
      TracedOk(t, actions[0]);
      assert actions[0] in actions;
      LengthConserved(Traced(t, actions[0]), actions[1..]);
    }
  }

  /** With all food eaten up front, n moves make the snake longer by the smaller of n and the food. */
  lemma {:induction false} GrowthByMoves(t: Trace, actions: seq<Action>)
    requires TraceOk(t) && t.s.alive && Kill !in actions && Eaten(actions) == 0
    ensures var n := Moves(t.s.direction, actions);
            |Run(t, actions).s.tail| == |t.s.tail| + if n <= t.s.food then n else t.s.food
    decreases |actions|
  {
    if actions != [] {
      TracedOk(t, actions[0]);
      assert actions[0] in actions;
      GrowthByMoves(Traced(t, actions[0]), actions[1..]);
    }
  }

  // ---------------------------------------------------------------- death

  lemma {:induction false} RunConcat(t: Trace, a: seq<Action>, b: seq<Action>)
    requires TraceOk(t)
    ensures Run(t, a + b) == Run(Run(t, a), b)
    decreases |a|
  {
    hide Traced;
    if a == [] {
      assert a + b == b;
    } else {
      TracedOk(t, a[0]);
      assert (a + b)[1..] == a[1..] + b;
      RunConcat(Traced(t, a[0]), a[1..], b);
    }
  }

  /** A dead snake without cells stays that way, and where its head has been does not change. */
  lemma {:induction false} DeadStays(t: Trace, actions: seq<Action>)
    requires TraceOk(t) && !t.s.alive && t.s.tail == []
    ensures var t' := Run(t, actions);
            !t'.s.alive && t'.s.tail == [] && t'.moves == t.moves && t'.heads == t.heads
    decreases |actions|
  {
    if actions != [] {
      TracedOk(t, actions[0]);
      DeadStays(Traced(t, actions[0]), actions[1..]);
    }
  }

  /** From a kill on, whatever comes after it, the snake is dead, has no cell, and makes no move. */
  lemma KillIsFinal(t: Trace, before: seq<Action>, after: seq<Action>)
    requires TraceOk(t)
    ensures var was, t' := Run(t, before), Run(t, before + [Kill] + after);
            && !t'.s.alive && t'.s.tail == []
            && t'.moves == was.moves && t'.heads == was.heads
    ensures var was, killed := Run(t, before), Run(t, before + [Kill]);
            killed.s.food == was.s.food && killed.s.direction == was.s.direction
  {
    RunConcat(t, before, [Kill]);
    RunConcat(t, before + [Kill], after);
    var was := Run(t, before);
    TracedOk(was, Kill);
    RunFirst(was, Kill, []);
    RunNothing(Traced(was, Kill));
    assert [Kill] + [] == [Kill];
    DeadStays(Traced(was, Kill), after);
  }

  // ---------------------------------------------------------------- where the head can meet the body

  /** The colour of a cell on the checkerboard. Both sides of the torus are even, so it is well
      defined across the seams. */
  function Colour(p: Position): int {
    (p.x + p.y) % 2
  }

  lemma AheadFlipsColour(p: Position, d: Direction)
    requires InGrid(p) && !d.Beyond?
    ensures Colour(Ahead(p, d)) != Colour(p)
  {
    AheadWraps(p, d);
    hide Ahead, Rem;
  }

  lemma TwoColours(p: Position)
    ensures Colour(p) == 0 || Colour(p) == 1
  {
  }

  lemma {:induction false} ColourAlternates(t: Trace, k: nat)
    requires TraceOk(t) && k < |t.heads|
    ensures (Colour(t.heads[k]) == Colour(t.heads[0])) <==> k % 2 == 0
  {
    hide Ahead;
    if k > 0 {
      ColourAlternates(t, k - 1);
      AheadFlipsColour(t.heads[k], t.moves[k - 1]);
      TwoColours(t.heads[k]);
      TwoColours(t.heads[k - 1]);
      TwoColours(t.heads[0]);
    }
  }

  /** The head is never on a cell of its own body at an odd index. */
  lemma OddNeverHead(t: Trace, k: nat)
    requires TraceOk(t) && k < |t.s.tail| && k % 2 == 1
    ensures t.s.tail[k] != t.s.tail[0]
  {
    ColourAlternates(t, k);
  }

  lemma AheadWraps(p: Position, d: Direction)
    requires InGrid(p)
    ensures Ahead(p, d) == match d
            case Up => Position(p.x, if p.y == 0 then GRID_HEIGHT - 1 else p.y - 1)
            case Right => Position(if p.x == GRID_WIDTH - 1 then 0 else p.x + 1, p.y)
            case Down => Position(p.x, if p.y == GRID_HEIGHT - 1 then 0 else p.y + 1)
            case Left => Position(if p.x == 0 then GRID_WIDTH - 1 else p.x - 1, p.y)
            case Beyond(_) => p
  {
  }

  lemma TwoSteps(p: Position, d: Direction, e: Direction)
    requires InGrid(p) && !d.Beyond? && !e.Beyond?
    ensures Ahead(Ahead(p, d), e) == p <==> e == Opposite(d)
  {
    AheadWraps(p, d);
    AheadWraps(Ahead(p, d), e);
    hide Ahead, Rem;
  }

  /** The head is on the cell at index 2 exactly when the last two moves were opposite. */
  lemma SecondIsHeadIff(t: Trace)
    requires TraceOk(t) && |t.s.tail| > 2
    ensures t.s.tail[2] == t.s.tail[0] <==> t.moves[0] == Opposite(t.moves[1])
  {
    TwoSteps(t.heads[2], t.moves[1], t.moves[0]);
  }

  /** The head is on another cell of the body, at index `from` or later. */
  predicate MeetsBody(tail: seq<Position>, from: nat) {
    exists k :: from <= k < |tail| && tail[k] == tail[0]
  }

  /** What a scan of the body that starts at index 4 can miss: where it finds nothing, the head is
      on the body exactly when the snake has at least three cells and its last two moves were
      opposite. */
  lemma ScanFromFour(t: Trace)
    requires TraceOk(t)
    ensures !MeetsBody(t.s.tail, 4) ==>
              (MeetsBody(t.s.tail, 1) <==> |t.s.tail| > 2 && t.moves[0] == Opposite(t.moves[1]))
  {
    var tail := t.s.tail;
    if |tail| > 2 {
      SecondIsHeadIff(t);
    }
    if MeetsBody(tail, 1) && !MeetsBody(tail, 4) {
      var k :| 1 <= k < |tail| && tail[k] == tail[0];
      assert k < 4;
      if k != 2 {
        OddNeverHead(t, k);
      }
    }
  }

  predicate NoReversal(moves: seq<Direction>) {
    forall i :: 0 <= i < |moves| - 1 ==> moves[i] != Opposite(moves[i + 1])
  }

  /** For a snake that never reverses, starting at index 4 misses nothing. */
  lemma ScanFromFourIsComplete(t: Trace)
    requires TraceOk(t) && NoReversal(t.moves)
    ensures MeetsBody(t.s.tail, 1) <==> MeetsBody(t.s.tail, 4)
  {
    ScanFromFour(t);
    if MeetsBody(t.s.tail, 4) {
      var k :| 4 <= k < |t.s.tail| && t.s.tail[k] == t.s.tail[0];
      assert MeetsBody(t.s.tail, 1);
    }
  }

  function Turns(ds: seq<Direction>): seq<Action> {
    if ds == [] then [] else [SetDirection(ds[0]), Move] + Turns(ds[1..])
  }

  lemma FourTurns(t: Trace)
    requires TraceOk(t) && t.s.alive && t.s.food == 4 && |t.s.tail| == 1 && t.moves == []
    ensures var t' := Run(t, Turns([Up, Right, Down, Left]));
            && t'.moves == [Left, Down, Right, Up]
            && |t'.s.tail| == 5 && t'.s.tail[4] == t.s.tail[0]
            && t'.s.tail[0] == Ahead(Ahead(Ahead(Ahead(t.s.tail[0], Up), Right), Down), Left)
  {
    hide Traced, TraceOk, Ahead, Run;
    TurnGrows(t, Up);
    RunTurn(t, Up, Turns([Right, Down, Left]));
    var t1 := Turn(t, Up);
    TurnGrows(t1, Right);
    RunTurn(t1, Right, Turns([Down, Left]));
    var t2 := Turn(t1, Right);
    TurnGrows(t2, Down);
    RunTurn(t2, Down, Turns([Left]));
    var t3 := Turn(t2, Down);
    TurnGrows(t3, Left);
    RunTurn(t3, Left, []);
    RunNothing(Turn(t3, Left));
    assert [Up, Right, Down, Left][1..] == [Right, Down, Left];
    assert [Right, Down, Left][1..] == [Down, Left];
    assert [Down, Left][1..] == [Left];
  }

  lemma RunFirst(t: Trace, a: Action, rest: seq<Action>)
    requires TraceOk(t) && TraceOk(Traced(t, a))
    ensures Run(t, [a] + rest) == Run(Traced(t, a), rest)
  {
    assert ([a] + rest)[1..] == rest;
  }

  lemma RunNothing(t: Trace)
    requires TraceOk(t)
    ensures Run(t, []) == t
  {
  }

  /** A later start would miss something: every snake can run into its own index 4 without ever
      reversing. */
  lemma FourIsReached(s: Body) returns (actions: seq<Action>)
    requires Spawned(s)
    ensures var t := Run(Start(s), actions); NoReversal(t.moves) && |t.s.tail| == 5 && t.s.tail[4] == t.s.tail[0]
  {
    hide Run, Turns, TraceOk, Ahead;
    var turns := Turns([Up, Right, Down, Left]);
    actions := [AddLength(4)] + turns;
    TracedOk(Start(s), AddLength(4));
    RunFirst(Start(s), AddLength(4), turns);
    FourTurns(Traced(Start(s), AddLength(4)));
    Square(s.tail[0]);
  }

  lemma TurnGrows(t: Trace, d: Direction)
    requires TraceOk(t) && t.s.alive && t.s.food > 0 && !d.Beyond?
    ensures var t' := Turn(t, d);
            && t'.s.alive && t'.s.food == t.s.food - 1
            && t'.s.tail == [Ahead(t.s.tail[0], d)] + t.s.tail
            && t'.moves == [d] + t.moves
  {
  }

  lemma Square(p: Position)
    requires InGrid(p)
    ensures Ahead(Ahead(Ahead(Ahead(p, Up), Right), Down), Left) == p
  {
  }

  function Turn(t: Trace, d: Direction): Trace
    requires TraceOk(t)
    ensures TraceOk(Turn(t, d))
  {
    TracedOk(t, SetDirection(d));
    TracedOk(Traced(t, SetDirection(d)), Move);
    Traced(Traced(t, SetDirection(d)), Move)
  }

  lemma RunTurn(t: Trace, d: Direction, rest: seq<Action>)
    requires TraceOk(t)
    ensures Run(t, [SetDirection(d), Move] + rest) == Run(Turn(t, d), rest)
  {
    TracedOk(t, SetDirection(d));
    var t1 := Traced(t, SetDirection(d));
    TracedOk(t1, Move);
    assert ([SetDirection(d), Move] + rest)[1..] == [Move] + rest;
    assert ([Move] + rest)[1..] == rest;
  }

  // ---------------------------------------------------------------- the keyboard

  datatype Key = KeyW | KeyUp | KeyA | KeyLeft | KeyS | KeyDown | KeyD | KeyRight | KeyP | OtherKey

  datatype KeyAction = Press | Repeat | Release

  datatype KeyEvent = KeyEvent(key: Key, action: KeyAction)

  /** The direction a key asks for. */
  function Asks(k: Key): Option<Direction> {
    match k
    case KeyW => Some(Up)
    case KeyUp => Some(Up)
    case KeyA => Some(Left)
    case KeyLeft => Some(Left)
    case KeyS => Some(Down)
    case KeyDown => Some(Down)
    case KeyD => Some(Right)
    case KeyRight => Some(Right)
    case _ => None
  }

  /** A key is accepted when it is pressed, asks for a direction, and that is not the opposite of
      the direction the snake has at that moment. */
  predicate Accepted(d: Direction, e: KeyEvent) {
    e.action.Press? && Asks(e.key).Some? && d != Opposite(Asks(e.key).value)
  }

  function Steered(d: Direction, e: KeyEvent): Direction {
    if Accepted(d, e) then Asks(e.key).value else d
  }

  /** `key_callback`. Without a connection every key is ignored. The result tells whether P asked
      for the game to start. */
  method KeyCallback(clientID: int32, player: Player, e: KeyEvent) returns (startRequested: bool)
    modifies player`direction
    ensures startRequested <==> clientID >= 0 && e == KeyEvent(KeyP, Press)
    ensures player.direction == if clientID < 0 then old(player.direction) else Steered(old(player.direction), e)
    ensures var d := old(player.direction);
            player.direction
            == if clientID < 0 || !e.action.Press? then d
               else if (e.key.KeyW? || e.key.KeyUp?) && d != Down then Up
               else if (e.key.KeyA? || e.key.KeyLeft?) && d != Right then Left
               else if (e.key.KeyS? || e.key.KeyDown?) && d != Up then Down
               else if (e.key.KeyD? || e.key.KeyRight?) && d != Left then Right
               else d
  {
    startRequested := false;
    if clientID < 0 {
      return;
    }
    if e.key.KeyP? && e.action.Press? {
      startRequested := true;
    }
    if (e.key.KeyW? || e.key.KeyUp?) && e.action.Press? && player.direction != Down {
      player.SetDirection(Up);
    }
    if (e.key.KeyA? || e.key.KeyLeft?) && e.action.Press? && player.direction != Right {
      player.SetDirection(Left);
    }
    if (e.key.KeyS? || e.key.KeyDown?) && e.action.Press? && player.direction != Up {
      player.SetDirection(Down);
    }
    if (e.key.KeyD? || e.key.KeyRight?) && e.action.Press? && player.direction != Left {
      player.SetDirection(Right);
    }
  }

  function SteeredAll(d: Direction, es: seq<KeyEvent>): Direction
    decreases |es|
  {
    if es == [] then d else SteeredAll(Steered(d, es[0]), es[1..])
  }

  function AcceptedCount(d: Direction, es: seq<KeyEvent>): nat
    decreases |es|
  {
    if es == [] then 0 else (if Accepted(d, es[0]) then 1 else 0) + AcceptedCount(Steered(d, es[0]), es[1..])
  }

  /** One round of the client's game loop: the keys that came in, the move, the powerup eaten there
      or not, and a kill that arrived or not. */
  datatype Round = Round(keys: seq<KeyEvent>, eats: bool, killed: bool)

  function RoundActions(d: Direction, r: Round): seq<Action> {
    [SetDirection(SteeredAll(d, r.keys)), Move]
    + (if r.eats then [AddLength(1)] else [])
    + (if r.killed then [Kill] else [])
  }

  function Play(t: Trace, rounds: seq<Round>): (t': Trace)
    requires TraceOk(t)
    ensures TraceOk(t')
    decreases |rounds|
  {
    if rounds == [] then t
    else Play(Run(t, RoundActions(t.s.direction, rounds[0])), rounds[1..])
  }

  predicate OneKeyAtMost(t: Trace, rounds: seq<Round>)
    requires TraceOk(t)
    decreases |rounds|
  {
    rounds == []
    || (AcceptedCount(t.s.direction, rounds[0].keys) <= 1
        && OneKeyAtMost(Run(t, RoundActions(t.s.direction, rounds[0])), rounds[1..]))
  }

  lemma {:induction false} NoKeyNoTurn(d: Direction, es: seq<KeyEvent>)
    requires AcceptedCount(d, es) == 0
    ensures SteeredAll(d, es) == d
    decreases |es|
  {
    if es != [] {
      NoKeyNoTurn(d, es[1..]);
    }
  }

  /** One accepted key cannot turn the snake round. */
  lemma {:induction false} OneKeyNoReversal(d: Direction, es: seq<KeyEvent>)
    requires AcceptedCount(d, es) <= 1 && !d.Beyond?
    ensures SteeredAll(d, es) != Opposite(d)
    decreases |es|
  {
    if es != [] {
      if Accepted(d, es[0]) {
        NoKeyNoTurn(Asks(es[0].key).value, es[1..]);
      } else {
        OneKeyNoReversal(d, es[1..]);
      }
    }
  }

  /** The direction that the last accepted key asks for. */
  function LastAccepted(d: Direction, es: seq<KeyEvent>): Option<Direction>
    decreases |es|
  {
    if es == [] then None
    else
      var later := LastAccepted(Steered(d, es[0]), es[1..]);
      if later.Some? then later
      else if Accepted(d, es[0]) then Asks(es[0].key)
      else None
  }

  lemma {:induction false} LastKeyDecides(d: Direction, es: seq<KeyEvent>)
    ensures SteeredAll(d, es) == if LastAccepted(d, es).Some? then LastAccepted(d, es).value else d
    ensures !d.Beyond? ==> !SteeredAll(d, es).Beyond?
    decreases |es|
  {
    if es != [] {
      LastKeyDecides(Steered(d, es[0]), es[1..]);
    }
  }

  /** Any keys turn the snake round exactly when the last one that is accepted asks for that. */
  lemma KeysReverseIff(d: Direction, es: seq<KeyEvent>)
    requires !d.Beyond?
    ensures SteeredAll(d, es) == Opposite(d) <==> LastAccepted(d, es) == Some(Opposite(d))
  {
    LastKeyDecides(d, es);
  }

  /** Two accepted keys can. */
  lemma TwoKeysReverse()
    ensures var keys := [KeyEvent(KeyD, Press), KeyEvent(KeyS, Press)];
            AcceptedCount(Up, keys) == 2 && SteeredAll(Up, keys) == Opposite(Up)
  {
    var keys := [KeyEvent(KeyD, Press), KeyEvent(KeyS, Press)];
    assert keys[1..] == [KeyEvent(KeyS, Press)];
    assert keys[1..][1..] == [];
  }

  /** The direction has a name, while the snake lives it is that of its last move, and the snake
      never reversed. */
  predicate Steady(t: Trace) {
    && !t.s.direction.Beyond? && NoReversal(t.moves)
    && (t.s.alive && t.moves != [] ==> t.s.direction == t.moves[0])
  }

  /** The keys of a round do not turn a live snake that has moved round: the last one that is
      accepted does not ask for the opposite of the last move. */
  predicate KeepsCourse(t: Trace, r: Round) {
    t.s.alive && t.moves != [] ==> LastAccepted(t.s.direction, r.keys) != Some(Opposite(t.moves[0]))
  }

  lemma RoundMoves(t: Trace, r: Round)
    requires TraceOk(t) && !t.s.direction.Beyond?
    ensures var d, t' := SteeredAll(t.s.direction, r.keys), Run(t, RoundActions(t.s.direction, r));
            && t'.moves == (if t.s.alive then [d] + t.moves else t.moves)
            && t'.s.direction == d && !d.Beyond? && (t'.s.alive ==> t.s.alive)
  {
    var d := SteeredAll(t.s.direction, r.keys);
    LastKeyDecides(t.s.direction, r.keys);
    var t1 := Turn(t, d);
    var rest := (if r.eats then [AddLength(1)] else []) + (if r.killed then [Kill] else []);
    assert RoundActions(t.s.direction, r) == [SetDirection(d), Move] + rest;
    RunTurn(t, d, rest);
    QuietRun(t1, rest);
  }

  /** What a round does to a live snake: one step in the direction that the keys leave it, one more to grow
      if it eats, and its death if it is killed. */
  lemma RoundIs(t: Trace, r: Round)
    requires TraceOk(t) && t.s.alive && !t.s.direction.Beyond?
    ensures var d, t' := SteeredAll(t.s.direction, r.keys), Run(t, RoundActions(t.s.direction, r));
            && t'.heads == [Ahead(t.s.tail[0], d)] + t.heads
            && (t'.s.alive <==> !r.killed) && (r.killed ==> t'.s.tail == [])
            && (!r.killed ==> |t'.s.tail| + t'.s.food == |t.s.tail| + t.s.food + if r.eats then 1 else 0)
  {
    var d := SteeredAll(t.s.direction, r.keys);
    LastKeyDecides(t.s.direction, r.keys);
    var fed := if r.eats then [AddLength(1)] else [];
    var dies := if r.killed then [Kill] else [];
    assert RoundActions(t.s.direction, r) == [SetDirection(d), Move] + (fed + dies);
    hide SteeredAll, RoundActions, Ahead;
    RunTurn(t, d, fed + dies);
    RunConcat(Turn(t, d), fed, dies);
    assert [AddLength(1)][1..] == [] && [Kill][1..] == [];
  }

  lemma RoundKeepsSteadyIff(t: Trace, r: Round)
    requires TraceOk(t) && Steady(t)
    ensures var t' := Run(t, RoundActions(t.s.direction, r));
            if KeepsCourse(t, r) then Steady(t') else !NoReversal(t'.moves)
  {
    RoundMoves(t, r);
    KeysReverseIff(t.s.direction, r.keys);
    hide Run, RoundActions, SteeredAll, LastAccepted, TraceOk;
    var t' := Run(t, RoundActions(t.s.direction, r));
    if t.s.alive {
      var d := SteeredAll(t.s.direction, r.keys);
      MovesGrow(t.moves, d);
    }
  }

  lemma MovesGrow(moves: seq<Direction>, d: Direction)
    ensures NoReversal([d] + moves) <==> NoReversal(moves) && (moves != [] ==> d != Opposite(moves[0]))
  {
    var more := [d] + moves;
    if NoReversal(more) {
      forall i | 0 <= i < |moves| - 1
        ensures moves[i] != Opposite(moves[i + 1])
      {
        assert more[i + 1] == moves[i] && more[i + 2] == moves[i + 1];
      }
      assert moves != [] ==> more[0] == d && more[1] == moves[0];
    }
  }

  /** A reversal stays in the record. */
  lemma {:induction false} ReversalStays(t: Trace, rounds: seq<Round>)
    requires TraceOk(t) && !t.s.direction.Beyond? && !NoReversal(t.moves)
    ensures !NoReversal(Play(t, rounds).moves)
    decreases |rounds|
  {
    hide NoReversal, RoundActions, SteeredAll, Run;
    if rounds != [] {
      RoundMoves(t, rounds[0]);
      MovesGrow(t.moves, SteeredAll(t.s.direction, rounds[0].keys));
      ReversalStays(Run(t, RoundActions(t.s.direction, rounds[0])), rounds[1..]);
    }
  }

  predicate AllKeepCourse(t: Trace, rounds: seq<Round>)
    requires TraceOk(t)
    decreases |rounds|
  {
    rounds == []
    || (KeepsCourse(t, rounds[0])
        && AllKeepCourse(Run(t, RoundActions(t.s.direction, rounds[0])), rounds[1..]))
  }

  /** Exactly when the local snake never reverses: in every round in which it lives and has moved, the
      last accepted key does not ask for the opposite of its last move. */
  lemma {:induction false} NoReversalIff(t: Trace, rounds: seq<Round>)
    requires TraceOk(t) && Steady(t)
    ensures NoReversal(Play(t, rounds).moves) <==> AllKeepCourse(t, rounds)
    decreases |rounds|
  {
    hide NoReversal, KeepsCourse, RoundActions, Run;
    if rounds != [] {
      var t' := Run(t, RoundActions(t.s.direction, rounds[0]));
      RoundKeepsSteadyIff(t, rounds[0]);
      if KeepsCourse(t, rounds[0]) {
        NoReversalIff(t', rounds[1..]);
      } else {
        RoundMoves(t, rounds[0]);
        ReversalStays(t', rounds[1..]);
      }
    }
  }

  lemma OneKeyKeepsCourse(t: Trace, r: Round)
    requires Steady(t) && AcceptedCount(t.s.direction, r.keys) <= 1
    ensures KeepsCourse(t, r)
  {
    OneKeyNoReversal(t.s.direction, r.keys);
    KeysReverseIff(t.s.direction, r.keys);
  }

  /** Eating and dying change neither the path nor a live snake's direction. */
  lemma {:induction false} QuietRun(t: Trace, rest: seq<Action>)
    requires TraceOk(t) && forall a :: a in rest ==> a.AddLength? || a.Kill?
    ensures var t' := Run(t, rest);
            t'.moves == t.moves && t'.s.direction == t.s.direction && (t'.s.alive ==> t.s.alive)
    decreases |rest|
  {
    if rest != [] {
      assert rest[0] in rest;
      TracedOk(t, rest[0]);
      QuietRun(Traced(t, rest[0]), rest[1..]);
    }
  }

  /** With at most one accepted key between consecutive moves, no two consecutive moves of the local
      snake are ever opposite, and so the server's scan from index 4 finds every self-collision. */
  lemma {:induction false} NoReversalInPlay(t: Trace, rounds: seq<Round>)
    requires TraceOk(t) && Steady(t) && OneKeyAtMost(t, rounds)
    ensures var t' := Play(t, rounds);
            NoReversal(t'.moves) && (MeetsBody(t'.s.tail, 1) <==> MeetsBody(t'.s.tail, 4))
    decreases |rounds|
  {
    if rounds == [] {
      ScanFromFourIsComplete(t);
    } else {
      OneKeyKeepsCourse(t, rounds[0]);
      RoundKeepsSteadyIff(t, rounds[0]);
      NoReversalInPlay(Run(t, RoundActions(t.s.direction, rounds[0])), rounds[1..]);
    }
  }
}
