/** How game state is laid out in message bodies, as stacks of typed values: the snapshot for a new
    client, player updates and announcements (server.cpp, snakeclient.cpp). */
module Codec {
  import opened Common
  import opened Message
  import Snake

  datatype PlayerData = PlayerData(direction: Direction, tail: seq<Position>, color: uint32)

  /** A client's view of a player. */
  datatype ClientPlayer = ClientPlayer(body: Snake.Body, color: uint32)

  function NewClientPlayer(tail: seq<Position>, color: uint32): ClientPlayer {
    ClientPlayer(Snake.Body(tail, true, 0, Up), color)
  }

  /** Lists that the decoders' `int` loop counters can count. */
  predicate Countable<T>(s: seq<T>) {
    |s| < 0x8000_0000
  }

  function DirectionOf(n: uint32): Direction {
    if n == 0 then Up else if n == 1 then Right else if n == 2 then Down else if n == 3 then Left else Beyond(n)
  }

  // ---------------------------------------------------------------- lists of cells

  function PushCells(body: seq<byte>, cells: seq<Position>): seq<byte>
    decreases |cells|
  {
    if cells == [] then body else PushCells(Push(body, Cell(cells[0])), cells[1..])
  }

  /** Pops `n` cells, each put in front of the ones before. */
  function PopCells(body: seq<byte>, n: nat, acc: seq<Position>): Option<(seq<Position>, seq<byte>)>
    decreases n
  {
    if n == 0 then Some((acc, body))
    else
      match Pop(body, CellKind)
      case None => None
      case Some((v, rest)) => PopCells(rest, n - 1, [v.cell] + acc)
  }

  lemma {:induction false} PushCellsSnoc(body: seq<byte>, cells: seq<Position>, p: Position)
    ensures PushCells(body, cells + [p]) == Push(PushCells(body, cells), Cell(p))
    decreases |cells|
  {
    if cells == [] {
      assert cells + [p] == [p];
    } else {
      PushCellsSnoc(Push(body, Cell(cells[0])), cells[1..], p);
      assert (cells + [p])[1..] == cells[1..] + [p];
    }
  }

  /** A tail comes back in its own order, because it is popped from the back and rebuilt from the
      front. */
  lemma {:induction false} CellsRoundTrip(body: seq<byte>, cells: seq<Position>, acc: seq<Position>)
    ensures PopCells(PushCells(body, cells), |cells|, acc) == Some((cells + acc, body))
    decreases |cells|
  {
    hide Push, Pop;
    if cells == [] {
      assert cells + acc == acc;
    } else {
      var front, last := cells[..|cells| - 1], cells[|cells| - 1];
      assert cells == front + [last];
      PushCellsSnoc(body, front, last);
      PopPush(PushCells(body, front), Cell(last));
      CellsRoundTrip(body, front, [last] + acc);
      assert front + ([last] + acc) == cells + acc;
    }
  }

  /** A tail with its length on top. */
  function PushTail(body: seq<byte>, tail: seq<Position>): seq<byte>
    requires Countable(tail)
  {
    Push(PushCells(body, tail), Size(|tail|))
  }

  function PopTail(body: seq<byte>): Option<(seq<Position>, seq<byte>)> {
    match Pop(body, SizeKind)
    case None => None
    case Some((n, rest)) => PopCells(rest, n.size, [])
  }

  lemma TailRoundTrip(body: seq<byte>, tail: seq<Position>)
    requires Countable(tail)
    ensures PopTail(PushTail(body, tail)) == Some((tail, body))
  {
    PopPush(PushCells(body, tail), Size(|tail|));
    CellsRoundTrip(body, tail, []);
    assert tail + [] == tail;
  }

  // ---------------------------------------------------------------- one player

  function PushPlayer(body: seq<byte>, id: uint32, color: uint32, tail: seq<Position>): seq<byte>
    requires Countable(tail)
  {
    Push(Push(PushTail(body, tail), Word(color)), Word(id))
  }

  /** The snapshot decoder pops the identifier as an `int`; the map key turns it back. */
  function PopPlayer(body: seq<byte>): Option<(uint32, ClientPlayer, seq<byte>)> {
    match Pop(body, IntKind)
    case None => None
    case Some((id, b1)) =>
      match Pop(b1, WordKind)
      case None => None
      case Some((color, b2)) =>
        match PopTail(b2)
        case None => None
        case Some((tail, b3)) => Some((AsUint32(id.int_), NewClientPlayer(tail, color.word), b3))
  }

  lemma PopWordAsInt(body: seq<byte>, n: uint32)
    ensures Pop(Push(body, Word(n)), IntKind) == Some((Int(AsInt32(n)), body))
  {
    PopPush(body, Word(n));
    WordIntAgree(n, 0);
    var pushed := Push(body, Word(n));
    assert pushed[|pushed| - 4..] == Encode(Word(n));
  }

  lemma PlayerRoundTrip(body: seq<byte>, id: uint32, color: uint32, tail: seq<Position>)
    requires Countable(tail)
    ensures PopPlayer(PushPlayer(body, id, color, tail))
            == Some((id, ClientPlayer(Snake.Body(tail, true, 0, Up), color), body))
  {
    hide Push, Pop, PushTail, PopTail;
    PopWordAsInt(Push(PushTail(body, tail), Word(color)), id);
    PopPush(PushTail(body, tail), Word(color));
    TailRoundTrip(body, tail);
    WordIntAgree(id, 0);
  }

  lemma PlayerComesBack(body: seq<byte>, id: uint32, color: uint32, tail: seq<Position>)
    requires Countable(tail)
    ensures PopPlayer(PushPlayer(body, id, color, tail)) == Some((id, NewClientPlayer(tail, color), body))
  {
    hide PushPlayer, PopPlayer;
    PlayerRoundTrip(body, id, color, tail);
  }

  // ---------------------------------------------------------------- the snapshot

  predicate Sendable(players: map<uint32, PlayerData>) {
    |players| < 0x8000_0000 && forall id :: id in players ==> Countable(players[id].tail)
  }

  function PushPlayers(body: seq<byte>, order: seq<uint32>, players: map<uint32, PlayerData>): seq<byte>
    requires Sendable(players) && forall i :: 0 <= i < |order| ==> order[i] in players
    decreases |order|
  {
    if order == [] then body
    else
      var p := players[order[0]];
      PushPlayers(PushPlayer(body, order[0], p.color, p.tail), order[1..], players)
  }

  function SnapshotBody(order: seq<uint32>, players: map<uint32, PlayerData>, powerups: seq<Position>,
                        clientID: uint32): seq<byte>
    requires Sendable(players) && Countable(powerups)
    requires forall i :: 0 <= i < |order| ==> order[i] in players
  {
    var b1 := Push(PushPlayers([], order, players), Size(|players|));
    var b2 := Push(PushCells(b1, powerups), Size(|powerups|));
    Push(b2, Word(clientID))
  }

  /** `vector<Powerup>(n)`: as many entries, all at the origin, as are about to be appended. */
  function DefaultEntries(n: nat): (ps: seq<Position>)
    ensures |ps| == n
  {
    seq(n, _ => ORIGIN)
  }

  /** Appends each popped powerup to the list. */
  function PopPowerups(body: seq<byte>, n: nat, acc: seq<Position>): Option<(seq<Position>, seq<byte>)>
    decreases n
  {
    if n == 0 then Some((acc, body))
    else
      match Pop(body, CellKind)
      case None => None
      case Some((v, rest)) => PopPowerups(rest, n - 1, acc + [v.cell])
  }

  function PopPlayers(body: seq<byte>, n: nat, acc: map<uint32, ClientPlayer>)
    : Option<(map<uint32, ClientPlayer>, seq<byte>)>
    decreases n
  {
    if n == 0 then Some((acc, body))
    else
      match PopPlayer(body)
      case None => None
      case Some((id, p, rest)) => PopPlayers(rest, n - 1, acc[id := p])
  }

  /** The whole powerup list: the default entries first, then what is popped. */
  function PopPowerupList(body: seq<byte>): Option<(seq<Position>, seq<byte>)> {
    match Pop(body, SizeKind)
    case None => None
    case Some((n, rest)) => PopPowerups(rest, n.size, DefaultEntries(n.size))
  }

  function PopPlayerList(body: seq<byte>, known: map<uint32, ClientPlayer>)
    : Option<(map<uint32, ClientPlayer>, seq<byte>)>
  {
    match Pop(body, SizeKind)
    case None => None
    case Some((n, rest)) => PopPlayers(rest, n.size, known)
  }

  datatype Snapshot = Snapshot(clientID: int32, powerups: seq<Position>, players: map<uint32, ClientPlayer>,
                               rest: seq<byte>)

  /** What a client that knows `known` makes of a `ServerValidation` body. */
  function ParseSnapshot(body: seq<byte>, known: map<uint32, ClientPlayer>): Option<Snapshot> {
    match Pop(body, IntKind)
    case None => None
    case Some((id, b1)) =>
      match PopPowerupList(b1)
      case None => None
      case Some((powerups, b2)) =>
        match PopPlayerList(b2, known)
        case None => None
        case Some((players, rest)) => Some(Snapshot(id.int_, powerups, players, rest))
  }

  lemma {:induction false} PowerupsRoundTrip(body: seq<byte>, cells: seq<Position>, acc: seq<Position>)
    ensures PopPowerups(PushCells(body, cells), |cells|, acc) == Some((acc + Reverse(cells), body))
    decreases |cells|
  {
    hide Push, Pop;
    if cells == [] {
      assert acc + Reverse(cells) == acc;
    } else {
      var front, last := cells[..|cells| - 1], cells[|cells| - 1];
      assert cells == front + [last];
      PushCellsSnoc(body, front, last);
      PopPush(PushCells(body, front), Cell(last));
      PowerupsRoundTrip(body, front, acc + [last]);
      ReverseSnoc(front, last);
      assert acc + [last] + Reverse(front) == acc + Reverse(cells);
    }
  }

  lemma {:induction false} PushPlayersSnoc(body: seq<byte>, order: seq<uint32>, id: uint32,
                                           players: map<uint32, PlayerData>)
    requires Sendable(players) && id in players && forall i :: 0 <= i < |order| ==> order[i] in players
    ensures var p := players[id];
            PushPlayers(body, order + [id], players)
            == PushPlayer(PushPlayers(body, order, players), id, p.color, p.tail)
    decreases |order|
  {
    if order == [] {
      assert order + [id] == [id];
    } else {
      var p := players[order[0]];
      PushPlayersSnoc(PushPlayer(body, order[0], p.color, p.tail), order[1..], id, players);
      assert (order + [id])[1..] == order[1..] + [id];
    }
  }

  /** The clients' copies of the players in `ids`. */
  function Copies(ids: set<uint32>, players: map<uint32, PlayerData>): map<uint32, ClientPlayer>
    requires ids <= players.Keys
  {
    map id | id in ids :: NewClientPlayer(players[id].tail, players[id].color)
  }

  lemma CopiesMore(ids: set<uint32>, last: uint32, players: map<uint32, PlayerData>, acc: map<uint32, ClientPlayer>)
    requires ids <= players.Keys && last in players
    ensures acc[last := NewClientPlayer(players[last].tail, players[last].color)] + Copies(ids, players)
            == acc + Copies(ids + {last}, players)
  {
  }

  /** `after` is `before` with a live player for each of `ids`, with the server's tail and colour, facing
      up and without food, and with everyone else as before. */
  ghost predicate TookOver(before: map<uint32, ClientPlayer>, ids: set<uint32>, players: map<uint32, PlayerData>,
                           after: map<uint32, ClientPlayer>)
    requires ids <= players.Keys
  {
    && after.Keys == before.Keys + ids
    && (forall id :: id in ids ==>
          after[id] == ClientPlayer(Snake.Body(players[id].tail, true, 0, Up), players[id].color))
    && forall id :: id in before && id !in ids ==> after[id] == before[id]
  }

  lemma CopiesTakeOver(before: map<uint32, ClientPlayer>, ids: set<uint32>, players: map<uint32, PlayerData>)
    requires ids <= players.Keys
    ensures TookOver(before, ids, players, before + Copies(ids, players))
  {
  }

  lemma ElementsSnoc<T>(s: seq<T>, x: T)
    ensures Elements(s + [x]) == Elements(s) + {x}
  {
    forall y | y in Elements(s) + {x}
      ensures y in Elements(s + [x])
    {
      if y in s {
        var i :| 0 <= i < |s| && s[i] == y;
        assert (s + [x])[i] == y;
      } else {
        assert (s + [x])[|s|] == y;
      }
    }
  }

  lemma {:induction false} PlayersComeBack(body: seq<byte>, order: seq<uint32>, players: map<uint32, PlayerData>,
                                           acc: map<uint32, ClientPlayer>)
    requires Sendable(players) && forall i :: 0 <= i < |order| ==> order[i] in players
    ensures Elements(order) <= players.Keys
    ensures PopPlayers(PushPlayers(body, order, players), |order|, acc)
            == Some((acc + Copies(Elements(order), players), body))
    decreases |order|
  {
    hide PushPlayer, PopPlayer, NewClientPlayer;
    if order == [] {
      assert acc + Copies({}, players) == acc;
      assert Elements(order) == {};
    } else {
      var front, last := order[..|order| - 1], order[|order| - 1];
      assert order == front + [last];
      var p := players[last];
      var acc' := acc[last := NewClientPlayer(p.tail, p.color)];
      PlayersComeBack(body, front, players, acc');
      ElementsSnoc(front, last);
      CopiesMore(Elements(front), last, players, acc);
      hide Copies, Elements;
      PushPlayersSnoc(body, front, last, players);
      PlayerComesBack(PushPlayers(body, front, players), last, p.color, p.tail);
    }
  }

  /** Any players come back, live, with their tails and colours. */
  lemma PlayersRoundTrip(body: seq<byte>, order: seq<uint32>, players: map<uint32, PlayerData>,
                         acc: map<uint32, ClientPlayer>)
    requires Sendable(players) && forall i :: 0 <= i < |order| ==> order[i] in players
    ensures Elements(order) <= players.Keys
    ensures PopPlayers(PushPlayers(body, order, players), |order|, acc)
            == Some((acc + Copies(Elements(order), players), body))
    ensures TookOver(acc, Elements(order), players, acc + Copies(Elements(order), players))
  {
    PlayersComeBack(body, order, players, acc);
    CopiesTakeOver(acc, Elements(order), players);
  }

  lemma EnumeratesSize<V>(order: seq<uint32>, m: map<uint32, V>)
    requires Enumerates(order, m)
    ensures |order| == |m|
  {
    DistinctSize(order);
    assert |m.Keys| == |m|;
  }

  lemma {:induction false} DistinctSize<T>(s: seq<T>)
    requires Distinct(s)
    ensures |Elements(s)| == |s|
  {
    if s != [] {
      var front, last := s[..|s| - 1], s[|s| - 1];
      DistinctSize(front);
      ElementsSnoc(front, last);
      assert s == front + [last];
    }
  }

  lemma PowerupListRoundTrip(body: seq<byte>, powerups: seq<Position>)
    requires Countable(powerups)
    ensures PopPowerupList(Push(PushCells(body, powerups), Size(|powerups|)))
            == Some((DefaultEntries(|powerups|) + Reverse(powerups), body))
  {
    hide Push, Pop, PopPowerups, PushCells, DefaultEntries;
    PopPush(PushCells(body, powerups), Size(|powerups|));
    PowerupsRoundTrip(body, powerups, DefaultEntries(|powerups|));
  }

  lemma PlayerListRoundTrip(order: seq<uint32>, players: map<uint32, PlayerData>, known: map<uint32, ClientPlayer>)
    requires Sendable(players) && Enumerates(order, players)
    requires forall i :: 0 <= i < |order| ==> order[i] in players
    ensures PopPlayerList(Push(PushPlayers([], order, players), Size(|players|)), known)
            == Some((known + Copies(players.Keys, players), []))
  {
    hide Push, Pop, PopPlayers, PushPlayers, Copies;
    EnumeratesSize(order, players);
    PlayersRoundTrip([], order, players, known);
    PopPush(PushPlayers([], order, players), Size(|players|));
  }

  lemma ParseStages(body: seq<byte>, b1: seq<byte>, b2: seq<byte>, known: map<uint32, ClientPlayer>)
    requires Pop(body, IntKind).Some? && Pop(body, IntKind).value.1 == b1
    requires PopPowerupList(b1).Some? && PopPowerupList(b1).value.1 == b2
    requires PopPlayerList(b2, known).Some?
    ensures ParseSnapshot(body, known)
            == Some(Snapshot(Pop(body, IntKind).value.0.int_, PopPowerupList(b1).value.0,
                             PopPlayerList(b2, known).value.0, PopPlayerList(b2, known).value.1))
  {
    hide Pop, PopPowerupList, PopPlayerList;
  }

  /** The snapshot round trip, for any players, any order in which the server's map iterates, any
      powerups and any players the client already knew: the body is used up; the identifier, every
      player's colour and every tail in its order come back; the powerup list is n default entries
      and then the server's list reversed. */
  lemma SnapshotRoundTrip(order: seq<uint32>, players: map<uint32, PlayerData>, powerups: seq<Position>,
                          clientID: uint32, known: map<uint32, ClientPlayer>)
    requires Sendable(players) && Countable(powerups) && Enumerates(order, players)
    requires forall i :: 0 <= i < |order| ==> order[i] in players
    ensures ParseSnapshot(SnapshotBody(order, players, powerups, clientID), known)
            == Some(Snapshot(AsInt32(clientID), DefaultEntries(|powerups|) + Reverse(powerups),
                             known + Copies(players.Keys, players), []))
    ensures TookOver(known, players.Keys, players, known + Copies(players.Keys, players))
  {
    CopiesTakeOver(known, players.Keys, players);
    hide Push, Pop, PushCells, PushPlayers, PopPowerupList, PopPlayerList, Copies, ParseSnapshot, DefaultEntries,
      Reverse;
    var b1 := Push(PushPlayers([], order, players), Size(|players|));
    var b2 := Push(PushCells(b1, powerups), Size(|powerups|));
    PopWordAsInt(b2, clientID);
    PowerupListRoundTrip(b1, powerups);
    PlayerListRoundTrip(order, players, known);
    ParseStages(Push(b2, Word(clientID)), b2, b1, known);
  }

  // ---------------------------------------------------------------- player updates

  function UpdateBody(tail: seq<Position>, direction: Direction, id: int32): seq<byte>
    requires Countable(tail)
  {
    Push(Push(PushTail([], tail), Word(Direction32(direction))), Int(id))
  }

  datatype Update = Update(id: int32, direction: Direction, tail: seq<Position>, rest: seq<byte>)

  /** What the server and the other clients make of an `UpdatePlayer` body. */
  function ParseUpdate(body: seq<byte>): Option<Update> {
    match Pop(body, IntKind)
    case None => None
    case Some((id, b1)) =>
      match Pop(b1, WordKind)
      case None => None
      case Some((dir, b2)) =>
        match PopTail(b2)
        case None => None
        case Some((tail, rest)) => Some(Update(id.int_, DirectionOf(dir.word), tail, rest))
  }

  lemma UpdateRoundTrip(tail: seq<Position>, direction: Direction, id: int32)
    requires Countable(tail)
    ensures ParseUpdate(UpdateBody(tail, direction, id)) == Some(Update(id, direction, tail, []))
  {
    hide Push, Pop, PushTail, PopTail;
    var b1 := PushTail([], tail);
    var b2 := Push(b1, Word(Direction32(direction)));
    PopPush(b2, Int(id));
    PopPush(b1, Word(Direction32(direction)));
    TailRoundTrip([], tail);
  }

  // ---------------------------------------------------------------- the bytes of a body

  /** The bytes of cells, one behind the other. */
  function CellBytes(cells: seq<Position>): seq<byte> {
    if cells == [] then [] else Encode(Cell(cells[0])) + CellBytes(cells[1..])
  }

  lemma {:induction false} CellsBehind(body: seq<byte>, cells: seq<Position>)
    ensures PushCells(body, cells) == body + CellBytes(cells)
    decreases |cells|
  {
    hide Encode;
    if cells == [] {
      assert body + CellBytes(cells) == body;
    } else {
      CellsBehind(Push(body, Cell(cells[0])), cells[1..]);
      Assoc(body, Encode(Cell(cells[0])), CellBytes(cells[1..]));
    }
  }

  /** A player is its cells from head to tail, their number, its colour and its identifier. */
  lemma PlayerLayout(body: seq<byte>, id: uint32, color: uint32, tail: seq<Position>)
    requires Countable(tail)
    ensures PushPlayer(body, id, color, tail)
            == body + CellBytes(tail) + Encode(Size(|tail|)) + Encode(Word(color)) + Encode(Word(id))
  {
    hide Encode;
    CellsBehind(body, tail);
  }

  /** The numbers under which directions travel. */
  lemma DirectionNumbers(d: Direction)
    ensures Direction32(d) == match d
            case Up => 0
            case Right => 1
            case Down => 2
            case Left => 3
            case Beyond(n) => n
    ensures DirectionOf(Direction32(d)) == d
  {
  }

  /** A report is the cells from head to tail, their number, the number of the direction and the identifier. */
  lemma UpdateLayout(tail: seq<Position>, direction: Direction, id: int32)
    requires Countable(tail)
    ensures UpdateBody(tail, direction, id)
            == CellBytes(tail) + Encode(Size(|tail|))
               + Encode(Word(match direction
                             case Up => 0
                             case Right => 1
                             case Down => 2
                             case Left => 3
                             case Beyond(n) => n))
               + Encode(Int(id))
  {
    hide Encode, Direction32;
    DirectionNumbers(direction);
    CellsBehind([], tail);
    assert [] + CellBytes(tail) == CellBytes(tail);
  }

  function PlayerBytes(order: seq<uint32>, players: map<uint32, PlayerData>): seq<byte>
    requires Sendable(players) && forall i :: 0 <= i < |order| ==> order[i] in players
  {
    if order == [] then []
    else
      var p := players[order[0]];
      CellBytes(p.tail) + Encode(Size(|p.tail|)) + Encode(Word(p.color)) + Encode(Word(order[0]))
      + PlayerBytes(order[1..], players)
  }

  lemma {:induction false} PlayersBehind(body: seq<byte>, order: seq<uint32>, players: map<uint32, PlayerData>)
    requires Sendable(players) && forall i :: 0 <= i < |order| ==> order[i] in players
    ensures PushPlayers(body, order, players) == body + PlayerBytes(order, players)
    decreases |order|
  {
    hide Encode, PushPlayer, CellBytes;
    if order == [] {
      assert body + PlayerBytes(order, players) == body;
    } else {
      var p := players[order[0]];
      PlayerLayout(body, order[0], p.color, p.tail);
      PlayersBehind(PushPlayer(body, order[0], p.color, p.tail), order[1..], players);
      FiveBehind(body, CellBytes(p.tail), Encode(Size(|p.tail|)), Encode(Word(p.color)), Encode(Word(order[0])),
                 PlayerBytes(order[1..], players));
    }
  }

  lemma FiveBehind(body: seq<byte>, a: seq<byte>, b: seq<byte>, c: seq<byte>, d: seq<byte>, e: seq<byte>)
    ensures body + a + b + c + d + e == body + (a + b + c + d + e)
  {
  }

  /** A snapshot is the players, their number, the powerups, their number, and the client's identifier. */
  lemma SnapshotLayout(order: seq<uint32>, players: map<uint32, PlayerData>, powerups: seq<Position>, id: uint32)
    requires Sendable(players) && Countable(powerups)
    requires forall i :: 0 <= i < |order| ==> order[i] in players
    ensures SnapshotBody(order, players, powerups, id)
            == PlayerBytes(order, players) + Encode(Size(|players|)) + CellBytes(powerups) + Encode(Size(|powerups|))
               + Encode(Word(id))
  {
    hide Encode, PushPlayers, PushCells, PlayerBytes, CellBytes;
    PlayersBehind([], order, players);
    assert [] + PlayerBytes(order, players) == PlayerBytes(order, players);
    CellsBehind(PlayerBytes(order, players) + Encode(Size(|players|)), powerups);
  }

  // ---------------------------------------------------------------- the loops

  /** The header that goes with a body after a push or a pop. */
  ghost predicate Sized(msg: MessageBuffer, id: uint32)
    reads msg
  {
    msg.header == Header(id, |msg.body| % TWO_32)
  }

  /** `AddPlayerToMsg`, and the start of `UpdateServer`. */
  method AddTail(msg: MessageBuffer, tail: seq<Position>)
    requires Countable(tail) && Sized(msg, msg.header.id)
    modifies msg
    ensures msg.body == PushTail(old(msg.body), tail) && Sized(msg, old(msg.header.id))
  {
    AddCells(msg, tail);
    msg.Push(Size(|tail|));
  }

  method AddCells(msg: MessageBuffer, cells: seq<Position>)
    requires Sized(msg, msg.header.id)
    modifies msg
    ensures msg.body == PushCells(old(msg.body), cells) && Sized(msg, old(msg.header.id))
  {
    for i := 0 to |cells|
      invariant PushCells(old(msg.body), cells) == PushCells(msg.body, cells[i..])
      invariant Sized(msg, old(msg.header.id))
    {
      msg.Push(Cell(cells[i]));
      assert cells[i..][1..] == cells[i + 1..];
    }
  }

  /** Every decoder's loop for a tail. */
  method TakeTail(msg: MessageBuffer) returns (tail: seq<Position>)
    requires PopTail(msg.body).Some?
    modifies msg
    ensures PopTail(old(msg.body)) == Some((tail, msg.body))
  {
    hide Pop, Decode;
    var n := msg.Pop(SizeKind);
    tail := [];
    for i := 0 to n.size
      invariant PopTail(old(msg.body)) == PopCells(msg.body, n.size - i, tail)
    {
      assert Pop(msg.body, CellKind).Some?;
      var pos := msg.Pop(CellKind);
      tail := [pos.cell] + tail;
    }
  }

  /** The loop over the players that fills the snapshot. */
  method AddPlayers(msg: MessageBuffer, order: seq<uint32>, players: map<uint32, PlayerData>)
    requires Sendable(players) && Sized(msg, msg.header.id)
    requires forall i :: 0 <= i < |order| ==> order[i] in players
    modifies msg
    ensures msg.body == PushPlayers(old(msg.body), order, players) && Sized(msg, old(msg.header.id))
  {
    for i := 0 to |order|
      invariant PushPlayers(old(msg.body), order, players) == PushPlayers(msg.body, order[i..], players)
      invariant Sized(msg, old(msg.header.id))
    {
      var player := players[order[i]];
      AddTail(msg, player.tail);
      msg.Push(Word(player.color));
      msg.Push(Word(order[i]));
      assert order[i..][1..] == order[i + 1..];
    }
  }

  /** The message that starts a new client off. */
  method SnapshotMessage(typ: uint32, order: seq<uint32>, players: map<uint32, PlayerData>, powerups: seq<Position>,
                         clientID: uint32)
    returns (msg: MessageBuffer)
    requires Sendable(players) && Countable(powerups)
    requires forall i :: 0 <= i < |order| ==> order[i] in players
    ensures fresh(msg) && Sized(msg, typ) && msg.body == SnapshotBody(order, players, powerups, clientID)
  {
    msg := new MessageBuffer(typ);
    AddPlayers(msg, order, players);
    msg.Push(Size(|players|));
    AddCells(msg, powerups);
    msg.Push(Size(|powerups|));
    msg.Push(Word(clientID));
  }
}
