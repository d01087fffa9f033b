/** The game client (snakeclient.cpp): it takes the server's messages apart in the order they came,
    eats powerups at once, and reports its own snake. */
module Client {
  import opened Common
  import opened Message
  import opened Connection
  import opened Codec
  import opened Protocol
  import opened Queues
  import Lobbies
  import Replica
  import Server
  import Snake

  // ---------------------------------------------------------------- what a message does

  datatype State = State(clientID: int32, powerups: seq<Position>, players: map<uint32, ClientPlayer>,
    gameStarted: bool)

  /** What `operator[]` puts under a key that is not there. */
  const NOBODY := ClientPlayer(Snake.Body([], true, 0, Up), 0)

  function PlayerAt(players: map<uint32, ClientPlayer>, id: uint32): ClientPlayer {
    if id in players then players[id] else NOBODY
  }

  function WithSnapshot(s: State, body: seq<byte>): Option<State> {
    match ParseSnapshot(body, s.players)
    case None => None
    case Some(t) => Some(s.(clientID := t.clientID, powerups := t.powerups, players := t.players))
  }

  function WithNewPlayer(s: State, body: seq<byte>): Option<State> {
    match PopPlayer(body)
    case None => None
    case Some((id, player, _)) => Some(s.(players := s.players[id := player]))
  }

  function WithoutPlayer(s: State, body: seq<byte>): Option<State> {
    match Pop(body, IntKind)
    case None => None
    case Some((id, _)) => Some(s.(players := s.players - {AsUint32(id.int_)}))
  }

  function WithPowerup(s: State, body: seq<byte>): Option<State> {
    match Pop(body, CellKind)
    case None => None
    case Some((v, _)) => Some(s.(powerups := s.powerups + [v.cell]))
  }

  function WithoutPowerup(s: State, body: seq<byte>): Option<State> {
    match Pop(body, CellKind)
    case None => None
    case Some((v, _)) => Some(s.(powerups := RemoveFirst(s.powerups, v.cell)))
  }

  function Redirected(p: ClientPlayer, direction: Direction, tail: seq<Position>): ClientPlayer {
    p.(body := p.body.(direction := direction, tail := tail))
  }

  function WithUpdate(s: State, body: seq<byte>): Option<State> {
    match ParseUpdate(body)
    case None => None
    case Some(u) =>
      var id := AsUint32(u.id);
      Some(s.(players := s.players[id := Redirected(PlayerAt(s.players, id), u.direction, u.tail)]))
  }

  function WithKill(s: State, body: seq<byte>): Option<State> {
    match Pop(body, IntKind)
    case None => None
    case Some((v, _)) =>
      var id := AsUint32(v.int_);
      var p := PlayerAt(s.players, id);
      Some(s.(players := s.players[id := p.(body := Snake.Killed(p.body))]))
  }

  /** The switch of `HandleMessages`. The program has no answer for a body that is too short. */
  function Handled(s: State, m: Msg): Option<State> {
    if m.header.id == SERVER_VALIDATION then WithSnapshot(s, m.body)
    else if m.header.id == NEW_PLAYER then WithNewPlayer(s, m.body)
    else if m.header.id == REMOVE_PLAYER then WithoutPlayer(s, m.body)
    else if m.header.id == NEW_POWERUP then WithPowerup(s, m.body)
    else if m.header.id == UPDATE_PLAYER then WithUpdate(s, m.body)
    else if m.header.id == POWERUP_EATEN then WithoutPowerup(s, m.body)
    else if m.header.id == START_GAME then Some(s.(gameStarted := true))
    else if m.header.id == KILL_PLAYER then WithKill(s, m.body)
    else Some(s)
  }

  function AllHandled(s: State, ms: seq<OwnedMessage>): Option<State>
    decreases |ms|
  {
    if ms == [] then Some(s)
    else
      match Handled(s, ms[0].msg)
      case None => None
      case Some(t) => AllHandled(t, ms[1..])
  }

  // ---------------------------------------------------------------- the class

  class SnakeClient {
    const connection: Connection?
    const incoming: Queue<OwnedMessage>
    var clientID: int32
    var powerups: seq<Position>
    var players: map<uint32, ClientPlayer>
    var gameStarted: bool

    function View(): State
      reads this
    {
      State(clientID, powerups, players, gameStarted)
    }

    constructor (connection: Connection?, incoming: Queue<OwnedMessage>)
      ensures View() == State(-1, [], map[], false)
      ensures this.connection == connection && this.incoming == incoming
    {
      this.connection, this.incoming := connection, incoming;
      clientID, powerups, players, gameStarted := -1, [], map[], false;
    }

    /** Everything that is in the incoming queue is handled, in order. */
    method HandleMessages()
      requires AllHandled(View(), incoming.items).Some?
      modifies this, incoming
      ensures Some(View()) == old(AllHandled(View(), incoming.items))
      ensures incoming.items == []
    {
      hide Handled;
      var empty := incoming.IsEmpty();
      while !empty
        invariant AllHandled(View(), incoming.items) == old(AllHandled(View(), incoming.items))
        invariant empty <==> incoming.items == []
        decreases |incoming.items|
      {
        var owned := incoming.PopFront();
        var msg := new MessageBuffer.Copy(owned.msg);
        HandleMessage(msg);
        empty := incoming.IsEmpty();
      }
    }

    method HandleMessage(msg: MessageBuffer)
      requires Handled(View(), msg.Value()).Some?
      modifies this, msg
      ensures Some(View()) == old(Handled(View(), msg.Value()))
    {
      hide WithSnapshot, WithNewPlayer, WithoutPlayer, WithPowerup, WithUpdate, WithoutPowerup, WithKill;
      if msg.header.id == SERVER_VALIDATION {
        OnServerValidation(msg);
      } else if msg.header.id == NEW_PLAYER {
        OnNewPlayer(msg);
      } else if msg.header.id == REMOVE_PLAYER {
        OnRemovePlayer(msg);
      } else if msg.header.id == NEW_POWERUP {
        OnNewPowerup(msg);
      } else if msg.header.id == UPDATE_PLAYER {
        OnUpdatePlayer(msg);
      } else if msg.header.id == POWERUP_EATEN {
        OnPowerupEaten(msg);
      } else if msg.header.id == START_GAME {
        gameStarted := true;
      } else if msg.header.id == KILL_PLAYER {
        OnKillPlayer(msg);
      }
    }

    method OnServerValidation(msg: MessageBuffer)
      requires WithSnapshot(View(), msg.body).Some?
      modifies this, msg
      ensures Some(View()) == old(WithSnapshot(View(), msg.body))
    {
      hide Pop, Decode, PopPowerupList, PopPlayerList;
      var id := msg.Pop(IntKind);
      clientID := id.int_;
      TakePowerups(msg);
      TakePlayers(msg);
    }

    /** The list starts with default entries; what is popped goes behind them. */
    method TakePowerups(msg: MessageBuffer)
      requires PopPowerupList(msg.body).Some?
      modifies `powerups, msg
      ensures PopPowerupList(old(msg.body)) == Some((powerups, msg.body))
    {
      hide Pop, Decode;
      var n := msg.Pop(SizeKind);
      powerups := DefaultEntries(n.size);
      for c := 0 to n.size
        invariant PopPowerupList(old(msg.body)) == PopPowerups(msg.body, n.size - c, powerups)
      {
        assert Pop(msg.body, CellKind).Some?;
        var powerup := msg.Pop(CellKind);
        powerups := powerups + [powerup.cell];
      }
    }

    method TakePlayers(msg: MessageBuffer)
      requires PopPlayerList(msg.body, players).Some?
      modifies `players, msg
      ensures old(PopPlayerList(msg.body, players)) == Some((players, msg.body))
    {
      hide Pop, Decode, PopPlayer;
      var n := msg.Pop(SizeKind);
      for c := 0 to n.size
        invariant old(PopPlayerList(msg.body, players)) == PopPlayers(msg.body, n.size - c, players)
      {
        assert PopPlayer(msg.body).Some?;
        var playerID, player := TakePlayer(msg);
        players := players[playerID := player];
      }
    }

    static method TakePlayer(msg: MessageBuffer) returns (playerID: uint32, player: ClientPlayer)
      requires PopPlayer(msg.body).Some?
      modifies msg
      ensures PopPlayer(old(msg.body)) == Some((playerID, player, msg.body))
    {
      hide Pop, Decode;
      var id := msg.Pop(IntKind);
      var color := msg.Pop(WordKind);
      var tail := TakeTail(msg);
      playerID, player := AsUint32(id.int_), NewClientPlayer(tail, color.word);
    }

    /** Here the identifier is popped as a `uint32_t`. */
    method OnNewPlayer(msg: MessageBuffer)
      requires WithNewPlayer(View(), msg.body).Some?
      modifies `players, msg
      ensures Some(View()) == old(WithNewPlayer(View(), msg.body))
    {
      PopIntOrWord(msg.body);
      hide Pop, Decode;
      var newClientID := msg.Pop(WordKind);
      var color := msg.Pop(WordKind);
      var tail := TakeTail(msg);
      players := players[newClientID.word := NewClientPlayer(tail, color.word)];
    }

    method OnRemovePlayer(msg: MessageBuffer)
      requires WithoutPlayer(View(), msg.body).Some?
      modifies `players, msg
      ensures Some(View()) == old(WithoutPlayer(View(), msg.body))
    {
      hide Pop, Decode;
      var id := msg.Pop(IntKind);
      players := players - {AsUint32(id.int_)};
    }

    method OnNewPowerup(msg: MessageBuffer)
      requires WithPowerup(View(), msg.body).Some?
      modifies `powerups, msg
      ensures Some(View()) == old(WithPowerup(View(), msg.body))
    {
      hide Pop, Decode;
      var powerup := msg.Pop(CellKind);
      powerups := powerups + [powerup.cell];
    }

    /** The player is created when it is not known. */
    method OnUpdatePlayer(msg: MessageBuffer)
      requires WithUpdate(View(), msg.body).Some?
      modifies `players, msg
      ensures Some(View()) == old(WithUpdate(View(), msg.body))
    {
      hide Pop, Decode;
      var newClientID := msg.Pop(IntKind);
      var id := AsUint32(newClientID.int_);
      var dir := msg.Pop(WordKind);
      var updatePlayer := PlayerAt(players, id);
      var tail := TakeTail(msg);
      players := players[id := Redirected(updatePlayer, DirectionOf(dir.word), tail)];
    }

    method OnPowerupEaten(msg: MessageBuffer)
      requires WithoutPowerup(View(), msg.body).Some?
      modifies `powerups, msg
      ensures Some(View()) == old(WithoutPowerup(View(), msg.body))
    {
      hide Pop, Decode;
      var powerup := msg.Pop(CellKind);
      powerups := Server.EraseFirst(powerups, powerup.cell);
    }

    method OnKillPlayer(msg: MessageBuffer)
      requires WithKill(View(), msg.body).Some?
      modifies `players, msg
      ensures Some(View()) == old(WithKill(View(), msg.body))
    {
      hide Pop, Decode;
      var playerKilledID := msg.Pop(IntKind);
      var id := AsUint32(playerKilledID.int_);
      var p := PlayerAt(players, id);
      players := players[id := p.(body := Snake.Killed(p.body))];
    }

    // -------------------------------------------------------------- sending

    predicate IsConnected()
      reads connection
    {
      connection != null && connection.open
    }

    /** `ClientInterface::Send`: without a connection the message is dropped. */
    method Send(m: Msg)
      modifies if connection == null then {} else {connection}
      ensures IsConnected() == old(IsConnected())
      ensures connection != null ==>
                connection.View() == if IsConnected() then old(Act(connection.View(), Post(m)))
                  else old(connection.View())
      ensures connection != null ==>
                connection.Sent() == old(connection.Sent()) + if IsConnected() then [m] else []
    {
      if connection == null || !connection.open {
        return;
      }
      connection.Send(m);
    }

    /** Eating is done at once on this side, and the server is told. */
    method EatPowerup(c: nat)
      requires c < |powerups|
      modifies `players, `powerups, if connection == null then {} else {connection}
      ensures powerups == old(powerups)[..c] + old(powerups)[c + 1..]
      ensures var id := AsUint32(clientID);
              var p := PlayerAt(old(players), id);
              players == old(players)[id := p.(body := p.body.(food := p.body.food + 1))]
      ensures connection != null ==>
                && connection.View() == (if IsConnected()
                     then old(Act(connection.View(), Post(CellMsg(POWERUP_EATEN, powerups[c]))))
                     else old(connection.View()))
                && connection.Sent()
                   == old(connection.Sent() + if IsConnected() then [CellMsg(POWERUP_EATEN, powerups[c])] else [])
    {
      var powerupEaten := powerups[c];
      var p := PlayerAt(players, AsUint32(clientID));
      players := players[AsUint32(clientID) := p.(body := p.body.(food := p.body.food + 1))];
      powerups := powerups[..c] + powerups[c + 1..];
      var m := Server.MakeCellMsg(POWERUP_EATEN, powerupEaten);
      Send(m);
    }

    /** The own snake as it is, from head to tail, its length, its direction, and the identifier. */
    method UpdateServer()
      requires Countable(PlayerAt(players, AsUint32(clientID)).body.tail)
      modifies `players, if connection == null then {} else {connection}
      ensures players == old(players)[AsUint32(clientID) := PlayerAt(old(players), AsUint32(clientID))]
      ensures connection != null ==>
                && connection.View() == (if IsConnected() then old(Act(connection.View(), Post(Report())))
                                         else old(connection.View()))
                && connection.Sent() == old(connection.Sent() + if IsConnected() then [Report()] else [])
    {
      hide Encode;
      var msg := new MessageBuffer(UPDATE_PLAYER);
      var player := PlayerAt(players, AsUint32(clientID)).body;
      players := players[AsUint32(clientID) := PlayerAt(players, AsUint32(clientID))];
      AddTail(msg, player.tail);
      msg.Push(Word(Direction32(player.direction)));
      msg.Push(Int(clientID));
      Send(msg.Value());
    }

    function Report(): (m: Msg)
      reads this
      requires Countable(PlayerAt(players, AsUint32(clientID)).body.tail)
      ensures var p := PlayerAt(players, AsUint32(clientID)).body;
              m.header.id == UPDATE_PLAYER && ParseUpdate(m.body) == Some(Update(clientID, p.direction, p.tail, []))
    {
      var player := PlayerAt(players, AsUint32(clientID)).body;
      UpdateRoundTrip(player.tail, player.direction, clientID);
      UpdateMsg(player.tail, player.direction, clientID)
    }

    /** Only the server's answer starts the game. */
    method AttemptGameStart()
      modifies if connection == null then {} else {connection}
      ensures connection != null ==>
                && connection.View() == (if IsConnected() && !gameStarted
                     then old(Act(connection.View(), Post(Empty(START_GAME)))) else old(connection.View()))
                && connection.Sent()
                   == old(connection.Sent() + if IsConnected() && !gameStarted then [Empty(START_GAME)] else [])
    {
      if !gameStarted {
        Send(Empty(START_GAME));
      }
    }
  }

  function UpdateMsg(tail: seq<Position>, direction: Direction, id: int32): Msg
    requires Countable(tail)
  {
    BodyMsg(UPDATE_PLAYER, UpdateBody(tail, direction, id))
  }

  /** Popping an identifier as an `int` and turning it into a key is popping it as a `uint32_t`. */
  lemma PopIntOrWord(body: seq<byte>)
    ensures match Pop(body, IntKind)
            case None => Pop(body, WordKind) == None
            case Some((v, rest)) => Pop(body, WordKind) == Some((Word(AsUint32(v.int_)), rest))
  {
  }

  // ---------------------------------------------------------------- both ends together

  /** The snapshot in the state of the client: its identifier, the default entries and the server's
      powerups in reverse, and a copy of every player. */
  lemma SnapshotHandled(s: State, order: seq<uint32>, players: map<uint32, PlayerData>, powerups: seq<Position>,
                        id: uint32)
    requires Sendable(players) && Countable(powerups) && Enumerates(order, players)
    requires forall i :: 0 <= i < |order| ==> order[i] in players
    ensures Handled(s, Lobbies.SnapshotMsg(order, players, powerups, id))
            == Some(State(AsInt32(id), DefaultEntries(|powerups|) + Reverse(powerups),
                          s.players + Copies(players.Keys, players), s.gameStarted))
  {
    hide SnapshotBody, ParseSnapshot, DefaultEntries, Reverse, Copies;
    SnapshotRoundTrip(order, players, powerups, id, s.players);
  }

  /** The same, entry by entry. The list starts with as many entries at the origin as there are powerups.
      Every player of the server is there, alive, facing up and without food, with its tail and colour;
      whom else the client knew it knows as before. */
  lemma SnapshotEntries(s: State, order: seq<uint32>, players: map<uint32, PlayerData>, powerups: seq<Position>,
                        id: uint32)
    requires Sendable(players) && Countable(powerups) && Enumerates(order, players)
    requires forall i :: 0 <= i < |order| ==> order[i] in players
    ensures var r, n := Handled(s, Lobbies.SnapshotMsg(order, players, powerups, id)), |powerups|;
            && r.Some? && AsUint32(r.value.clientID) == id && r.value.gameStarted == s.gameStarted
            && |r.value.powerups| == 2 * n
            && (forall i :: 0 <= i < n ==> r.value.powerups[i] == Position(0, 0))
            && (forall i :: n <= i < 2 * n ==> r.value.powerups[i] == powerups[2 * n - 1 - i])
            && r.value.players.Keys == s.players.Keys + players.Keys
            && (forall k :: k in players ==>
                  r.value.players[k] == ClientPlayer(Snake.Body(players[k].tail, true, 0, Up), players[k].color))
            && forall k :: k in s.players && k !in players ==> r.value.players[k] == s.players[k]
  {
    hide Handled, Lobbies.SnapshotMsg, Reverse, DefaultEntries, Enumerates, Copies;
    SnapshotHandled(s, order, players, powerups, id);
    WordIntAgree(id, 0);
    CopiesTakeOver(s.players, players.Keys, players);
    SnapshotList(powerups);
  }

  lemma SnapshotList(powerups: seq<Position>)
    ensures var list, n := DefaultEntries(|powerups|) + Reverse(powerups), |powerups|;
            && |list| == 2 * n
            && (forall i :: 0 <= i < n ==> list[i] == Position(0, 0))
            && forall i :: n <= i < 2 * n ==> list[i] == powerups[2 * n - 1 - i]
  {
    hide Reverse;
    var list, n := DefaultEntries(|powerups|) + Reverse(powerups), |powerups|;
    forall i | n <= i < 2 * n
      ensures list[i] == powerups[2 * n - 1 - i]
    {
      ReverseAt(powerups, i - n);
    }
  }

  lemma {:induction false} ReverseAt(s: seq<Position>, i: nat)
    requires i < |s|
    ensures Reverse(s)[i] == s[|s| - 1 - i]
  {
    if i < |s| - 1 {
      ReverseAt(s[1..], i);
    }
  }

  /** The announced player is there, alive, facing up and without food, with its tail and colour, and
      nothing else changes. */
  lemma NewPlayerHandled(s: State, id: uint32, p: PlayerData)
    requires Countable(p.tail)
    ensures Handled(s, Lobbies.PlayerMsg(id, p))
            == Some(s.(players := s.players[id := ClientPlayer(Snake.Body(p.tail, true, 0, Up), p.color)]))
  {
    hide PushPlayer, PopPlayer;
    PlayerRoundTrip([], id, p.color, p.tail);
  }

  /** The start is what the server says it is, and changes nothing else. */
  lemma StartHandled(s: State, m: Msg)
    requires m.header.id == START_GAME
    ensures Handled(s, m) == Some(State(s.clientID, s.powerups, s.players, true))
  {
    hide Pop, PopPlayer, ParseUpdate;
  }

  lemma RemovalHandled(s: State, id: uint32)
    ensures Handled(s, RemovePlayerMsg(id)) == Some(s.(players := s.players - {id}))
  {
    hide Push, Pop;
    PopPush([], Int(AsInt32(id)));
    WordIntAgree(id, 0);
  }

  /** The server reads a player's report, and every other client reads the relayed copy, as the same
      tail, in the sender's order, and the same direction. On the client the player's colour, food and
      life stay; one that it does not know is put in, alive, without food, with colour 0. */
  lemma RelayAgreement(s: State, tail: seq<Position>, direction: Direction, id: int32)
    requires Countable(tail)
    ensures var m, key := UpdateMsg(tail, direction, id), AsUint32(id);
            && ParseUpdate(m.body) == Some(Update(id, direction, tail, []))
            && var p := if key in s.players then s.players[key] else ClientPlayer(Snake.Body([], true, 0, Up), 0);
               Handled(s, m)
               == Some(s.(players := s.players[
                            key := ClientPlayer(Snake.Body(tail, p.body.alive, p.body.food, direction), p.color)]))
  {
    hide UpdateBody, ParseUpdate;
    UpdateRoundTrip(tail, direction, id);
  }

  // ---------------------------------------------------------------- who is there

  /** The players that a message other than a snapshot puts into the map when they are not there. */
  function Inserts(m: Msg): set<uint32> {
    if m.header.id == NEW_PLAYER then
      match PopPlayer(m.body) case None => {} case Some((id, _, _)) => {id}
    else if m.header.id == UPDATE_PLAYER then
      match ParseUpdate(m.body) case None => {} case Some(u) => {AsUint32(u.id)}
    else if m.header.id == KILL_PLAYER then
      match Pop(m.body, IntKind) case None => {} case Some((v, _)) => {AsUint32(v.int_)}
    else {}
  }

  predicate GameMessage(m: Msg) {
    m.header.id != SERVER_VALIDATION && !IsRemoval(m)
  }

  lemma KeysAfter(s: State, t: State, m: Msg)
    requires GameMessage(m) && Handled(s, m).Some?
    ensures Handled(t, m).Some? && Handled(t, m).value.players.Keys == t.players.Keys + Inserts(m)
  {
    hide Pop, PopPlayer, ParseUpdate;
  }

  function FromServer(ms: seq<Msg>): seq<OwnedMessage> {
    seq(|ms|, i requires 0 <= i < |ms| => OwnedMessage(null, ms[i]))
  }

  lemma HandledOne(s: State, m: Msg)
    ensures AllHandled(s, FromServer([m])) == Handled(s, m)
  {
    hide Handled;
    assert FromServer([m])[1..] == [];
  }

  lemma HandledTwo(s: State, m: Msg, n: Msg)
    requires Handled(s, m).Some?
    ensures AllHandled(s, FromServer([m] + [n])) == Handled(Handled(s, m).value, n)
  {
    HandledOne(Handled(s, m).value, n);
    hide Handled;
    assert FromServer([m] + [n])[1..] == FromServer([n]);
  }

  lemma {:induction false} HandledConcat(s: State, a: seq<Msg>, b: seq<Msg>)
    requires AllHandled(s, FromServer(a)).Some?
    ensures AllHandled(s, FromServer(a + b)) == AllHandled(AllHandled(s, FromServer(a)).value, FromServer(b))
    decreases |a|
  {
    hide Handled;
    if a == [] {
      assert a + b == b;
    } else {
      assert FromServer(a)[1..] == FromServer(a[1..]);
      assert FromServer(a + b)[1..] == FromServer(a[1..] + b);
      HandledConcat(Handled(s, a[0]).value, a[1..], b);
    }
  }

  /** The two orders in which a message and the announcement that a player is gone can arrive. */
  lemma TwoOrders(s: State, m: Msg, gone: uint32)
    requires GameMessage(m) && Handled(s, m).Some?
    ensures var first := AllHandled(s, FromServer([m] + [RemovePlayerMsg(gone)]));
            first.Some? && first.value.players.Keys == s.players.Keys + Inserts(m) - {gone}
    ensures var last := AllHandled(s, FromServer([RemovePlayerMsg(gone)] + [m]));
            last.Some? && last.value.players.Keys == s.players.Keys - {gone} + Inserts(m)
  {
    hide Handled, AllHandled, FromServer, Inserts, RemovePlayerMsg, GameMessage;
    var without := s.(players := s.players - {gone});
    RemovalHandled(s, gone);
    RemovalHandled(Handled(s, m).value, gone);
    KeysAfter(s, s, m);
    KeysAfter(s, without, m);
    HandledTwo(s, m, RemovePlayerMsg(gone));
    HandledTwo(s, RemovePlayerMsg(gone), m);
    assert without.players.Keys == s.players.Keys - {gone};
  }

  /** A member handles its mail from one broadcast, where the server may have found another member
      gone. The gone player is gone on the client too, unless the message is about that very player
      and this member comes after it in the list: then the announcement arrives first, and the
      message brings the player back. */
  lemma BroadcastPresence(infos: seq<Lobbies.Info>, j: nat, m: Msg, s: State)
    requires j < |infos| && infos[j].open && !infos[j].ignored && GameMessage(m) && Handled(s, m).Some?
    ensures var end := AllHandled(s, FromServer(Lobbies.Mail(infos, j, m)));
            var ghosts := if Lobbies.LostAt(infos) < j then Inserts(m) * Lobbies.LostIds(infos) else {};
            end.Some? && end.value.players.Keys == (s.players.Keys + Inserts(m) - Lobbies.LostIds(infos)) + ghosts
  {
    hide Handled, AllHandled, FromServer, Inserts, RemovePlayerMsg, GameMessage, Lobbies.LostAt, Lobbies.Mail;
    var lost := Lobbies.LostAt(infos);
    Lobbies.MailContents(infos, j, m);
    if lost >= |infos| {
      HandledOne(s, m);
      KeysAfter(s, s, m);
    } else {
      TwoOrders(s, m, infos[lost].id);
    }
  }

  /** Such a message exists: a kill is broadcast to everyone, and the killed player's own connection
      may be the one that is found closed. Every member after it keeps a dead player without a body
      that the server no longer has. */
  lemma KilledAndGone(infos: seq<Lobbies.Info>, j: nat, s: State)
    requires Lobbies.LostAt(infos) < j < |infos| && infos[j].open && !infos[j].ignored
    ensures var id := infos[Lobbies.LostAt(infos)].id;
            && id in Lobbies.LostIds(infos)
            && AllHandled(s, FromServer(Lobbies.Mail(infos, j, IntMsg(KILL_PLAYER, AsInt32(id)))))
               == Some(s.(players := s.players[id := ClientPlayer(Snake.Body([], false, 0, Up), 0)]))
  {
    hide Handled, AllHandled, FromServer, RemovePlayerMsg, IntMsg, Lobbies.LostAt, Lobbies.Mail;
    var id := infos[Lobbies.LostAt(infos)].id;
    var kill, without := IntMsg(KILL_PLAYER, AsInt32(id)), s.(players := s.players - {id});
    Lobbies.MailContents(infos, j, kill);
    RemovalHandled(s, id);
    KillHandled(without, id);
    HandledTwo(s, RemovePlayerMsg(id), kill);
    var p := ClientPlayer(Snake.Body([], false, 0, Up), 0);
    assert without.players[id := p] == s.players[id := p];
  }

  /** After a kill the player is dead and has no cells; its food, direction and colour stay, and so does
      everyone else. One that the client does not know is put in like that. */
  lemma KillHandled(s: State, id: uint32)
    ensures var p := if id in s.players then s.players[id] else ClientPlayer(Snake.Body([], true, 0, Up), 0);
            Handled(s, IntMsg(KILL_PLAYER, AsInt32(id)))
            == Some(s.(players := s.players[
                         id := ClientPlayer(Snake.Body([], false, p.body.food, p.body.direction), p.color)]))
  {
    hide Push, Pop;
    PopPush([], Int(AsInt32(id)));
    WordIntAgree(id, 0);
  }

  // ---------------------------------------------------------------- the powerup list

  /** What a message says about powerups, if anything. */
  function NotesOf(m: Msg): seq<Replica.Note> {
    if m.header.id == SERVER_VALIDATION then
      match Pop(m.body, IntKind)
      case None => []
      case Some((_, b1)) =>
        match PopPowerupList(b1)
        case None => []
        case Some((ps, _)) => [Replica.Snap(Reverse(ps[|ps| / 2..]))]
    else if m.header.id == NEW_POWERUP || m.header.id == POWERUP_EATEN then
      match Pop(m.body, CellKind)
      case None => []
      case Some((v, _)) => [if m.header.id == NEW_POWERUP then Replica.New(v.cell) else Replica.Eaten(v.cell)]
    else []
  }

  function AllNotes(ms: seq<OwnedMessage>): seq<Replica.Note> {
    if ms == [] then [] else NotesOf(ms[0].msg) + AllNotes(ms[1..])
  }

  lemma {:induction false} PoppedPowerups(body: seq<byte>, n: nat, acc: seq<Position>)
    ensures var r := PopPowerups(body, n, acc);
            r.Some? ==> |r.value.0| == |acc| + n && r.value.0[..|acc|] == acc
    decreases n
  {
    hide Pop;
    if n > 0 && Pop(body, CellKind).Some? {
      var (v, rest) := Pop(body, CellKind).value;
      PoppedPowerups(rest, n - 1, acc + [v.cell]);
      var r := PopPowerups(rest, n - 1, acc + [v.cell]);
      if r.Some? {
        assert r.value.0[..|acc|] == r.value.0[..|acc| + 1][..|acc|];
      }
    }
  }

  lemma {:induction false} ReverseTwice(s: seq<Position>)
    ensures Reverse(Reverse(s)) == s
  {
    if s != [] {
      ReverseTwice(s[1..]);
      ReverseSnoc(Reverse(s[1..]), s[0]);
    }
  }

  lemma PoppedList(body: seq<byte>)
    requires PopPowerupList(body).Some?
    ensures var ps := PopPowerupList(body).value.0; ps == Replica.Apply([], Replica.Snap(Reverse(ps[|ps| / 2..])))
  {
    hide Pop;
    var (n, rest) := Pop(body, SizeKind).value;
    PoppedPowerups(rest, n.size, DefaultEntries(n.size));
    var ps := PopPowerupList(body).value.0;
    var popped := ps[|ps| / 2..];
    ReverseTwice(popped);
    hide Reverse, DefaultEntries;
    assert ps == ps[..n.size] + popped;
  }

  lemma NotesOfOne(s: State, m: Msg)
    requires Handled(s, m).Some?
    ensures Handled(s, m).value.powerups == Replica.ApplyAll(s.powerups, NotesOf(m))
  {
    hide Pop, PopPowerupList, PopPlayerList, PopPlayer, ParseUpdate, RemoveFirst, Reverse;
    if m.header.id == SERVER_VALIDATION {
      PoppedList(Pop(m.body, IntKind).value.1);
    }
    if NotesOf(m) != [] {
      assert NotesOf(m)[1..] == [];
    }
  }

  lemma {:induction false} ApplyAllConcat(list: seq<Position>, a: seq<Replica.Note>, b: seq<Replica.Note>)
    ensures Replica.ApplyAll(list, a + b) == Replica.ApplyAll(Replica.ApplyAll(list, a), b)
    decreases |a|
  {
    hide Replica.Apply;
    if a == [] {
      assert a + b == b;
    } else {
      ApplyAllConcat(Replica.Apply(list, a[0]), a[1..], b);
      assert (a + b)[1..] == a[1..] + b;
    }
  }

  /** The client's powerup list, after any messages whatever, is what `Replica` makes of the notes in
      them. */
  lemma {:induction false} PowerupsFollowNotes(s: State, ms: seq<OwnedMessage>)
    requires AllHandled(s, ms).Some?
    ensures AllHandled(s, ms).value.powerups == Replica.ApplyAll(s.powerups, AllNotes(ms))
    decreases |ms|
  {
    hide Handled, NotesOf;
    if ms != [] {
      var t := Handled(s, ms[0].msg).value;
      NotesOfOne(s, ms[0].msg);
      PowerupsFollowNotes(t, ms[1..]);
      ApplyAllConcat(s.powerups, NotesOf(ms[0].msg), AllNotes(ms[1..]));
    }
  }

  /** The notes in what the server sends. */
  lemma ServerNotes(order: seq<uint32>, players: map<uint32, PlayerData>, powerups: seq<Position>, id: uint32,
                    p: Position)
    requires Sendable(players) && Countable(powerups) && forall i :: 0 <= i < |order| ==> order[i] in players
    ensures NotesOf(CellMsg(NEW_POWERUP, p)) == [Replica.New(p)]
    ensures NotesOf(CellMsg(POWERUP_EATEN, p)) == [Replica.Eaten(p)]
    ensures NotesOf(Lobbies.SnapshotMsg(order, players, powerups, id)) == [Replica.Snap(powerups)]
  {
    hide Pop, Push, PushPlayers, PushCells, PopPowerupList, DefaultEntries, Reverse;
    PopPush([], Cell(p));
    var b1 := Push(PushPlayers([], order, players), Size(|players|));
    PopWordAsInt(Push(PushCells(b1, powerups), Size(|powerups|)), id);
    PowerupListRoundTrip(b1, powerups);
    ReverseTwice(powerups);
    var ps := DefaultEntries(|powerups|) + Reverse(powerups);
    assert ps[|ps| / 2..] == Reverse(powerups);
  }
}
