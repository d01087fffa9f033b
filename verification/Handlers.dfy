/** The methods of the server's and the client's classes, each as a step of the system. Between two
    handlers the ghost state `g` is what the objects hold and have ever sent, however far asio is. */
module Handlers {
  import opened Common
  import opened Message
  import opened Connection
  import opened Codec
  import opened Protocol
  import opened FreeGrid
  import opened Queues
  import opened Lobbies
  import opened Game
  import opened Mailboxes
  import S = Server
  import Client

  // ---------------------------------------------------------------- the server

  /** `g` has the server's powerups, its list and players, and all that its connected clients were ever
      sent. */
  ghost predicate Shows(server: S.Server, g: Game)
    reads server`powerups, server`idCounter, server`connections, server`players
    reads (set c: Connection | c in server.connections)`id, (set c: Connection | c in server.connections)`open
    reads (set c: Connection | c in server.connections)`accepted, (set c: Connection | c in server.connections)`posted
  {
    && null !in server.connections && server.View() == g.lobby
    && server.powerups == g.powerups && server.idCounter == g.nextId
  }

  /** A new server is where the system starts. */
  method ServerBegins() returns (server: S.Server)
    ensures server.Steady() && Shows(server, Start()) && WellFormed(Start())
  {
    StartIsOk();
    server := new S.Server();
  }

  lemma MemberIs(server: S.Server, g: Game, client: Connection)
    requires Shows(server, g) && WellFormed(g) && client in g.sites
    ensures client in server.connections && client.open && client.id == g.sites[client].id
  {
    var m := Member(client, g.sites[client].id);
    var j :| 0 <= j < |g.lobby.list| && g.lobby.list[j] == m;
    server.ViewIs();
    server.MailsAre();
    assert client in g.lobby.mails;
  }

  lemma InOrder(server: S.Server, g: Game)
    requires WellFormed(g) && Shows(server, g)
    ensures Tidy(server.View()) && server.IdsBelow()
  {
    server.ViewIs();
    forall c | c in server.connections
      ensures c.id < server.idCounter
    {
      var j :| 0 <= j < |server.connections| && server.connections[j] == c;
      assert g.lobby.list[j].id in Ids(g.lobby);
    }
  }

  lemma HandlesNext(g: Game, client: Connection, m: Msg, q: Position)
    requires client in g.sites && g.sites[client].taken < |Outbox(g.sites[client])|
    requires m == Outbox(g.sites[client])[g.sites[client].taken] && Answers(g, client, g.sites[client].id, m, q)
    ensures Enabled(g, Handles(client, q))
    ensures var after, g' := AfterMessage(g.powerups, g.lobby, client, g.sites[client].id, m, q),
                             Next(g, Handles(client, q));
            g'.powerups == after.0 && g'.lobby == after.1 && g'.nextId == g.nextId
  {
    hide Answers, Outbox, AfterMessage;
  }

  lemma StrayNext(g: Game, n: nat, q: Position)
    requires n < |g.queue| && Answers(g, g.queue[n].conn, g.queue[n].id, g.queue[n].m, q)
    ensures Enabled(g, HandlesStray(n, q))
    ensures var after := AfterMessage(g.powerups, g.lobby, g.queue[n].conn, g.queue[n].id, g.queue[n].m, q);
            var g' := Next(g, HandlesStray(n, q));
            g'.powerups == after.0 && g'.lobby == after.1 && g'.nextId == g.nextId
  {
    hide Answers, AfterMessage;
  }

  /** `OnMessage`, for the next message that has come from a connected client, is a step of the system
      unless the program stops there with an exception. */
  method ServerHandles(server: S.Server, client: Connection, msg: MessageBuffer, ghost g: Game)
    returns (thrown: bool, ghost s: Step)
    requires null !in server.connections && (Broadcasts(msg.Value()) ==> OneClosed(server.View()))
    requires server.Handled(client, msg) && WellFormed(g) && Shows(server, g)
    requires client in g.sites && g.sites[client].taken < |Outbox(g.sites[client])|
    requires msg.Value() == Outbox(g.sites[client])[g.sites[client].taken]
    modifies msg, server`gameStarted, server`powerups, server`connections, server`players
    modifies (set c | c in server.connections)`posted
    ensures !thrown ==> s.Handles? && s.c == client && Enabled(g, s) && Shows(server, Next(g, s))
  {
    hide Outbox, AfterMessage, Answerable, Drawn, LeftBy, Tidy, OneClosed, S.Server.View, BoardOk, WellFormed,
      S.Server.EatLeavesRoom, Enabled, Next;
    InOrder(server, g);
    MemberIs(server, g, client);
    ghost var m := msg.Value();
    thrown := server.OnMessage(client, msg);
    ghost var q := S.Server.LastOf(server.powerups);
    s := Handles(client, q);
    if !thrown {
      HandlesNext(g, client, m, q);
    }
  }

  /** The same for a message in the queue whose sender is not connected any more. */
  method ServerHandlesStray(server: S.Server, client: Connection, n: nat, msg: MessageBuffer, ghost g: Game)
    returns (thrown: bool, ghost s: Step)
    requires null !in server.connections && (Broadcasts(msg.Value()) ==> OneClosed(server.View()))
    requires server.Handled(client, msg) && WellFormed(g) && Shows(server, g)
    requires n < |g.queue| && g.queue[n] == Stray(client, client.id, msg.Value())
    modifies msg, server`gameStarted, server`powerups, server`connections, server`players
    modifies (set c | c in server.connections)`posted
    ensures !thrown ==> s.HandlesStray? && s.n == n && Enabled(g, s) && Shows(server, Next(g, s))
  {
    hide AfterMessage, Answerable, Drawn, LeftBy, Tidy, OneClosed, S.Server.View, BoardOk, S.Server.EatLeavesRoom,
      Enabled, Next, WellFormed;
    InOrder(server, g);
    thrown := server.OnMessage(client, msg);
    ghost var q := S.Server.LastOf(server.powerups);
    s := HandlesStray(n, q);
    if !thrown {
      StrayNext(g, n, q);
    }
  }

  lemma JoinNext(g: Game, s: Step)
    requires WellFormed(g) && s.Validates? && s.c in g.sites && s.c in g.lobby.mails && !g.sites[s.c].joined
    requires OneClosed(g.lobby)
    requires IsSnapshot(s.snapshot, g.lobby.players[g.sites[s.c].id := NewPlayer(s.spawn, s.color)], g.powerups,
                        g.sites[s.c].id)
    requires var l := Welcomed(g.lobby, s.c, g.sites[s.c].id, NewPlayer(s.spawn, s.color), s.snapshot, s.added);
             && Filled(|l.players|, |g.powerups|, |g.powerups| + |s.added|)
             && AllDrawn(l.players, g.powerups, s.added)
    ensures Enabled(g, s)
  {
    hide LobbyOk, PowerupsOk, StraysOk, OneClosed, AllOpen, Broadcast, Announced, IsSnapshot, AllDrawn, Filled,
      PlayerMsg, Seated;
    var id, p := g.sites[s.c].id, NewPlayer(s.spawn, s.color);
    NewcomerOk(g, s);
    BroadcastOk(WithNewcomer(g, s), g.nextId, g.sites, PlayerMsg(id, p), s.c);
    BroadcastOpens(WithNewcomer(g, s), PlayerMsg(id, p), s.c);
    AnnouncedOk(Introduced(g.lobby, s.c, id, p, s.snapshot), g.nextId, g.sites, s.added);
  }

  lemma AddedDrawn(players: map<uint32, PlayerData>, before: seq<Position>, powerups: seq<Position>)
    requires before <= powerups
    requires forall k :: |before| <= k < |powerups| ==> Free(players, powerups[..k], powerups[k])
    ensures AllDrawn(players, before, powerups[|before|..]) && powerups == before + powerups[|before|..]
  {
    hide Free;
    var added := powerups[|before|..];
    forall k | 0 <= k < |added|
      ensures Free(players, before + added[..k], added[k])
    {
      assert powerups[..|before| + k] == before + added[..k];
    }
  }

  /** `OnClientValidated` is a step of the system. */
  method ServerValidates(server: S.Server, client: Connection, color: uint32, ghost g: Game) returns (ghost s: Step)
    requires server.Steady() && client in server.connections && client.open
      && BoardOk(server.players, server.powerups)
    requires server.spawnpoints != [] && InGrid(server.spawnpoints[|server.spawnpoints| - 1])
    requires Sendable(server.players[client.id := server.Newcomer(color)]) && Countable(server.powerups)
    requires var joined := server.players[client.id := server.Newcomer(color)];
             |FreeSet(joined, server.powerups)| + |server.powerups| > |joined| / 2
    requires WellFormed(g) && Shows(server, g) && client in g.sites && !g.sites[client].joined
    modifies server`spawnpoints, server`powerups, server`connections, server`players
    modifies (set c | c in server.connections)`posted
    ensures s.Validates? && s.c == client && Enabled(g, s) && Shows(server, Next(g, s))
  {
    hide Tidy, AllDrawn, BoardOk, WellFormed, Filled, Welcomed, IsSnapshot, FreeSet, Free, Sendable,
      S.Server.MembersOf, S.Server.Mails;
    MemberIs(server, g, client);
    ghost var spawn, players := server.spawnpoints[|server.spawnpoints| - 1], server.players;
    server.OnClientValidated(client, color);
    ghost var added := server.powerups[|g.powerups|..];
    AddedDrawn(server.players, g.powerups, server.powerups);
    ghost var state :| IsSnapshot(state, players[client.id := NewPlayer(spawn, color)], g.powerups, client.id)
      && server.View() == Welcomed(g.lobby, client, client.id, NewPlayer(spawn, color), state, added);
    s := Validates(client, spawn, color, state, added);
    JoinNext(g, s);
  }

  /** The acceptor's handler is a step of the system when it lets a new client in, and none when not. */
  method ServerAccepts(server: S.Server, conn: Connection, ghost g: Game) returns (ghost accepted: bool)
    requires server.idCounter < 0xFFFF_FFFF
    requires conn !in server.connections && conn.owner == ServerSide && conn.open && conn.Sent() == []
    requires WellFormed(g) && Shows(server, g) && forall n :: 0 <= n < |g.queue| ==> g.queue[n].conn != conn
    modifies server`connections, server`idCounter, conn
    ensures if accepted then Enabled(g, Accepts(conn)) && Shows(server, Next(g, Accepts(conn))) else Shows(server, g)
  {
    hide Tidy, OneClosed, S.Server.Mails, HandshakeBytes, LobbyOk, PowerupsOk, StraysOk, Seated;
    InOrder(server, g);
    server.ViewIs();
    server.MailsAre();
    if conn in g.sites {
      MemberIs(server, g, conn);
    }
    server.OnAccepted(conn);
    accepted := conn in server.connections;
  }

  // ---------------------------------------------------------------- asio

  /** What asio completes on a connection. */
  datatype Event = PostRuns | HeaderIsWritten | BodyIsWritten | ParameterIsWritten | HeaderIsRead | BodyIsRead
    | AnswerIsRead

  function ActionOf(e: Event, ok: bool): Action {
    match e
    case PostRuns => RunPost
    case HeaderIsWritten => WriteDone(ok)
    case BodyIsWritten => WriteDone(ok)
    case ParameterIsWritten => GreetDone(ok)
    case _ => ReadDone(ok)
  }

  ghost predicate Pending(c: Connection, e: Event, ok: bool)
    reads c, c.qOut
  {
    && c.Valid() && CanAct(c.View(), ActionOf(e, ok))
    && (e.HeaderIsWritten? ==> c.write.HeaderWrite?) && (e.BodyIsWritten? ==> c.write.BodyWrite?)
    && (e.HeaderIsRead? ==> c.read.HeaderRead?) && (e.BodyIsRead? ==> c.read.BodyRead?)
    && (e.AnswerIsRead? ==> c.read.ValidationRead?)
  }

  /** The socket stays open: nothing failed, and the server was not given a wrong answer. */
  predicate Succeeds(end: Endpoint, e: Event, ok: bool) {
    && (ok || e.PostRuns?)
    && (e.AnswerIsRead? && end.owner == ServerSide && end.r.read.ValidationRead? && |end.r.read.got| == 8 ==>
          ParseHandshake(end.r.read.got) == end.h.check)
  }

  lemma OpenAfter(end: Endpoint, e: Event, ok: bool)
    requires CanAct(end, ActionOf(e, ok))
    requires e.AnswerIsRead? <==> ActionOf(e, ok).ReadDone? && end.r.read.ValidationRead?
    ensures Act(end, ActionOf(e, ok)).open == (end.open && Succeeds(end, e, ok))
  {
    hide HandshakeBytes, ParseHandshake, RunPosted, FrameWritten, FrameReceived, Transferred, Received;
  }

  /** The handler of one completion. */
  method Complete(c: Connection, e: Event, ok: bool)
    requires Pending(c, e, ok)
    modifies c, c.qOut, c.qIn
    ensures c.View() == old(Act(c.View(), ActionOf(e, ok))) && c.Sent() == old(c.Sent()) && c.id == old(c.id)
    ensures c.open == old(c.open && Succeeds(c.View(), e, ok))
  {
    hide Act, Succeeds;
    OpenAfter(c.View(), e, ok);
    match e {
      case PostRuns => c.RunPostedSend();
      case HeaderIsWritten => c.OnHeaderWritten(ok);
      case BodyIsWritten => c.OnBodyWritten(ok);
      case ParameterIsWritten => c.OnValidationWritten(ok);
      case HeaderIsRead => c.OnHeaderRead(ok);
      case BodyIsRead => c.OnBodyRead(ok);
      case AnswerIsRead => var _ := c.OnValidationRead(ok);
    }
  }

  lemma ClosesNext(g: Game, c: Connection, n: nat)
    requires c in g.sites && g.sites[c].taken <= n <= |Outbox(g.sites[c])|
    ensures Enabled(g, Closes(c, n))
    ensures var g' := Next(g, Closes(c, n));
            && g'.powerups == g.powerups && g'.nextId == g.nextId
            && g'.lobby == g.lobby.(mails := g.lobby.mails - {c})
  {
    hide Outbox;
  }

  /** Client `c` is lost: that is a step of the system, whichever messages of its, `n` of them, have
      arrived by then. */
  ghost predicate ShowsLost(server: S.Server, c: Connection, g: Game)
    reads server`powerups, server`idCounter, server`connections, server`players
    reads (set c: Connection | c in server.connections)`id, (set c: Connection | c in server.connections)`open
    reads (set c: Connection | c in server.connections)`accepted, (set c: Connection | c in server.connections)`posted
  {
    && c in g.sites
    && forall n: nat :: g.sites[c].taken <= n <= |Outbox(g.sites[c])| ==>
         Enabled(g, Closes(c, n)) && Shows(server, Next(g, Closes(c, n)))
  }

  lemma LostShows(server: S.Server, c: Connection, g: Game)
    requires null !in server.connections && server.View() == g.lobby.(mails := g.lobby.mails - {c})
    requires server.powerups == g.powerups && server.idCounter == g.nextId && c in g.lobby.mails && WellFormed(g)
    ensures ShowsLost(server, c, g)
  {
    hide S.Server.View, Outbox, Enabled, Next, LobbyOk, PowerupsOk, StraysOk;
    forall n: nat | g.sites[c].taken <= n <= |Outbox(g.sites[c])|
      ensures Enabled(g, Closes(c, n)) && Shows(server, Next(g, Closes(c, n)))
    {
      ClosesNext(g, c, n);
    }
  }

  /** A completion and the server's view: a connection that is closed then has no mail. */
  method CompleteInView(server: S.Server, c: Connection, e: Event, ok: bool)
    requires Pending(c, e, ok) && null !in server.connections
    modifies c, c.qOut, c.qIn
    ensures c.open == old(c.open && Succeeds(c.View(), e, ok))
    ensures server.View() == old(server.View()).(mails := old(server.View()).mails - if c.open then {} else {c})
  {
    hide Succeeds, Pending, Act, CanAct, S.Server.View, S.Server.MembersOf;
    server.ViewIs();
    server.MailsAre();
    ghost var l := server.View();
    Complete(c, e, ok);
    assert S.Server.MembersOf(server.connections) == l.list;
    assert S.Server.Connected(server.connections) == l.mails.Keys - if c.open then {} else {c};
    server.ViewBuilt(l.(mails := l.mails - if c.open then {} else {c}));
  }

  lemma HasMail(server: S.Server, c: Connection)
    requires null !in server.connections
    ensures c in server.View().mails <==> c in server.connections && c.open
  {
    hide S.Server.MembersOf;
  }

  /** Whatever asio completes on a connection of the server: while the socket stays open, or was closed
      before, nothing changes for the system. A read or a write that fails, and a wrong answer, close it,
      and then the client is lost. */
  method ServerCompletes(server: S.Server, c: Connection, e: Event, ok: bool, ghost g: Game)
    requires Pending(c, e, ok) && WellFormed(g) && Shows(server, g)
    modifies c, c.qOut, c.qIn
    ensures c.open == old(c.open && Succeeds(c.View(), e, ok))
    ensures c.open == old(c.open) || c !in server.connections ==> Shows(server, g)
    ensures c.open != old(c.open) && c in server.connections ==> ShowsLost(server, c, g)
  {
    hide Succeeds, Pending, WellFormed, Act, CanAct, S.Server.View, ShowsLost, S.Server.MembersOf, S.Server.Connected;
    HasMail(server, c);
    CompleteInView(server, c, e, ok);
    if c !in g.lobby.mails {
      assert g.lobby.mails - {c} == g.lobby.mails;
    } else if !c.open {
      LostShows(server, c, g);
    }
  }

  // ---------------------------------------------------------------- the clients

  /** The client's object holds what the system has for the server's end `c`, and its own end has been
      given to send what the system has. */
  ghost predicate Plays(client: Client.SnakeClient, c: Connection, g: Game)
    reads client, client.connection
  {
    && c in g.sites && client.View() == g.sites[c].client
    && client.connection != null && client.connection.Sent() == g.sites[c].up
  }

  /** A new client is what the system has for it when the server accepts its connection. */
  method ClientBegins(connection: Connection, incoming: Queue<OwnedMessage>, c: Connection, ghost g: Game)
    returns (client: Client.SnakeClient)
    requires connection.Sent() == [] && Enabled(g, Accepts(c))
    ensures Plays(client, c, Next(g, Accepts(c)))
  {
    hide Entered;
    client := new Client.SnakeClient(connection, incoming);
  }

  lemma InboxAt(g: Game, c: Connection)
    requires c in g.sites && c in g.lobby.mails && g.sites[c].heard < |Inbox(g, c)|
    requires Client.Handled(g.sites[c].client, Inbox(g, c)[g.sites[c].heard]).Some?
    ensures Enabled(g, Hears(c))
    ensures c in Next(g, Hears(c)).sites && Next(g, Hears(c)).sites[c].up == g.sites[c].up
    ensures Some(Next(g, Hears(c)).sites[c].client)
            == Client.Handled(g.sites[c].client, Inbox(g, c)[g.sites[c].heard])
  {
    hide Inbox, Client.Handled;
  }

  /** `HandleMessage`, for the client's next message, is a step of the system. */
  method ClientHears(client: Client.SnakeClient, c: Connection, msg: MessageBuffer, ghost g: Game)
    requires Plays(client, c, g) && c in g.lobby.mails && g.sites[c].heard < |Inbox(g, c)|
    requires msg.Value() == Inbox(g, c)[g.sites[c].heard] && Client.Handled(client.View(), msg.Value()).Some?
    modifies client, msg
    ensures Enabled(g, Hears(c)) && Plays(client, c, Next(g, Hears(c)))
  {
    hide Inbox, Client.Handled, Enabled, Next;
    InboxAt(g, c);
    client.HandleMessage(msg);
  }

  /** So is `EatPowerup` of a connected client. */
  method ClientEats(client: Client.SnakeClient, c: Connection, i: nat, ghost g: Game)
    requires Plays(client, c, g) && client.IsConnected() && client.clientID >= 0 && i < |client.powerups|
    modifies client`players, client`powerups, client.connection
    ensures Enabled(g, Eats(c, i)) && Plays(client, c, Next(g, Eats(c, i)))
  {
    hide CellMsg, Act;
    client.EatPowerup(i);
  }

  /** And `UpdateServer`, which finds the client's own player in its map. */
  method ClientReports(client: Client.SnakeClient, c: Connection, ghost g: Game) returns (ghost m: Msg)
    requires Plays(client, c, g) && client.IsConnected() && client.clientID >= 0
    requires AsUint32(client.clientID) in client.players
    requires Countable(client.players[AsUint32(client.clientID)].body.tail)
    modifies client`players, client.connection
    ensures m == old(client.Report()) && Enabled(g, Sends(c, m)) && Plays(client, c, Next(g, Sends(c, m)))
  {
    hide UpdateBody, Act;
    m := client.Report();
    client.UpdateServer();
  }

  /** And a request to start the game; there is none once the game has started. */
  method ClientAsksToStart(client: Client.SnakeClient, c: Connection, ghost g: Game)
    requires Plays(client, c, g) && client.IsConnected() && client.clientID >= 0
    modifies client.connection
    ensures var s := Sends(c, Empty(START_GAME));
            Enabled(g, s) && Plays(client, c, if client.gameStarted then g else Next(g, s))
  {
    hide Act;
    client.AttemptGameStart();
  }

  /** What asio completes on the client's end is no step of the system: what was sent stays sent. */
  method ClientCompletes(client: Client.SnakeClient, c: Connection, e: Event, ok: bool, ghost g: Game)
    requires Plays(client, c, g) && Pending(client.connection, e, ok)
    modifies client.connection, client.connection.qOut, client.connection.qIn
    ensures Plays(client, c, g)
  {
    hide Act, CanAct;
    Complete(client.connection, e, ok);
  }
}
