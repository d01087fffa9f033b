/** The server, its clients and everything under way between them as one system. Each step is what one
    handler does. What an end reads is what arrives of the bytes that the other end has sent. */
module Game {
  import opened Common
  import opened Message
  import opened Connection
  import opened Codec
  import opened Protocol
  import opened FreeGrid
  import opened Lobbies
  import T = Transport
  import Client

  // ---------------------------------------------------------------- state and steps

  /** One connected client: its identifier, whether its snapshot was sent and how many default entries
      that made, how much of its mail it has handled, its state, all it has ever sent, and how much of
      that the server has handled. */
  datatype Site = Site(id: uint32, joined: bool, defaults: nat, heard: nat, client: Client.State, up: seq<Msg>,
                       taken: nat)

  /** A message in the server's queue whose connection is closed. */
  datatype Stray = Stray(conn: Connection, id: uint32, m: Msg)

  /** The server's powerups, its list, players and mail, the clients, and the messages in the server's
      queue whose senders are gone. Identifiers below `nextId` have been given out. */
  datatype Game = Game(powerups: seq<Position>, lobby: Lobby, nextId: uint32, sites: map<Connection, Site>,
                       queue: seq<Stray>)

  const NEW_CLIENT := Client.State(-1, [], map[], false)

  ghost function Start(): Game {
    Game([], Lobby([], map[], map[]), 10000, map[], [])
  }

  datatype Step =
    | Accepts(c: Connection)
    | Validates(c: Connection, spawn: Position, color: uint32, snapshot: Msg, added: seq<Position>)
    | Handles(c: Connection, q: Position)    // the server handles the client's next message
    | HandlesStray(n: nat, q: Position)
    | Hears(c: Connection)                   // the client handles the next message that it has
    | Moves(c: Connection, known: map<uint32, ClientPlayer>)  // its players move by themselves
    | Eats(c: Connection, i: nat)
    | Sends(c: Connection, m: Msg)           // a message about anything else
    | Closes(c: Connection, n: nat)          // of what the client sent, n messages have arrived

  /** What a client makes of its mail, and the server of what a client has sent. */
  function Inbox(g: Game, c: Connection): seq<Msg>
    requires c in g.lobby.mails
  {
    T.Arrived(g.lobby.mails[c])
  }

  function Outbox(s: Site): seq<Msg> {
    T.Arrived(s.up)
  }

  /** In any run of a connection's two ends, what an end has delivered is the first part of that. */
  lemma ReadInOrder(challenge: bv64, steps: seq<T.Step>, s: Site, mail: seq<Msg>)
    requires T.Executes(T.Init(challenge), steps)
    requires T.PostsBy(false, steps) == s.up && T.PostsBy(true, steps) == mail
    ensures var ends := T.Exec(T.Init(challenge), steps);
            ends.server.r.delivered <= Outbox(s) && ends.client.r.delivered <= T.Arrived(mail)
  {
    T.StreamRefinesQueue(challenge, steps, true);
    T.StreamRefinesQueue(challenge, steps, false);
  }

  /** The server's handler for `m` comes to its end: its broadcasts do, the message has what is popped
      from it, and no exception is thrown. A powerup that it puts on `q` lies on a free cell. */
  predicate Answers(g: Game, c: Connection, id: uint32, m: Msg, q: Position) {
    && (Broadcasts(m) ==> OneClosed(g.lobby))
    && Answerable(g.lobby, c, id, m) && Drawn(g.powerups, g.lobby, c, m, q)
    && (m.header.id == UPDATE_PLAYER ==> id in LeftBy(g.lobby, c))
  }

  /** Each of `added` is on a cell that is free once those before it are there. */
  predicate AllDrawn(players: map<uint32, PlayerData>, powerups: seq<Position>, added: seq<Position>) {
    forall k :: 0 <= k < |added| ==> Free(players, powerups + added[..k], added[k])
  }

  ghost predicate Enabled(g: Game, s: Step) {
    match s
    case Accepts(c) =>
      && c !in g.sites && g.nextId < 0xFFFF_FFFF
      && (forall i :: 0 <= i < |g.lobby.list| ==> g.lobby.list[i].conn != c)
      && (forall n :: 0 <= n < |g.queue| ==> g.queue[n].conn != c)
    case Validates(c, spawn, color, snapshot, added) =>
      && c in g.sites && c in g.lobby.mails && !g.sites[c].joined && OneClosed(g.lobby)
      && var id, p := g.sites[c].id, NewPlayer(spawn, color);
         var players := Introduced(g.lobby, c, id, p, snapshot).players;
         && IsSnapshot(snapshot, g.lobby.players[id := p], g.powerups, id)
         && Filled(|players|, |g.powerups|, |g.powerups| + |added|) && AllDrawn(players, g.powerups, added)
    case Handles(c, q) =>
      c in g.sites && g.sites[c].taken < |Outbox(g.sites[c])|
      && Answers(g, c, g.sites[c].id, Outbox(g.sites[c])[g.sites[c].taken], q)
    case HandlesStray(n, q) => n < |g.queue| && Answers(g, g.queue[n].conn, g.queue[n].id, g.queue[n].m, q)
    case Hears(c) =>
      c in g.sites && c in g.lobby.mails && g.sites[c].heard < |Inbox(g, c)|
      && Client.Handled(g.sites[c].client, Inbox(g, c)[g.sites[c].heard]).Some?
    case Moves(c, known) => c in g.sites && known.Keys == g.sites[c].client.players.Keys
    case Eats(c, i) => c in g.sites && g.sites[c].client.clientID >= 0 && i < |g.sites[c].client.powerups|
    case Sends(c, m) => c in g.sites && g.sites[c].client.clientID >= 0 && m.header.id != POWERUP_EATEN
    case Closes(c, n) => c in g.sites && g.sites[c].taken <= n <= |Outbox(g.sites[c])|
  }

  /** The client's state after it ate entry `i`: the entry is gone and its own snake is fed. */
  function AfterEating(s: Client.State, i: nat): Client.State
    requires i < |s.powerups|
  {
    var id := AsUint32(s.clientID);
    var p := Client.PlayerAt(s.players, id);
    s.(powerups := Without(s.powerups, i), players := s.players[id := p.(body := p.body.(food := p.body.food + 1))])
  }

  function Heard(s: Site, m: Msg): Site
    requires Client.Handled(s.client, m).Some?
  {
    s.(client := Client.Handled(s.client, m).value, heard := s.heard + 1)
  }

  function Fed(s: Site, i: nat): Site
    requires i < |s.client.powerups|
  {
    s.(client := AfterEating(s.client, i), up := s.up + [CellMsg(POWERUP_EATEN, s.client.powerups[i])])
  }

  function Joined(s: Site, defaults: nat): Site {
    s.(joined := true, defaults := defaults)
  }

  function StraysOf(c: Connection, id: uint32, ms: seq<Msg>): seq<Stray> {
    seq(|ms|, i requires 0 <= i < |ms| => Stray(c, id, ms[i]))
  }

  ghost function Next(g: Game, s: Step): Game
    requires Enabled(g, s)
  {
    match s
    case Accepts(c) =>
      g.(lobby := Entered(g.lobby, c, g.nextId, []), nextId := g.nextId + 1,
         sites := g.sites[c := Site(g.nextId, false, 0, 0, NEW_CLIENT, [], 0)])
    case Validates(c, spawn, color, snapshot, added) =>
      g.(powerups := g.powerups + added,
         lobby := Welcomed(g.lobby, c, g.sites[c].id, NewPlayer(spawn, color), snapshot, added),
         sites := g.sites[c := Joined(g.sites[c], |g.powerups|)])
    case Handles(c, q) =>
      var site := g.sites[c];
      var after := AfterMessage(g.powerups, g.lobby, c, site.id, Outbox(site)[site.taken], q);
      g.(powerups := after.0, lobby := after.1, sites := g.sites[c := site.(taken := site.taken + 1)])
    case HandlesStray(n, q) =>
      var stray := g.queue[n];
      var after := AfterMessage(g.powerups, g.lobby, stray.conn, stray.id, stray.m, q);
      g.(powerups := after.0, lobby := after.1, queue := Without(g.queue, n))
    case Hears(c) => g.(sites := g.sites[c := Heard(g.sites[c], Inbox(g, c)[g.sites[c].heard])])
    case Moves(c, known) =>
      g.(sites := g.sites[c := g.sites[c].(client := g.sites[c].client.(players := known))])
    case Eats(c, i) => g.(sites := g.sites[c := Fed(g.sites[c], i)])
    case Sends(c, m) => g.(sites := g.sites[c := g.sites[c].(up := g.sites[c].up + [m])])
    case Closes(c, n) =>
      var site := g.sites[c];
      g.(lobby := g.lobby.(mails := g.lobby.mails - {c}), sites := g.sites - {c},
         queue := g.queue + StraysOf(c, site.id, Outbox(site)[site.taken..n]))
  }

  ghost predicate Possible(g: Game, steps: seq<Step>)
    decreases |steps|
  {
    steps == [] || (Enabled(g, steps[0]) && Possible(Next(g, steps[0]), steps[1..]))
  }

  ghost function After(g: Game, steps: seq<Step>): Game
    requires Possible(g, steps)
    decreases |steps|
  {
    if steps == [] then g else After(Next(g, steps[0]), steps[1..])
  }

  // ---------------------------------------------------------------- what every run keeps

  /** The member of a connected client is in the list. */
  predicate Seated(l: Lobby, sites: map<Connection, Site>) {
    sites.Keys == l.mails.Keys && forall c :: c in sites ==> Member(c, sites[c].id) in l.list
  }

  predicate LobbyOk(l: Lobby, nextId: uint32) {
    Tidy(l) && l.players.Keys <= Ids(l) && forall id :: id in Ids(l) ==> id < nextId
  }

  /** Powerups lie in the grid, on distinct cells. */
  predicate PowerupsOk(powerups: seq<Position>) {
    Distinct(powerups) && forall i :: 0 <= i < |powerups| ==> InGrid(powerups[i])
  }

  /** The senders of what is left in the queue are gone for good. */
  predicate StraysOk(queue: seq<Stray>, sites: map<Connection, Site>) {
    forall n :: 0 <= n < |queue| ==> queue[n].conn !in sites
  }

  predicate WellFormed(g: Game) {
    && LobbyOk(g.lobby, g.nextId) && Seated(g.lobby, g.sites) && PowerupsOk(g.powerups)
    && StraysOk(g.queue, g.sites)
  }

  lemma MemberStays(l: Lobby, m: Msg, ignore: Connection?, x: Member)
    requires x in l.list && x.conn in l.mails
    ensures x in Broadcast(l, m, ignore).list
  {
    BroadcastShape(l, m, ignore);
    var n, j :| n == LostAt(SeenBy(l, ignore)) && 0 <= j < |l.list| && l.list[j] == x;
    hide LostAt;
    StillAt(l.list, n, j);
  }

  lemma BroadcastOk(l: Lobby, nextId: uint32, sites: map<Connection, Site>, m: Msg, ignore: Connection?)
    requires LobbyOk(l, nextId) && Seated(l, sites) && OneClosed(l)
    ensures var l' := Broadcast(l, m, ignore);
            && LobbyOk(l', nextId) && Seated(l', sites) && OneClosed(l')
            && l'.players == LeftBy(l, ignore) && l'.mails.Keys == l.mails.Keys
  {
    BroadcastShape(l, m, ignore);
    BroadcastKeeps(l, m, ignore);
    forall c | c in sites
      ensures Member(c, sites[c].id) in Broadcast(l, m, ignore).list
    {
      MemberStays(l, m, ignore, Member(c, sites[c].id));
    }
    hide Broadcast, LostIds, SeenBy, Tidy, Ids, OneClosed;
  }

  /** The same lobby with other values for the same players. */
  lemma OtherPlayers(l: Lobby, nextId: uint32, sites: map<Connection, Site>, players: map<uint32, PlayerData>)
    requires LobbyOk(l, nextId) && Seated(l, sites) && players.Keys <= Ids(l)
    ensures LobbyOk(l.(players := players), nextId) && Seated(l.(players := players), sites)
    ensures OneClosed(l) ==> OneClosed(l.(players := players))
  {
    SameList(l, l.(players := players));
    assert Ids(l.(players := players)) == Ids(l);
    hide Tidy, OneClosed, Ids;
  }

  lemma StoredOk(l: Lobby, nextId: uint32, sites: map<Connection, Site>, c: Connection, id: uint32, m: Msg)
    requires LobbyOk(l, nextId) && Seated(l, sites) && OneClosed(l)
    requires ParseUpdate(m.body).Some? && id in LeftBy(l, c)
    ensures var told := Broadcast(l, m, c);
            && id in told.players
            && var stored := told.(players := Stored(told.players, id, m.body));
               LobbyOk(stored, nextId) && Seated(stored, sites) && OneClosed(stored)
  {
    BroadcastOk(l, nextId, sites, m, c);
    hide Broadcast, ParseUpdate, LeftBy;
    var told := Broadcast(l, m, c);
    OtherPlayers(told, nextId, sites, Stored(told.players, id, m.body));
    hide LobbyOk, Seated, OneClosed;
  }

  lemma ReportedOk(l: Lobby, nextId: uint32, sites: map<Connection, Site>, c: Connection, id: uint32, m: Msg)
    requires LobbyOk(l, nextId) && Seated(l, sites) && OneClosed(l)
    requires Reportable(l, c, id, m.body) && id in LeftBy(l, c)
    ensures LobbyOk(Reported(l, c, id, m), nextId) && Seated(Reported(l, c, id, m), sites)
  {
    StoredOk(l, nextId, sites, c, id, m);
    hide LobbyOk, Seated, Broadcast, Stored, Hit, ParseUpdate, OneClosed, LeftBy, HeadReadable;
    var told := Broadcast(l, m, c);
    var stored := told.(players := Stored(told.players, id, m.body));
    BroadcastOk(stored, nextId, sites, IntMsg(KILL_PLAYER, ParseUpdate(m.body).value.id), null);
    hide IntMsg;
  }

  lemma AnsweredOk(g: Game, c: Connection, id: uint32, m: Msg, q: Position)
    requires WellFormed(g) && Answers(g, c, id, m, q)
    ensures var after := AfterMessage(g.powerups, g.lobby, c, id, m, q);
            LobbyOk(after.1, g.nextId) && Seated(after.1, g.sites) && PowerupsOk(after.0)
  {
    hide LobbyOk, Seated, Broadcast, Reported, Tidy, OneClosed, PowerupsOk, Reportable, CellMsg;
    if m.header.id == POWERUP_EATEN {
      var p := Pop(m.body, CellKind).value.0.cell;
      BroadcastOk(g.lobby, g.nextId, g.sites, CellMsg(POWERUP_EATEN, p), c);
      BroadcastOk(Broadcast(g.lobby, CellMsg(POWERUP_EATEN, p), c), g.nextId, g.sites, CellMsg(NEW_POWERUP, q), null);
      ReplacedOk(g.powerups, LeftBy(g.lobby, c), p, q);
    } else if m.header.id == UPDATE_PLAYER {
      ReportedOk(g.lobby, g.nextId, g.sites, c, id, m);
    } else if m.header.id == START_GAME {
      BroadcastOk(g.lobby, g.nextId, g.sites, m, null);
    }
  }

  lemma ReplacedOk(powerups: seq<Position>, players: map<uint32, PlayerData>, p: Position, q: Position)
    requires PowerupsOk(powerups) && Free(players, RemoveFirst(powerups, p), q)
    ensures PowerupsOk(RemoveFirst(powerups, p) + [q])
  {
    var left := RemoveFirst(powerups, p);
    RemoveFirstDistinct(powerups, p);
    forall i | 0 <= i < |left|
      ensures InGrid(left[i])
    {
      RemoveFirstElements(powerups, p, left[i]);
    }
    hide OnTail;
  }

  lemma AddedOk(players: map<uint32, PlayerData>, powerups: seq<Position>, added: seq<Position>)
    requires PowerupsOk(powerups) && AllDrawn(players, powerups, added)
    ensures PowerupsOk(powerups + added)
  {
    hide OnTail;
    var all := powerups + added;
    forall i, j | 0 <= i < j < |all|
      ensures all[i] != all[j]
    {
      if j >= |powerups| {
        var k := j - |powerups|;
        assert Free(players, powerups + added[..k], added[k]);
        assert (powerups + added[..k])[i] == all[i];
      }
    }
    forall i | |powerups| <= i < |all|
      ensures InGrid(all[i])
    {
      assert Free(players, powerups + added[..i - |powerups|], added[i - |powerups|]);
    }
  }

  lemma {:induction false} AnnouncedOk(l: Lobby, nextId: uint32, sites: map<Connection, Site>, qs: seq<Position>)
    requires LobbyOk(l, nextId) && Seated(l, sites) && OneClosed(l)
    ensures var l' := Announced(l, qs); LobbyOk(l', nextId) && Seated(l', sites) && OneClosed(l')
    ensures AllOpen(l) ==> AllOpen(Announced(l, qs)) && Announced(l, qs).players == l.players
    decreases |qs|
  {
    hide LobbyOk, Seated, Broadcast, OneClosed, AllOpen, CellMsg;
    if qs != [] {
      var front := Announced(l, qs[..|qs| - 1]);
      AnnouncedOk(l, nextId, sites, qs[..|qs| - 1]);
      BroadcastOk(front, nextId, sites, CellMsg(NEW_POWERUP, qs[|qs| - 1]), null);
      BroadcastOpens(front, CellMsg(NEW_POWERUP, qs[|qs| - 1]), null);
    }
  }

  /** The lobby in which a new client's player is entered and its snapshot sent. */
  ghost function WithNewcomer(g: Game, s: Step): Lobby
    requires s.Validates? && s.c in g.sites && s.c in g.lobby.mails
  {
    SentOne(g.lobby.(players := g.lobby.players[g.sites[s.c].id := NewPlayer(s.spawn, s.color)]), s.c, s.snapshot)
  }

  lemma NewcomerOk(g: Game, s: Step)
    requires WellFormed(g) && s.Validates? && s.c in g.sites && OneClosed(g.lobby)
    ensures var l := WithNewcomer(g, s); LobbyOk(l, g.nextId) && Seated(l, g.sites) && OneClosed(l)
  {
    hide Tidy, OneClosed, Ids, PowerupsOk, StraysOk;
    var l := WithNewcomer(g, s);
    SeatedId(g.lobby, g.sites, s.c);
    SameList(g.lobby, l);
    SameIds(g.lobby, l);
  }

  lemma SeatedId(l: Lobby, sites: map<Connection, Site>, c: Connection)
    requires Seated(l, sites) && c in sites
    ensures sites[c].id in Ids(l)
  {
    var j :| 0 <= j < |l.list| && l.list[j] == Member(c, sites[c].id);
    assert l.list[j].id in Ids(l);
  }

  lemma SameIds(l: Lobby, l': Lobby)
    requires l.list == l'.list
    ensures Ids(l) == Ids(l')
  {
  }

  lemma WelcomedOk(g: Game, s: Step)
    requires WellFormed(g) && s.Validates? && s.c in g.sites && s.c in g.lobby.mails && OneClosed(g.lobby)
    ensures var l := Welcomed(g.lobby, s.c, g.sites[s.c].id, NewPlayer(s.spawn, s.color), s.snapshot, s.added);
            LobbyOk(l, g.nextId) && Seated(l, g.sites)
  {
    var p := NewPlayer(s.spawn, s.color);
    NewcomerOk(g, s);
    BroadcastOk(WithNewcomer(g, s), g.nextId, g.sites, PlayerMsg(g.sites[s.c].id, p), s.c);
    hide WellFormed, LobbyOk, Seated, Broadcast, OneClosed, AllOpen, PlayerMsg, Announced;
    AnnouncedOk(Introduced(g.lobby, s.c, g.sites[s.c].id, p, s.snapshot), g.nextId, g.sites, s.added);
  }

  lemma ValidatesOk(g: Game, s: Step)
    requires WellFormed(g) && Enabled(g, s) && s.Validates?
    ensures WellFormed(Next(g, s))
  {
    hide LobbyOk, Introduced, Welcomed, OneClosed, PowerupsOk, AllDrawn, IsSnapshot, Filled;
    AddedOk(Introduced(g.lobby, s.c, g.sites[s.c].id, NewPlayer(s.spawn, s.color), s.snapshot).players, g.powerups,
            s.added);
    WelcomedOk(g, s);
    var g1 := Next(g, s).(sites := g.sites);
    assert WellFormed(g1);
    hide Seated;
    OneSiteOk(g1, s.c, Next(g, s).sites[s.c]);
  }

  /** What joining does to the players and the powerups. The newcomer has one cell and faces up, and nobody
      else who stays changes. The list is filled up to one powerup for an even number of players, and to
      k + 1 for 2k + 1. */
  lemma JoinedBoardIs(g: Game, s: Step)
    requires WellFormed(g) && Enabled(g, s) && s.Validates?
    ensures var id, g' := g.sites[s.c].id, Next(g, s);
            && id in g'.lobby.players && g'.lobby.players[id] == PlayerData(Up, [s.spawn], s.color)
            && (forall k :: k in g'.lobby.players && k != id ==>
                  k in g.lobby.players && g'.lobby.players[k] == g.lobby.players[k])
            && g.powerups <= g'.powerups
    ensures var players, n, n' := |Next(g, s).lobby.players|, |g.powerups|, |Next(g, s).powerups|;
            && (players % 2 == 0 ==> n' == if n < 1 then 1 else n)
            && (players % 2 == 1 ==> n' == if n < players / 2 + 1 then players / 2 + 1 else n)
  {
    hide WellFormed, LobbyOk, Seated, OneClosed, AllDrawn, IsSnapshot, Filled, AllOpen, PlayerMsg, Broadcast, Announced,
      LeftBy;
    var id, p := g.sites[s.c].id, NewPlayer(s.spawn, s.color);
    var l := Introduced(g.lobby, s.c, id, p, s.snapshot);
    NewcomerStays(g, s);
    FilledIs(|l.players|, |g.powerups|, |Next(g, s).powerups|);
  }

  lemma NewcomerStays(g: Game, s: Step)
    requires WellFormed(g) && Enabled(g, s) && s.Validates?
    ensures var id, p := g.sites[s.c].id, NewPlayer(s.spawn, s.color);
            var l := Introduced(g.lobby, s.c, id, p, s.snapshot);
            && l.players == LeftBy(WithNewcomer(g, s), s.c) && id in l.players
            && Welcomed(g.lobby, s.c, id, p, s.snapshot, s.added).players == l.players
            && forall k :: k in l.players ==>
                 k in g.lobby.players[id := p] && l.players[k] == g.lobby.players[id := p][k]
  {
    hide LobbyOk, Seated, PowerupsOk, StraysOk, OneClosed, AllDrawn, IsSnapshot, Filled, AllOpen, PlayerMsg, Broadcast,
      Announced, LostIds, SeenBy;
    var id, p, w := g.sites[s.c].id, NewPlayer(s.spawn, s.color), WithNewcomer(g, s);
    NewcomerOk(g, s);
    BroadcastOk(w, g.nextId, g.sites, PlayerMsg(id, p), s.c);
    BroadcastOpens(w, PlayerMsg(id, p), s.c);
    AnnouncedOk(Introduced(g.lobby, s.c, id, p, s.snapshot), g.nextId, g.sites, s.added);
    NotLost(w, g.nextId, g.sites, s.c);
  }

  lemma NotLost(l: Lobby, nextId: uint32, sites: map<Connection, Site>, c: Connection)
    requires LobbyOk(l, nextId) && Seated(l, sites) && c in sites
    ensures sites[c].id !in LostIds(SeenBy(l, c))
  {
    hide Tidy, Ids, LostIds, SeenBy;
    var j :| 0 <= j < |l.list| && l.list[j] == Member(c, sites[c].id);
    OpenIsKept(l, j, c);
  }

  lemma EnteredOk(l: Lobby, nextId: uint32, c: Connection)
    requires LobbyOk(l, nextId) && nextId < 0xFFFF_FFFF && forall i :: 0 <= i < |l.list| ==> l.list[i].conn != c
    ensures LobbyOk(Entered(l, c, nextId, []), nextId + 1)
  {
    forall i | 0 <= i < |l.list|
      ensures l.list[i].id != nextId
    {
      assert l.list[i].id in Ids(l);
    }
    EnteredTidy(l, c, nextId, []);
    IdsMore(l, c, nextId, []);
    hide Ids, Tidy;
  }

  lemma EnteredSeated(l: Lobby, sites: map<Connection, Site>, c: Connection, site: Site)
    requires Seated(l, sites) && c !in sites
    ensures Seated(Entered(l, c, site.id, []), sites[c := site])
  {
    var l' := Entered(l, c, site.id, []);
    assert l'.list[|l.list|] == Member(c, site.id);
  }

  lemma AcceptsOk(g: Game, c: Connection)
    requires WellFormed(g) && Enabled(g, Accepts(c))
    ensures WellFormed(Next(g, Accepts(c)))
  {
    hide LobbyOk, Seated, PowerupsOk, Entered;
    EnteredOk(g.lobby, g.nextId, c);
    EnteredSeated(g.lobby, g.sites, c, Site(g.nextId, false, 0, 0, NEW_CLIENT, [], 0));
  }

  lemma MailGone(l: Lobby, nextId: uint32, sites: map<Connection, Site>, c: Connection)
    requires LobbyOk(l, nextId) && Seated(l, sites)
    ensures var l' := l.(mails := l.mails - {c}); LobbyOk(l', nextId) && Seated(l', sites - {c})
  {
    MailGoneTidy(l, c);
    hide Tidy, Ids;
  }

  lemma ClosesOk(g: Game, c: Connection, n: nat)
    requires WellFormed(g) && Enabled(g, Closes(c, n))
    ensures WellFormed(Next(g, Closes(c, n)))
  {
    hide LobbyOk, Seated, PowerupsOk, Outbox, Answers, AfterMessage, Welcomed, Entered;
    MailGone(g.lobby, g.nextId, g.sites, c);
  }

  lemma OneSiteOk(g: Game, c: Connection, site: Site)
    requires WellFormed(g) && c in g.sites && site.id == g.sites[c].id
    ensures WellFormed(g.(sites := g.sites[c := site]))
  {
    hide LobbyOk, PowerupsOk;
  }

  lemma NextWellFormed(g: Game, s: Step)
    requires WellFormed(g) && Enabled(g, s)
    ensures WellFormed(Next(g, s))
  {
    hide LobbyOk, Seated, PowerupsOk, Answers, AfterMessage;
    match s
    case Accepts(c) => AcceptsOk(g, c);
    case Validates(_, _, _, _, _) => ValidatesOk(g, s);
    case Handles(c, q) =>
      AnsweredOk(g, c, g.sites[c].id, Outbox(g.sites[c])[g.sites[c].taken], q);
      var g1 := Next(g, s).(sites := g.sites);
      assert WellFormed(g1);
      OneSiteOk(g1, c, Next(g, s).sites[c]);
    case HandlesStray(n, q) => AnsweredOk(g, g.queue[n].conn, g.queue[n].id, g.queue[n].m, q);
    case Hears(c) => OneSiteOk(g, c, Next(g, s).sites[c]);
    case Moves(c, _) => OneSiteOk(g, c, Next(g, s).sites[c]);
    case Eats(c, i) => OneSiteOk(g, c, Next(g, s).sites[c]);
    case Sends(c, _) => OneSiteOk(g, c, Next(g, s).sites[c]);
    case Closes(c, n) => ClosesOk(g, c, n);
  }

  lemma {:induction false} RunWellFormed(g: Game, steps: seq<Step>)
    requires WellFormed(g) && Possible(g, steps)
    ensures WellFormed(After(g, steps))
    decreases |steps|
  {
    hide WellFormed, Enabled, Next;
    if steps != [] {
      NextWellFormed(g, steps[0]);
      RunWellFormed(Next(g, steps[0]), steps[1..]);
    }
  }

  lemma StartIsOk()
    ensures WellFormed(Start())
  {
  }

  /** In every run, eats that compete and messages that come as something else included, the server's
      powerups lie in the grid, on distinct cells, every player of the server is one of a member of
      its list, and members and identifiers are distinct. */
  lemma BoardInEveryRun(steps: seq<Step>)
    requires Possible(Start(), steps)
    ensures var g := After(Start(), steps);
            PowerupsOk(g.powerups) && Tidy(g.lobby) && g.lobby.players.Keys <= Ids(g.lobby)
  {
    hide Possible, After, Tidy, Ids, PowerupsOk;
    StartIsOk();
    RunWellFormed(Start(), steps);
  }
}
