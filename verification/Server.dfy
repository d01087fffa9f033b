/** The game server (server.h, server.cpp): it owns the players and the powerups, relays what
    clients send, and drops the connections it finds closed. */
module Server {
  import opened Common
  import opened Message
  import opened Connection
  import opened Codec
  import opened Protocol
  import opened FreeGrid
  import opened Lobbies

  /** Any order in which the map of players may iterate. */
  method AnyOrder(players: map<uint32, PlayerData>) returns (order: seq<uint32>)
    ensures Enumerates(order, players) && forall i :: 0 <= i < |order| ==> order[i] in players
  {
    order := [];
    var rest := players.Keys;
    while rest != {}
      invariant Distinct(order) && rest !! Elements(order) && rest + Elements(order) == players.Keys
      decreases rest
    {
      var id :| id in rest;
      ElementsSnoc(order, id);
      assert id !in order;
      order := order + [id];
      rest := rest - {id};
    }
    assert forall i :: 0 <= i < |order| ==> order[i] in Elements(order);
  }

  /** A local message with one cell, or one `int`, pushed. */
  method MakeCellMsg(typ: uint32, p: Position) returns (m: Msg)
    ensures m == CellMsg(typ, p) && m.header.id == typ
  {
    var msg := new MessageBuffer(typ);
    msg.Push(Cell(p));
    m := msg.Value();
  }

  method MakeIntMsg(typ: uint32, n: int32) returns (m: Msg)
    ensures m == IntMsg(typ, n) && m.header.id == typ
  {
    var msg := new MessageBuffer(typ);
    msg.Push(Int(n));
    m := msg.Value();
  }

  /** The loop that looks for the powerup and erases it. */
  method EraseFirst(ps: seq<Position>, p: Position) returns (left: seq<Position>)
    ensures left == RemoveFirst(ps, p)
    ensures p !in ps ==> left == ps
    ensures forall i :: 0 <= i < |ps| && ps[i] == p && p !in ps[..i] ==> left == ps[..i] + ps[i + 1..]
  {
    left := ps;
    var c := 0;
    while c < |ps|
      invariant 0 <= c <= |ps| && left == ps && p !in ps[..c]
      invariant RemoveFirst(ps, p) == ps[..c] + RemoveFirst(ps[c..], p)
    {
      EraseStep(ps, p, c);
      if ps[c].x == p.x && ps[c].y == p.y {
        left := ps[..c] + ps[c + 1..];
        assert forall i :: 0 <= i < |ps| && ps[i] == p && p !in ps[..i] ==> i == c by {
          forall i | c < i < |ps|
            ensures p in ps[..i]
          {
            assert ps[..i][c] == p;
          }
        }
        return;
      }
      assert ps[..c + 1] == ps[..c] + [ps[c]];
      c := c + 1;
    }
    assert ps[..c] == ps && ps[c..] == [];
  }

  lemma EraseStep(ps: seq<Position>, p: Position, c: nat)
    requires c < |ps|
    ensures if ps[c] == p then RemoveFirst(ps[c..], p) == ps[c + 1..]
            else ps[..c] + RemoveFirst(ps[c..], p) == ps[..c + 1] + RemoveFirst(ps[c + 1..], p)
  {
    assert ps[c..][1..] == ps[c + 1..];
    assert RemoveFirst(ps[c..], p) == if ps[c] == p then ps[c + 1..] else [ps[c]] + RemoveFirst(ps[c + 1..], p);
    hide RemoveFirst;
    var rest := RemoveFirst(ps[c + 1..], p);
    assert ps[..c] + ([ps[c]] + rest) == ps[..c + 1] + rest;
  }

  /** `GenerateSpawnpoints`: six default positions, then the six real ones. */
  function SpawnPoints(): seq<Position> {
    [ORIGIN, ORIGIN, ORIGIN, ORIGIN, ORIGIN, ORIGIN,
     Position(GRID_WIDTH / 4, GRID_HEIGHT / 3),
     Position(2 * GRID_WIDTH / 4, GRID_HEIGHT / 3),
     Position(3 * GRID_WIDTH / 4, GRID_HEIGHT / 3),
     Position(GRID_WIDTH / 4, 2 * GRID_HEIGHT / 3),
     Position(2 * GRID_WIDTH / 4, 2 * GRID_HEIGHT / 3),
     Position(3 * GRID_WIDTH / 4, 2 * GRID_HEIGHT / 3)]
  }

  /** Players are taken from the back: the first six start on six different cells, well apart, and
      six more would all start on the same one. */
  lemma SpawnOrder(i: nat, j: nat)
    requires i < j < 12
    ensures |SpawnPoints()| == 12
    ensures SpawnPoints()[6..] == [Position(10, 10), Position(20, 10), Position(30, 10),
                                   Position(10, 20), Position(20, 20), Position(30, 20)]
    ensures var p, q := SpawnPoints()[11 - i], SpawnPoints()[11 - j];
            && InGrid(p) && InGrid(q)
            && (p == q <==> i >= 6)
            && (j < 6 ==> p.x - q.x >= 10 || q.x - p.x >= 10 || p.y - q.y >= 10 || q.y - p.y >= 10)
  {
  }

  class Server {
    var players: map<uint32, PlayerData>
    var powerups: seq<Position>
    var spawnpoints: seq<Position>
    var gameStarted: bool
    var connections: seq<Connection?>
    var idCounter: uint32

    // -------------------------------------------------------------- connections

    /** Identifiers tell the members apart. */
    static ghost predicate DistinctIds(cs: seq<Connection?>)
      reads (set c: Connection | c in cs)`id
    {
      forall i, j :: 0 <= i < j < |cs| && cs[i] != null && cs[j] != null ==> cs[i].id != cs[j].id
    }

    /** Between two handlers every entry is a connection, and entries and identifiers are distinct. */
    ghost predicate Members()
      reads `connections, (set c: Connection | c in connections)`id
    {
      null !in connections && Distinct(connections) && DistinctIds(connections)
    }

    static ghost predicate Matches(cs: seq<Connection?>, infos: seq<Info>, ignore: Connection?)
      reads (set c: Connection | c in cs)`id, (set c: Connection | c in cs)`open
    {
      && null !in cs && |infos| == |cs|
      && forall j :: 0 <= j < |cs| ==> infos[j] == Info(cs[j].id, cs[j].open, cs[j] == ignore)
    }

    /** The members as a broadcast that ignores `ignore` sees them. */
    static ghost function InfosOf(cs: seq<Connection?>, ignore: Connection?): (infos: seq<Info>)
      reads (set c: Connection | c in cs)`id, (set c: Connection | c in cs)`open
      requires null !in cs
      ensures Matches(cs, infos, ignore)
    {
      if cs == [] then []
      else [Info(cs[0].id, cs[0].open, cs[0] == ignore)] + InfosOf(cs[1..], ignore)
    }

    ghost function Seen(ignore: Connection?): seq<Info>
      reads `connections, (set c: Connection | c in connections)`id, (set c: Connection | c in connections)`open
      requires null !in connections
    {
      InfosOf(connections, ignore)
    }

    // -------------------------------------------------------------- broadcast

    /** What is posted to each member. */
    static ghost function Outboxes(cs: seq<Connection?>): (b: seq<seq<Msg>>)
      reads (set c: Connection | c in cs)`posted
      requires null !in cs
      ensures |b| == |cs| && forall j :: 0 <= j < |cs| ==> b[j] == cs[j].posted
    {
      if cs == [] then [] else [cs[0].posted] + Outboxes(cs[1..])
    }

    static lemma WithoutKeepsMembers(cs: seq<Connection?>, n: nat)
      requires null !in cs && Distinct(cs) && DistinctIds(cs)
      ensures var left := Without(cs, n); null !in left && Distinct(left) && DistinctIds(left)
    {
      var left := Without(cs, n);
      forall i | 0 <= i < |left|
        ensures left[i] == cs[if i < n then i else i + 1]
      {
      }
    }

    method MessageAllClients(m: Msg, ignore: Connection?)
      requires Members() && Settles(Seen(ignore))
      modifies `connections, `players, (set c | c in connections)`posted
      ensures Members()
      ensures connections == Without(old(connections), LostAt(old(Seen(ignore))))
      ensures players == PlayersLeft(old(players), old(Seen(ignore)))
      ensures forall j :: 0 <= j < |old(connections)| ==>
                old(connections)[j].posted == old(connections[j].posted) + Mail(old(Seen(ignore)), j, m)
      decreases if LostAt(Seen(ignore)) < |connections| then 2 else 0, 2
    {
      hide MailUpTo, RemovePlayerMsg, InfosOf, LostAt, Outboxes, Settles, DistinctIds, Distinct;
      ghost var cs, infos := connections, Seen(ignore);
      WithoutKeepsMembers(cs, LostAt(infos));
      ghost var before := Outboxes(cs);
      var invalidClientExists := VisitAll(m, ignore, infos, before);
      assert forall j :: 0 <= j < |cs| ==> cs[j].posted == before[j] + Mail(infos, j, m);
      hide Mail, Seen;
      if invalidClientExists {
        RemoveAllOne(cs, null, LostAt(infos));
        connections := RemoveAll(connections, null);
      }
    }

    static lemma AtTheStart(infos: seq<Info>, m: Msg)
      requires Settles(infos)
      ensures var lost := LostAt(infos);
              if lost < |infos| then forall k :: 0 <= k < |infos| && k != lost ==> infos[k].open
              else forall k :: 0 <= k < |infos| ==> infos[k].open || infos[k].ignored
      ensures forall j :: 0 <= j < |infos| ==> MailUpTo(infos, j, 0, m) == []
    {
      hide LostAt, RemovePlayerMsg;
    }

    /** The loop of `MessageAllClients`; it tells whether an entry was reset. */
    method VisitAll(m: Msg, ignore: Connection?, ghost infos: seq<Info>, ghost before: seq<seq<Msg>>)
      returns (invalidClientExists: bool)
      requires Members() && Matches(connections, infos, ignore) && Settles(infos)
      requires |before| == |connections| && forall j :: 0 <= j < |before| ==> connections[j].posted == before[j]
      modifies `connections, `players, (set c | c in connections)`posted
      ensures var cs, lost := old(connections), LostAt(infos);
              && invalidClientExists == (lost < |cs|)
              && connections == (if lost < |cs| then cs[lost := null] else cs)
              && players == PlayersLeft(old(players), infos)
      ensures forall j :: 0 <= j < |before| ==>
                old(connections)[j].posted == before[j] + MailUpTo(infos, j, |infos|, m)
      decreases if LostAt(infos) < |infos| then 2 else 0, 1
    {
      hide RemovePlayerMsg, InfosOf, LostAt, Seen, Settles, MailUpTo, DistinctIds, Added;
      ghost var cs, lost := connections, LostAt(infos);
      AtTheStart(infos, m);
      invalidClientExists := false;
      var i := 0;
      while i < |connections|
        invariant 0 <= i <= |cs| == |connections|
        invariant invalidClientExists <==> lost < i
        invariant connections == if lost < i then cs[lost := null] else cs
        invariant players == if lost < i then old(players) - {cs[lost].id} else old(players)
        invariant forall j :: 0 <= j < |cs| ==> cs[j].posted == before[j] + MailUpTo(infos, j, i, m)
        decreases |cs| - i
      {
        var lostOne := Visit(i, m, ignore, cs, infos);
        if lostOne {
          invalidClientExists := true;
        }
        forall j | 0 <= j < |cs|
          ensures cs[j].posted == before[j] + MailUpTo(infos, j, i + 1, m)
        {
          MailStep(infos, i, j, m);
          Assoc(before[j], MailUpTo(infos, j, i, m), Added(infos, i, j, m));
        }
        i := i + 1;
      }
    }

    /** The body of the loop over the connection list `cs`, for its member `i`. */
    method Visit(i: nat, m: Msg, ignore: Connection?, ghost cs: seq<Connection?>, ghost infos: seq<Info>)
      returns (lostOne: bool)
      requires null !in cs && Distinct(cs) && DistinctIds(cs) && Matches(cs, infos, ignore)
      requires i < |cs| == |connections| && connections[i] == cs[i]
      requires !infos[i].open && !infos[i].ignored ==>
                 connections == cs && forall k :: 0 <= k < |cs| && k != i ==> infos[k].open
      modifies `connections, `players, (set c | c in cs)`posted
      ensures lostOne <==> !infos[i].open && !infos[i].ignored
      ensures connections == if lostOne then old(connections)[i := null] else old(connections)
      ensures players == if lostOne then old(players) - {infos[i].id} else old(players)
      ensures forall j :: 0 <= j < |cs| ==> cs[j].posted == old(cs[j].posted) + Added(infos, i, j, m)
      decreases if !infos[i].open && !infos[i].ignored then 2 else 0, 0
    {
      hide RemovePlayerMsg;
      lostOne := false;
      var client := connections[i];
      if client == ignore {
        return;
      }
      if client != null && client.open {
        client.Send(m);
      } else {
        OnClientDisconnect(client);
        connections := connections[i := null];
        lostOne := true;
      }
    }

    /** `OnClientDisconnect`: everyone else hears of it, and the player is gone. */
    method OnClientDisconnect(client: Connection)
      requires Members() && client in connections && !client.open
      requires forall c :: c in connections && c != client ==> c.open
      modifies `connections, `players, (set c | c in connections)`posted
      ensures connections == old(connections)
      ensures players == old(players) - {client.id}
      ensures forall j :: 0 <= j < |connections| ==>
                connections[j].posted
                == old(connections[j].posted) + if connections[j] == client then [] else [RemovePlayerMsg(client.id)]
      decreases 1, 0
    {
      hide InfosOf, LostAt, IntMsg;
      var id := AsInt32(client.id);
      var msg := MakeIntMsg(REMOVE_PLAYER, id);
      MessageAllClients(msg, client);
      WordIntAgree(client.id, 0);
      players := players - {AsUint32(id)};
    }

    // -------------------------------------------------------------- what the callers use

    static ghost function MembersOf(cs: seq<Connection?>): (list: seq<Member>)
      reads (set c: Connection | c in cs)`id
      requires null !in cs
      ensures |list| == |cs| && forall j :: 0 <= j < |cs| ==> list[j] == Member(cs[j], cs[j].id)
    {
      if cs == [] then [] else [Member(cs[0], cs[0].id)] + MembersOf(cs[1..])
    }

    static ghost function Connected(cs: seq<Connection?>): set<Connection>
      reads (set c: Connection | c in cs)`open
    {
      set c: Connection | c in cs && c.open
    }

    /** All that each connected member was ever sent. */
    ghost function Mails(): map<Connection, seq<Msg>>
      reads `connections, (set c: Connection | c in connections)`open
      reads (set c: Connection | c in connections)`accepted, (set c: Connection | c in connections)`posted
    {
      map c | c in Connected(connections) :: c.Sent()
    }

    /** The list, the players and the mail as values. */
    ghost function View(): Lobby
      reads `connections, `players, (set c: Connection | c in connections)`id
      reads (set c: Connection | c in connections)`open
      reads (set c: Connection | c in connections)`accepted, (set c: Connection | c in connections)`posted
      requires null !in connections
    {
      Lobby(MembersOf(connections), players, Mails())
    }

    /** Between two handlers every entry is a connection, entries and identifiers are distinct, and at
        most one member is disconnected. */
    ghost predicate Steady()
      reads `connections, `players, (set c: Connection | c in connections)`id
      reads (set c: Connection | c in connections)`open
      reads (set c: Connection | c in connections)`accepted, (set c: Connection | c in connections)`posted
    {
      null !in connections && Tidy(View()) && OneClosed(View())
    }

    lemma SeenIs(ignore: Connection?)
      requires null !in connections
      ensures Seen(ignore) == SeenBy(View(), ignore)
    {
    }

    lemma SteadyFacts()
      requires Steady()
      ensures Members()
    {
      var list := View().list;
      forall i, j | 0 <= i < j < |connections|
        ensures connections[i] != connections[j] && connections[i].id != connections[j].id
      {
        assert list[i] == Member(connections[i], connections[i].id);
        assert list[j] == Member(connections[j], connections[j].id);
      }
    }

    lemma SettlesNow(ignore: Connection?)
      requires Steady()
      ensures Settles(Seen(ignore))
    {
      SeenIs(ignore);
      hide View, Seen, Tidy;
    }

    static ghost predicate SentBefore(cs: seq<Connection?>, boxes: seq<seq<Msg>>, mails: map<Connection, seq<Msg>>)
      reads (set c: Connection | c in cs)`open, (set c: Connection | c in cs)`accepted
    {
      && null !in cs && |boxes| == |cs| && mails.Keys == Connected(cs)
      && forall j :: 0 <= j < |cs| && cs[j].open ==> cs[j] in mails && mails[cs[j]] == cs[j].accepted + boxes[j]
    }

    lemma SentNow()
      requires null !in connections
      ensures SentBefore(connections, Outboxes(connections), View().mails)
    {
      hide MembersOf;
    }

    static lemma MembersWithout(cs: seq<Connection?>, n: nat)
      requires null !in cs
      ensures null !in Without(cs, n) && MembersOf(Without(cs, n)) == Without(MembersOf(cs), n)
    {
    }

    static lemma WithoutKeepsConnected(cs: seq<Connection?>, n: nat)
      requires null !in cs && (n < |cs| ==> !cs[n].open)
      ensures forall c :: c in Without(cs, n) ==> c in cs
      ensures Connected(Without(cs, n)) == Connected(cs)
    {
      forall c | c in Connected(cs)
        ensures c in Without(cs, n)
      {
        var j :| 0 <= j < |cs| && cs[j] == c;
        assert n < |cs| && j < n ==> Without(cs, n)[j] == c;
        assert n < |cs| && j > n ==> Without(cs, n)[j - 1] == c;
      }
    }

    /** The mail after a broadcast, connection by connection. */
    static lemma SentAfter(cs: seq<Connection?>, boxes: seq<seq<Msg>>, l: Lobby, infos: seq<Info>, m: Msg,
                           ignore: Connection?, c: Connection)
      requires SentBefore(cs, boxes, l.mails) && |infos| == |cs| && infos == SeenBy(l, ignore) && Tidy(l)
      requires l.list == MembersOf(cs) && c in Connected(cs)
      requires forall j :: 0 <= j < |cs| ==> cs[j].posted == boxes[j] + Mail(infos, j, m)
      ensures c in Broadcast(l, m, ignore).mails && c.Sent() == Broadcast(l, m, ignore).mails[c]
    {
      MailAfter(l, m, ignore, c);
      hide Broadcast, Mail, SeenBy, Tidy;
      var j := PlaceOf(l.list, c);
      assert l.list[j] == Member(cs[j], cs[j].id) && cs[j] == c;
      Assoc(c.accepted, boxes[j], Mail(infos, j, m));
    }

    lemma ViewBuilt(l: Lobby)
      requires null !in connections && MembersOf(connections) == l.list && players == l.players
      requires Connected(connections) == l.mails.Keys
      requires forall c :: c in Connected(connections) ==> c in l.mails && c.Sent() == l.mails[c]
      ensures View() == l
    {
      hide MembersOf, Connected;
    }

    lemma AfterTell(cs: seq<Connection?>, boxes: seq<seq<Msg>>, l: Lobby, infos: seq<Info>, m: Msg, ignore: Connection?)
      requires SentBefore(cs, boxes, l.mails) && |infos| == |cs| && infos == SeenBy(l, ignore) && Tidy(l)
      requires l.list == MembersOf(cs) && players == PlayersLeft(l.players, infos)
      requires connections == Without(cs, LostAt(infos))
      requires forall j :: 0 <= j < |cs| ==> cs[j].posted == boxes[j] + Mail(infos, j, m)
      ensures null !in connections && View() == Broadcast(l, m, ignore)
      ensures forall c :: c in connections ==> c in cs
    {
      BroadcastShape(l, m, ignore);
      hide Broadcast, Mail, SeenBy, Tidy, Without, PlayersLeft, LostAt, Connected;
      var n := LostAt(infos);
      MembersWithout(cs, n);
      LostIsClosed(cs, l, n);
      WithoutKeepsConnected(cs, n);
      forall c | c in Connected(cs)
        ensures c in Broadcast(l, m, ignore).mails && c.Sent() == Broadcast(l, m, ignore).mails[c]
      {
        SentAfter(cs, boxes, l, infos, m, ignore, c);
      }
      hide MembersOf, SentBefore;
      assert l.mails.Keys == Connected(cs) by { KeysBefore(cs, boxes, l.mails); }
      ViewBuilt(Broadcast(l, m, ignore));
    }

    static lemma KeysBefore(cs: seq<Connection?>, boxes: seq<seq<Msg>>, mails: map<Connection, seq<Msg>>)
      requires SentBefore(cs, boxes, mails)
      ensures mails.Keys == Connected(cs)
    {
    }

    static lemma LostIsClosed(cs: seq<Connection?>, l: Lobby, n: nat)
      requires null !in cs && l.list == MembersOf(cs) && l.mails.Keys == Connected(cs)
      requires n < |l.list| ==> l.list[n].conn !in l.mails
      ensures n < |cs| ==> !cs[n].open
    {
      assert n < |cs| ==> l.list[n] == Member(cs[n], cs[n].id);
    }

    /** `MessageAllClients` as the handlers use it. */
    method Tell(m: Msg, ignore: Connection?)
      requires Steady()
      modifies `connections, `players, (set c | c in connections)`posted
      ensures Steady()
      ensures forall c :: c in connections ==> c in old(connections)
      ensures View() == Broadcast(old(View()), m, ignore)
    {
      hide Mail, LostAt, PlayersLeft, Without, InfosOf, Settles, DistinctIds, Tidy, OneClosed, Broadcast;
      ghost var cs, l, infos, boxes := connections, View(), Seen(ignore), Outboxes(connections);
      SteadyFacts();
      SettlesNow(ignore);
      SeenIs(ignore);
      SentNow();
      ViewIs();
      hide View, Outboxes, Connected, SentBefore, Matches, SeenBy, MembersOf, Seen;
      MessageAllClients(m, ignore);
      AfterTell(cs, boxes, l, infos, m, ignore);
      BroadcastKeeps(l, m, ignore);
    }

    lemma ViewIs()
      requires null !in connections
      ensures View().list == MembersOf(connections) && View().players == players
    {
    }

    lemma MailsAre()
      requires null !in connections
      ensures View().mails.Keys == Connected(connections)
      ensures forall c :: c in View().mails ==> View().mails[c] == c.Sent()
    {
    }

    // -------------------------------------------------------------- powerups

    /** Draws any free cell, puts a powerup there and tells everyone. */
    method GeneratePowerup()
      requires Steady() && BoardOk(players, powerups) && FreeSet(players, powerups) != {}
      modifies `powerups, `connections, `players, (set c | c in connections)`posted
      ensures Steady() && BoardOk(players, powerups)
      ensures forall c :: c in connections ==> c in old(connections)
      ensures |powerups| == |old(powerups)| + 1 && powerups[..|old(powerups)|] == old(powerups)
      ensures Free(old(players), old(powerups), powerups[|old(powerups)|])
      ensures View() == Broadcast(old(View()), CellMsg(NEW_POWERUP, powerups[|old(powerups)|]), null)
    {
      hide CellMsg, View, BoardOk, FreeSet, Free, Tidy, OneClosed, Broadcast, LostIds, SeenBy;
      ghost var l := View();
      ViewIs();
      var spawnPos := DrawCell();
      BoardWithNew(players, powerups, spawnPos, LostIds(SeenBy(l, null)));
      powerups := powerups + [spawnPos];
      var msg := MakeCellMsg(NEW_POWERUP, spawnPos);
      BroadcastShape(l, msg, null);
      Tell(msg, null);
      ViewIs();
    }

    /** Any index of the free grid is drawn, whatever order the map of players iterates in. */
    method DrawCell() returns (spawnPos: Position)
      requires BoardOk(players, powerups) && FreeSet(players, powerups) != {}
      ensures Free(players, powerups, spawnPos)
    {
      var order := AnyOrder(players);
      var freeGrid := GetFreeGrid(players, powerups, order);
      DrawIsPossible(freeGrid, players, powerups, order);
      hide Free, FreeSet;
      var k :| 0 <= k < |freeGrid|;
      spawnPos := freeGrid[k];
    }

    /** The first powerup on the cell is erased, and everyone but the eater is told. */
    method DeletePowerup(powerup: Position, ignoreClient: Connection?)
      requires Steady()
      modifies `powerups, `connections, `players, (set c | c in connections)`posted
      ensures Steady()
      ensures forall c :: c in connections ==> c in old(connections)
      ensures powerups == RemoveFirst(old(powerups), powerup)
      ensures View() == Broadcast(old(View()), CellMsg(POWERUP_EATEN, powerup), ignoreClient)
    {
      hide CellMsg, View, Tidy, OneClosed, Broadcast;
      var msg := MakeCellMsg(POWERUP_EATEN, powerup);
      powerups := EraseFirst(powerups, powerup);
      Tell(msg, ignoreClient);
    }

    /** The body has a cell, and there is a free one once the powerup there is gone and the players
        found gone are, too. */
    ghost predicate EatLeavesRoom(client: Connection, body: seq<byte>)
      reads `players, `powerups, `connections, (set c: Connection | c in connections)`id
      reads (set c: Connection | c in connections)`open
      reads (set c: Connection | c in connections)`accepted, (set c: Connection | c in connections)`posted
      requires null !in connections
    {
      && Pop(body, CellKind).Some?
      && FreeSet(LeftBy(View(), client), RemoveFirst(powerups, Pop(body, CellKind).value.0.cell)) != {}
    }

    /** A client, perhaps one whose connection is closed or no longer in the list, says that it ate the
        powerup in the message. */
    method OnPowerupEaten(client: Connection, msg: MessageBuffer)
      requires Steady() && BoardOk(players, powerups) && EatLeavesRoom(client, msg.body)
      modifies msg, `powerups, `connections, `players, (set c | c in connections)`posted
      ensures Steady() && BoardOk(players, powerups)
      ensures forall c :: c in connections ==> c in old(connections)
      ensures var p := old(Pop(msg.body, CellKind).value.0.cell);
              var left := RemoveFirst(old(powerups), p);
              && |powerups| == |left| + 1 && powerups[..|left|] == left
              && Free(old(LeftBy(View(), client)), left, powerups[|left|])
              && View() == Replaced(old(View()), client, p, powerups[|left|])
    {
      hide CellMsg, Decode, Pop, View, BoardOk, FreeSet, Free, RemoveFirst, Tidy, OneClosed, Broadcast, SeenBy, LostIds;
      ghost var l := View();
      ViewIs();
      var v := msg.Pop(CellKind);
      BoardWithout(players, powerups, v.cell, LostIds(SeenBy(l, client)));
      BroadcastShape(l, CellMsg(POWERUP_EATEN, v.cell), client);
      DeletePowerup(v.cell, client);
      ViewIs();
      GeneratePowerup();
    }

    // -------------------------------------------------------------- collisions

    method SendKillMessage(clientID: int32)
      requires Steady()
      modifies `connections, `players, (set c | c in connections)`posted
      ensures Steady()
      ensures forall c :: c in connections ==> c in old(connections)
      ensures View() == Broadcast(old(View()), IntMsg(KILL_PLAYER, clientID), null)
    {
      hide IntMsg, View, Tidy, OneClosed, Broadcast;
      var msg := MakeIntMsg(KILL_PLAYER, clientID);
      Tell(msg, null);
    }

    /** The loops of `PlayerCollision`: for each player, in the order of the map, its own tail from
        index 4 on, or the whole tail of another player. */
    method FindsCollision(clientID: int32) returns (hit: bool)
      requires HeadReadable(players, AsUint32(clientID))
      ensures hit <==> Hit(players, AsUint32(clientID))
    {
      var id := AsUint32(clientID);
      var order := AnyOrder(players);
      for i := 0 to |order|
        invariant forall k :: 0 <= k < i ==> !HitBy(players, id, order[k])
      {
        var tail := players[order[i]].tail;
        if order[i] == id {
          var c := 4;
          while c < |tail|
            invariant 4 <= c && forall k :: 4 <= k < c && k < |tail| ==> tail[k] != tail[0]
          {
            if tail[c].x == players[id].tail[0].x && tail[c].y == players[id].tail[0].y {
              return true;
            }
            c := c + 1;
          }
        } else {
          for c := 0 to |tail|
            invariant c > 0 ==> id in players && players[id].tail != []
            invariant forall k :: 0 <= k < c ==> tail[k] != players[id].tail[0]
          {
            if tail[c].x == players[id].tail[0].x && tail[c].y == players[id].tail[0].y {
              assert players[id].tail[0] in tail;
              return true;
            }
          }
        }
      }
      hit := false;
      assert forall other :: other in players ==> other in Elements(order);
    }

    /** A kill is broadcast, once, when the head of the player is on something; otherwise nothing
        happens. */
    method PlayerCollision(clientID: int32)
      requires Steady() && HeadReadable(players, AsUint32(clientID))
      modifies `connections, `players, (set c | c in connections)`posted
      ensures Steady()
      ensures forall c :: c in connections ==> c in old(connections)
      ensures View() == if Hit(old(players), AsUint32(clientID))
                        then Broadcast(old(View()), IntMsg(KILL_PLAYER, clientID), null) else old(View())
      ensures old(BoardOk(players, powerups)) ==> BoardOk(players, powerups)
    {
      hide IntMsg, View, Tidy, OneClosed, Broadcast, Hit, BoardOk;
      BoardAfter(IntMsg(KILL_PLAYER, clientID), null);
      var hit := FindsCollision(clientID);
      if hit {
        SendKillMessage(clientID);
        ViewIs();
      }
    }

    /** A broadcast takes players away, and leaves the board in order. */
    lemma BoardAfter(m: Msg, ignore: Connection?)
      requires null !in connections
      ensures BoardOk(players, powerups) ==> BoardOk(Broadcast(View(), m, ignore).players, powerups)
      ensures Broadcast(View(), m, ignore).players == LeftBy(View(), ignore)
    {
      ViewIs();
      BroadcastShape(View(), m, ignore);
      hide View, Broadcast, SeenBy, LostIds, BoardOk;
      if BoardOk(players, powerups) {
        BoardShrinks(players, powerups, LostIds(SeenBy(View(), ignore)));
      }
    }

    // -------------------------------------------------------------- updates

    static predicate AllIn(tail: seq<Position>) {
      forall i :: 0 <= i < |tail| ==> InGrid(tail[i])
    }

    /** The report's tail is in the grid. */
    static predicate TailIn(body: seq<byte>) {
      ParseUpdate(body).Some? && AllIn(ParseUpdate(body).value.tail)
    }

    /** Every other client gets the update as it came; only then is it taken apart. The sender's tail
        and direction are stored, and the scan for collisions looks at the players as they are then. An
        exception ends the handler when the sender has no player. */
    method OnUpdatePlayer(client: Connection, msg: MessageBuffer) returns (thrown: bool)
      requires Steady() && Reportable(View(), client, client.id, msg.body)
      modifies msg, `connections, `players, (set c | c in connections)`posted
      ensures Steady()
      ensures forall c :: c in connections ==> c in old(connections)
      ensures old(BoardOk(players, powerups)) && (thrown || TailIn(old(msg.body))) ==> BoardOk(players, powerups)
      ensures thrown <==> client.id !in old(LeftBy(View(), client))
      ensures View() == Reported(old(View()), client, client.id, old(msg.Value()))
    {
      hide IntMsg, View, Tidy, OneClosed, Broadcast, LeftBy, Hit, ParseUpdate, Pop, Decode, HeadReadable, BoardOk,
        TailIn, Stored;
      ghost var l, m := View(), msg.Value();
      BoardAfter(m, client);
      Tell(msg.Value(), client);
      ViewIs();
      var clientID := msg.Pop(IntKind);
      thrown := client.id !in players;
      if thrown {
        return;
      }
      ReportNames(m.body);
      BoardReported(players, powerups, client.id, m.body);
      StoreReport(client.id, clientID.int_, msg, m.body);
    }

    /** The rest of the handler: direction and tail are stored and collisions are looked for. */
    method StoreReport(id: uint32, clientID: int32, msg: MessageBuffer, ghost body: seq<byte>)
      requires Steady() && id in players
      requires ParseUpdate(body).Some? && msg.body == Pop(body, IntKind).value.1
      requires HeadReadable(Stored(players, id, body), AsUint32(clientID))
      modifies msg, `connections, `players, (set c | c in connections)`posted
      ensures Steady()
      ensures forall c :: c in connections ==> c in old(connections)
      ensures var l := old(View()).(players := Stored(old(players), id, body));
              && View() == (if Hit(l.players, AsUint32(clientID)) then Broadcast(l, IntMsg(KILL_PLAYER, clientID), null)
                            else l)
              && (BoardOk(l.players, powerups) ==> BoardOk(players, powerups))
    {
      hide IntMsg, Broadcast, Hit, ParseUpdate, Pop, Decode, HeadReadable, BoardOk;
      hide MembersOf, Mails, Tidy, OneClosed;
      var direction, tail := TakeReport(msg, body);
      players := players[id := PlayerData(direction, tail, players[id].color)];
      SameList(old(View()), View());
      hide View;
      PlayerCollision(clientID);
    }

    static lemma ReportNames(body: seq<byte>)
      requires ParseUpdate(body).Some?
      ensures Pop(body, IntKind).Some? && Pop(body, IntKind).value.0.Int?
      ensures ParseUpdate(body).value.id == Pop(body, IntKind).value.0.int_
    {
      hide Pop;
    }

    static lemma BoardReported(players: map<uint32, PlayerData>, powerups: seq<Position>, id: uint32, body: seq<byte>)
      requires id in players && ParseUpdate(body).Some?
      ensures BoardOk(players, powerups) && TailIn(body) ==> BoardOk(Stored(players, id, body), powerups)
    {
      var u := ParseUpdate(body).value;
      hide BoardOk, ParseUpdate;
      if BoardOk(players, powerups) && TailIn(body) {
        BoardJoins(players, powerups, id, PlayerData(u.direction, u.tail, players[id].color));
      }
    }

    /** What the server pops from a report once it has the identifier. */
    static method TakeReport(msg: MessageBuffer, ghost body: seq<byte>)
      returns (direction: Direction, tail: seq<Position>)
      requires ParseUpdate(body).Some? && msg.body == Pop(body, IntKind).value.1
      modifies msg
      ensures ParseUpdate(body) == Some(Update(Pop(body, IntKind).value.0.int_, direction, tail, msg.body))
    {
      hide Pop, Decode;
      var dir := msg.Pop(WordKind);
      direction := DirectionOf(dir.word);
      tail := TakeTail(msg);
    }

    /** Every client, the one who asked for it included, gets the request back as it came. */
    method OnStartGame(msg: MessageBuffer)
      requires Steady()
      modifies `gameStarted, `connections, `players, (set c | c in connections)`posted
      ensures Steady() && gameStarted
      ensures forall c :: c in connections ==> c in old(connections)
      ensures View() == Broadcast(old(View()), old(msg.Value()), null)
      ensures old(BoardOk(players, powerups)) ==> BoardOk(players, powerups)
    {
      hide View, Tidy, OneClosed, Broadcast, BoardOk;
      BoardAfter(msg.Value(), null);
      gameStarted := true;
      Tell(msg.Value(), null);
      ViewIs();
    }

    // -------------------------------------------------------------- joining

    /** `Send` to one connected client. */
    method SendTo(client: Connection, m: Msg)
      requires Steady() && client in connections && client.open
      modifies client`posted
      ensures client in old(View()).mails && Steady()
      ensures View() == SentOne(old(View()), client, m)
    {
      ghost var l := View();
      ViewIs();
      MailsAre();
      client.Send(m);
      ViewBuilt(SentOne(l, client, m));
      SameList(l, View());
    }

    /** Generates powerups until there are `target`. Nobody is found gone on the way. */
    method FillPowerups(target: nat)
      requires Steady() && BoardOk(players, powerups) && AllOpen(View())
      requires |FreeSet(players, powerups)| + |powerups| >= target
      modifies `powerups, `connections, `players, (set c | c in connections)`posted
      ensures Steady() && BoardOk(players, powerups)
      ensures forall c :: c in connections ==> c in old(connections)
      ensures players == old(players)
      ensures old(powerups) <= powerups
      ensures |powerups| == if |old(powerups)| < target then target else |old(powerups)|
      ensures forall k :: |old(powerups)| <= k < |powerups| ==> Free(players, powerups[..k], powerups[k])
      ensures View() == Announced(old(View()), powerups[|old(powerups)|..])
    {
      hide CellMsg, View, Tidy, OneClosed, Broadcast, AllOpen, BoardOk, FreeSet, Free, Announced;
      AnnouncedNone(View());
      ghost var n := |powerups|;
      assert powerups[n..] == [];
      while |powerups| < target
        invariant Steady() && BoardOk(players, powerups) && AllOpen(View())
        invariant |FreeSet(players, powerups)| + |powerups| >= target
        invariant forall c :: c in connections ==> c in old(connections)
        invariant players == old(players)
        invariant old(powerups) <= powerups
        invariant n < |powerups| ==> |powerups| <= target
        invariant forall k :: n <= k < |powerups| ==> Free(players, powerups[..k], powerups[k])
        invariant View() == Announced(old(View()), powerups[n..])
        decreases target - |powerups|
      {
        ghost var before, l := powerups, View();
        ViewIs();
        GeneratePowerup();
        ViewIs();
        BroadcastOpens(l, CellMsg(NEW_POWERUP, powerups[|before|]), null);
        FreeSetShrinks(players, before, powerups[|before|]);
        assert powerups == before + [powerups[|before|]] && powerups[n..] == before[n..] + [powerups[|before|]];
        AnnouncedLast(old(View()), before[n..], powerups[|before|]);
        FreeToo(players, n, before, powerups);
      }
    }

    static lemma FreeToo(players: map<uint32, PlayerData>, n: nat, before: seq<Position>, after: seq<Position>)
      requires n <= |before| && |after| == |before| + 1 && before <= after
      requires forall k :: n <= k < |before| ==> Free(players, before[..k], before[k])
      requires Free(players, before, after[|before|])
      ensures forall k :: n <= k < |after| ==> Free(players, after[..k], after[k])
    {
      hide Free;
      forall k | n <= k < |after|
        ensures Free(players, after[..k], after[k])
      {
        if k < |before| {
          assert after[..k] == before[..k] && after[k] == before[k];
        } else {
          assert after[..k] == before;
        }
      }
    }

    static method MakePlayerMsg(id: uint32, p: PlayerData) returns (m: Msg)
      requires Countable(p.tail)
      ensures m == PlayerMsg(id, p)
    {
      hide Encode;
      var msg := new MessageBuffer(NEW_PLAYER);
      AddTail(msg, p.tail);
      msg.Push(Word(p.color));
      msg.Push(Word(id));
      m := msg.Value();
    }

    static method MakeSnapshotMsg(players: map<uint32, PlayerData>, powerups: seq<Position>, id: uint32)
      returns (m: Msg)
      requires Sendable(players) && Countable(powerups)
      ensures IsSnapshot(m, players, powerups, id)
    {
      var order := AnyOrder(players);
      var msg := SnapshotMessage(SERVER_VALIDATION, order, players, powerups, id);
      m := msg.Value();
      assert m == SnapshotMsg(order, players, powerups, id);
    }

    /** The new player, on the last spawn point. */
    function Newcomer(color: uint32): PlayerData
      reads `spawnpoints
      requires spawnpoints != []
    {
      NewPlayer(spawnpoints[|spawnpoints| - 1], color)
    }

    /** There has to be a spawn point, lists short enough to be counted, and room for the powerups. */
    method OnClientValidated(client: Connection, color: uint32)
      requires Steady() && client in connections && client.open && BoardOk(players, powerups)
      requires spawnpoints != [] && InGrid(spawnpoints[|spawnpoints| - 1])
      requires Sendable(players[client.id := Newcomer(color)]) && Countable(powerups)
      requires var joined := players[client.id := Newcomer(color)];
               |FreeSet(joined, powerups)| + |powerups| > |joined| / 2
      modifies `spawnpoints, `powerups, `connections, `players, (set c | c in connections)`posted
      ensures Steady() && BoardOk(players, powerups)
      ensures forall c :: c in connections ==> c in old(connections)
      ensures spawnpoints == old(spawnpoints[..|spawnpoints| - 1])
      ensures client.id in players && old(powerups) <= powerups && Filled(|players|, old(|powerups|), |powerups|)
      ensures players[client.id] == PlayerData(Up, [old(spawnpoints[|spawnpoints| - 1])], color)
      ensures |powerups| == var wanted := if |players| % 2 == 0 then 1 else |players| / 2 + 1;
                            if old(|powerups|) < wanted then wanted else old(|powerups|)
      ensures forall k :: |old(powerups)| <= k < |powerups| ==> Free(players, powerups[..k], powerups[k])
      ensures client in old(View()).mails
      ensures exists state ::
                && IsSnapshot(state, old(players[client.id := Newcomer(color)]), old(powerups), client.id)
                && View() == Welcomed(old(View()), client, client.id, old(Newcomer(color)), state,
                                      powerups[|old(powerups)|..])
    {
      hide CellMsg, View, BoardOk, Tidy, OneClosed, Broadcast, FreeSet, Free, PlayerMsg, Sendable, PowerupCount,
        Announced, IsSnapshot, LeftBy;
      ghost var l := View();
      ViewIs();
      JoinFacts(client, color);
      ghost var joined := l.(players := players[client.id := Newcomer(color)]);
      var player := AddPlayer(client, color);
      assert View() == joined;
      var state := MakeSnapshotMsg(players, powerups, client.id);
      var announcement := MakePlayerMsg(client.id, player);
      Introduce(client, state, announcement);
      assert players == LeftBy(joined, client) && powerups == old(powerups);
      FillPowerups(PowerupCount(|players|));
      FilledIs(|players|, old(|powerups|), |powerups|);
      assert View() == Welcomed(l, client, client.id, player, state, powerups[|old(powerups)|..]);
    }

    /** The new player is entered; nothing is sent yet. */
    method AddPlayer(client: Connection, color: uint32) returns (player: PlayerData)
      requires Steady() && spawnpoints != []
      modifies `spawnpoints, `players
      ensures Steady() && player == old(Newcomer(color))
      ensures spawnpoints == old(spawnpoints[..|spawnpoints| - 1])
      ensures players == old(players)[client.id := player]
      ensures View() == old(View()).(players := old(players)[client.id := player])
    {
      hide MembersOf, Mails, Tidy, OneClosed;
      player := Newcomer(color);
      spawnpoints := spawnpoints[..|spawnpoints| - 1];
      players := players[client.id := player];
      SameList(old(View()), View());
    }

    lemma JoinFacts(client: Connection, color: uint32)
      requires Steady() && client in connections && client.open && BoardOk(players, powerups)
      requires spawnpoints != [] && InGrid(spawnpoints[|spawnpoints| - 1])
      requires var joined := players[client.id := Newcomer(color)];
               |FreeSet(joined, powerups)| + |powerups| > |joined| / 2
      ensures client in View().mails
      ensures var left := LeftBy(View().(players := players[client.id := Newcomer(color)]), client);
              && BoardOk(left, powerups) && |FreeSet(left, powerups)| + |powerups| >= PowerupCount(|left|)
              && client.id in left && left[client.id] == Newcomer(color)
    {
      var l := View().(players := players[client.id := Newcomer(color)]);
      ConnectedIsKept(l, client);
      BoardJoins(players, powerups, client.id, Newcomer(color));
      JoinedBoard(l.players, powerups, LostIds(SeenBy(l, client)));
    }

    lemma ConnectedIsKept(l: Lobby, client: Connection)
      requires Steady() && client in connections && client.open && l == View().(players := l.players)
      ensures client in l.mails && client.id !in LostIds(SeenBy(l, client))
    {
      hide View, Tidy, OneClosed, LostIds, SeenBy;
      ViewIs();
      MailsAre();
      var j :| 0 <= j < |connections| && connections[j] == client;
      assert l.list[j] == Member(client, client.id);
      hide MembersOf;
      SameList(View(), l);
      OpenIsKept(l, j, client);
    }

    /** The game state goes to the new client, and its player to the others. */
    method Introduce(client: Connection, state: Msg, announcement: Msg)
      requires Steady() && client in connections && client.open
      modifies `connections, `players, (set c | c in connections)`posted
      ensures client in old(View()).mails && Steady() && AllOpen(View())
      ensures forall c :: c in connections ==> c in old(connections)
      ensures View() == Broadcast(SentOne(old(View()), client, state), announcement, client)
      ensures players == LeftBy(old(View()), client)
    {
      hide View, Tidy, Broadcast, AllOpen, OneClosed, LostIds;
      SendTo(client, state);
      ghost var l := View();
      BroadcastOpens(l, announcement, client);
      BroadcastShape(l, announcement, client);
      Tell(announcement, client);
      ViewIs();
      assert SeenBy(l, client) == SeenBy(old(View()), client);
    }

    // -------------------------------------------------------------- starting and accepting

    constructor ()
      ensures players == map[] && powerups == [] && connections == [] && !gameStarted && idCounter == 10000
      ensures spawnpoints == SpawnPoints()
      ensures Steady() && BoardOk(players, powerups) && IdsBelow()
    {
      players, powerups, connections := map[], [], [];
      gameStarted := false;
      idCounter := 10000;
      spawnpoints := SpawnPoints();
    }

    /** Every identifier given out is below the counter. */
    ghost predicate IdsBelow()
      reads `connections, `idCounter, (set c: Connection | c in connections)`id
    {
      forall c :: c in connections && c != null ==> c.id < idCounter
    }

    method OnClientConnect(client: Connection) returns (allowed: bool)
      ensures allowed <==> spawnpoints != [] && !gameStarted
    {
      if |spawnpoints| > 0 {
        return !gameStarted;
      }
      allowed := false;
    }

    /** The acceptor's handler: an approved connection joins the list under a new identifier and its
        handshake starts; a denied one changes nothing. */
    method OnAccepted(conn: Connection)
      requires null !in connections && Tidy(View()) && IdsBelow() && idCounter < 0xFFFF_FFFF
      requires conn !in connections && conn.owner == ServerSide && conn.open
      modifies `connections, `idCounter, conn
      ensures null !in connections && Tidy(View()) && IdsBelow() && (old(Steady()) ==> Steady())
      ensures if spawnpoints != [] && !gameStarted
              then connections == old(connections) + [conn] && conn.id == old(idCounter) == idCounter - 1
                   && conn.read == ValidationRead([]) && conn.greet == Greeting(HandshakeBytes(conn.handshakeOut))
                   && View() == Entered(old(View()), conn, conn.id, old(conn.Sent()))
              else connections == old(connections) && idCounter == old(idCounter) && unchanged(conn)
                   && View() == old(View())
      ensures conn.open && conn.posted == old(conn.posted) && conn.tmp == old(conn.tmp) && conn.write == old(conn.write)
    {
      hide HandshakeBytes, Tidy, OneClosed, View, MembersOf, Entered;
      var allowed := OnClientConnect(conn);
      if allowed {
        ghost var l := View();
        ViewIs();
        MailsAre();
        connections := connections + [conn];
        conn.ConnectToClient(idCounter);
        idCounter := idCounter + 1;
        ViewEntered(old(connections), l, conn);
        EnteredTidy(l, conn, conn.id, conn.Sent());
      }
    }

    lemma ViewEntered(cs: seq<Connection?>, l: Lobby, conn: Connection)
      requires connections == cs + [conn] && null !in cs && conn !in cs && conn.open
      requires l.list == MembersOf(cs) && l.players == players && l.mails.Keys == Connected(cs)
      requires forall c :: c in l.mails ==> l.mails[c] == c.Sent()
      ensures null !in connections && View() == Entered(l, conn, conn.id, conn.Sent())
      ensures forall i :: 0 <= i < |l.list| ==> l.list[i].conn in cs && l.list[i].id == l.list[i].conn.id
    {
      hide View, MembersOf, Connected;
      OneMoreMember(cs, conn);
      ViewBuilt(Entered(l, conn, conn.id, conn.Sent()));
    }

    static lemma OneMoreMember(cs: seq<Connection?>, conn: Connection)
      requires null !in cs && conn !in cs && conn.open
      ensures Connected(cs + [conn]) == Connected(cs) + {conn} && conn !in Connected(cs)
      ensures MembersOf(cs + [conn]) == MembersOf(cs) + [Member(conn, conn.id)]
    {
    }

    // -------------------------------------------------------------- dispatch

    /** What a handler asks of the message it is given. */
    ghost predicate Handled(client: Connection, msg: MessageBuffer)
      reads `players, `powerups, `connections, client`id, msg, (set c: Connection | c in connections)`id
      reads (set c: Connection | c in connections)`open
      reads (set c: Connection | c in connections)`accepted, (set c: Connection | c in connections)`posted
      requires null !in connections
    {
      && Answerable(View(), client, client.id, msg.Value())
      && (msg.header.id == POWERUP_EATEN ==> BoardOk(players, powerups) && EatLeavesRoom(client, msg.body))
    }

    /** `OnMessage`: each type has its handler, and the list, and for tails in the grid the board, stay in
        order. The sender may be closed or out of the list by then. */
    method OnMessage(client: Connection, msg: MessageBuffer) returns (thrown: bool)
      requires null !in connections && Tidy(View()) && (Broadcasts(msg.Value()) ==> OneClosed(View()))
      requires Handled(client, msg)
      modifies msg, `gameStarted, `powerups, `connections, `players, (set c | c in connections)`posted
      ensures null !in connections && Tidy(View()) && (old(Steady()) ==> Steady())
      ensures old(BoardOk(players, powerups))
              && (old(msg.header.id) == UPDATE_PLAYER ==> thrown || TailIn(old(msg.body))) ==>
                BoardOk(players, powerups)
      ensures forall c :: c in connections ==> c in old(connections)
      ensures thrown <==> old(msg.header.id) == UPDATE_PLAYER && client.id !in old(LeftBy(View(), client))
      ensures gameStarted <==> old(gameStarted) || old(msg.header.id) == START_GAME
      ensures (powerups, View()) == AfterMessage(old(powerups), old(View()), client, client.id, old(msg.Value()),
                                                 LastOf(powerups))
      ensures Drawn(old(powerups), old(View()), client, old(msg.Value()), LastOf(powerups))
    {
      hide ParseUpdate, Pop, Decode, View, BoardOk, Tidy, OneClosed, Broadcast, Replaced, FreeSet, RemoveFirst, Free,
        Reportable, Reported, TailIn, LeftBy;
      thrown := false;
      if msg.header.id == POWERUP_EATEN {
        OnPowerupEaten(client, msg);
        EatenLast(powerups, RemoveFirst(old(powerups), old(Pop(msg.body, CellKind).value.0.cell)));
      } else if msg.header.id == UPDATE_PLAYER {
        thrown := OnUpdatePlayer(client, msg);
      } else if msg.header.id == START_GAME {
        OnStartGame(msg);
      }
    }

    static function LastOf(ps: seq<Position>): Position {
      if ps == [] then ORIGIN else ps[|ps| - 1]
    }

    static lemma EatenLast(ps: seq<Position>, left: seq<Position>)
      requires |ps| == |left| + 1 && ps[..|left|] == left
      ensures ps == left + [LastOf(ps)] && ps[|left|] == LastOf(ps)
    {
    }
  }
}
