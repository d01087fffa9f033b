/** What the server's list, players and mail are at any moment, as values, and what its broadcasts
    and handlers make of them. The methods of class `Server` are proved against these functions. */
module Lobbies {
  import opened Common
  import opened Message
  import opened Connection
  import opened Codec
  import opened Protocol
  import opened FreeGrid
  import B = Broadcast
  import Snake

  // ---------------------------------------------------------------- who is there

  /** A member of the connection list: its identifier, whether its socket is open, and whether the
      broadcast ignores it. */
  datatype Info = Info(id: uint32, open: bool, ignored: bool)

  /** At most one member is disconnected: the exact condition under which a broadcast comes back. */
  predicate Settles(infos: seq<Info>) {
    forall i, j :: 0 <= i < j < |infos| ==> infos[i].open || infos[j].open
  }

  /** The list as `Broadcast` sees it. */
  function Listed(infos: seq<Info>): seq<Option<B.Member>> {
    seq(|infos|, i requires 0 <= i < |infos| => Some(B.Member(infos[i].id, infos[i].open)))
  }

  /** Distinct members, of whom the one with identifier `ignore` is ignored. */
  predicate Ignores(infos: seq<Info>, ignore: Option<uint32>) {
    && (forall i, j :: 0 <= i < j < |infos| ==> infos[i].id != infos[j].id)
    && forall i :: 0 <= i < |infos| ==> (infos[i].ignored <==> ignore == Some(infos[i].id))
  }

  /** The handlers' condition is the one under which the mutual recursion ends, and the list and the
      players that the handlers' contracts give are those at its end. */
  lemma BroadcastsAgree(infos: seq<Info>, s: B.State, what: Option<nat>, ignore: Option<uint32>)
    requires Ignores(infos, ignore) && s.list == Listed(infos)
    ensures Settles(infos) <==> exists fuel :: B.MessageAll(fuel, s, what, ignore).Returns?
    ensures Settles(infos) ==>
              var end, lost := B.MessageAll(2, s, what, ignore), LostAt(infos);
              && end.Returns? && end.s.players == s.players - LostIds(infos)
              && end.s.list == if lost < |infos| then s.list[..lost] + s.list[lost + 1..] else s.list
  {
    hide LostAt, B.MessageAll;
    ListedFacts(infos, s);
    B.SettlesIff(s, what, ignore);
    if Settles(infos) {
      var lost := LostAt(infos);
      forall i | B.Closed(s, i)
        ensures lost < |infos| ==> i == lost
        ensures lost >= |infos| ==> B.Eq(s.list[i], ignore)
      {
        assert s.list[i] == Some(B.Member(infos[i].id, infos[i].open));
      }
      if lost < |infos| {
        assert s.list[lost] == Some(B.Member(infos[lost].id, infos[lost].open));
        B.OneLost(2, s, what, ignore, lost);
      } else {
        B.NobodyLost(2, s, what, ignore);
      }
    }
  }

  lemma ListedFacts(infos: seq<Info>, s: B.State)
    requires forall i, j :: 0 <= i < j < |infos| ==> infos[i].id != infos[j].id
    requires s.list == Listed(infos)
    ensures B.Proper(s) && (B.Settles(s) <==> Settles(infos))
  {
    forall i | 0 <= i < |infos|
      ensures B.Closed(s, i) <==> !infos[i].open
    {
    }
  }

  /** The first member that a broadcast finds disconnected; the length of the list stands for nobody. */
  function LostAt(infos: seq<Info>): (n: nat)
    ensures n <= |infos|
    ensures n < |infos| ==> !infos[n].open && !infos[n].ignored
    ensures forall i :: 0 <= i < n ==> infos[i].open || infos[i].ignored
  {
    if infos == [] || (!infos[0].open && !infos[0].ignored) then 0
    else
      var n := LostAt(infos[1..]);
      assert forall i :: 0 < i < n + 1 ==> infos[i] == infos[1..][i - 1];
      n + 1
  }

  /** What member `j` gets from a broadcast of `m` after the loop has passed the first `n` members:
      the message, unless it is ignored, and the announcement of the lost member. */
  function MailUpTo(infos: seq<Info>, j: nat, n: nat, m: Msg): seq<Msg>
    requires j < |infos|
  {
    var lost := LostAt(infos);
    var own := if j < n && !infos[j].ignored then [m] else [];
    if !infos[j].open then []
    else if lost >= |infos| || lost >= n then own
    else if j < lost then own + [RemovePlayerMsg(infos[lost].id)]
    else [RemovePlayerMsg(infos[lost].id)] + own
  }

  /** What passing member `i` adds to the mail of member `j`. */
  function Added(infos: seq<Info>, i: nat, j: nat, m: Msg): seq<Msg>
    requires i < |infos| && j < |infos|
  {
    if infos[i].ignored then []
    else if infos[i].open then (if j == i then [m] else [])
    else if j == i then [] else [RemovePlayerMsg(infos[i].id)]
  }

  lemma MailStep(infos: seq<Info>, i: nat, j: nat, m: Msg)
    requires i < |infos| && j < |infos|
    requires var lost := LostAt(infos);
             if lost < |infos| then forall k :: 0 <= k < |infos| && k != lost ==> infos[k].open
             else infos[i].open || infos[i].ignored
    ensures MailUpTo(infos, j, i + 1, m) == MailUpTo(infos, j, i, m) + Added(infos, i, j, m)
  {
    hide RemovePlayerMsg, LostAt;
  }

  function Mail(infos: seq<Info>, j: nat, m: Msg): seq<Msg>
    requires j < |infos|
  {
    MailUpTo(infos, j, |infos|, m)
  }

  /** A connected member gets at most the message, once, and one announcement, of another member. */
  lemma MailContents(infos: seq<Info>, j: nat, m: Msg)
    requires j < |infos| && infos[j].open
    ensures var own, lost := if infos[j].ignored then [] else [m], LostAt(infos);
            && lost != j
            && Mail(infos, j, m) == if lost >= |infos| then own
                                    else if j < lost then own + [RemovePlayerMsg(infos[lost].id)]
                                    else [RemovePlayerMsg(infos[lost].id)] + own
  {
    hide LostAt, RemovePlayerMsg;
  }

  /** The identifier that a broadcast finds gone, if any. */
  function LostIds(infos: seq<Info>): set<uint32> {
    if LostAt(infos) < |infos| then {infos[LostAt(infos)].id} else {}
  }

  function PlayersLeft(players: map<uint32, PlayerData>, infos: seq<Info>): map<uint32, PlayerData> {
    players - LostIds(infos)
  }

  // ---------------------------------------------------------------- the server's state

  datatype Member = Member(conn: Connection, id: uint32)

  /** The connection list, the players, and all that each connected member was ever sent. The members
      without mail are those whose sockets are closed. */
  datatype Lobby = Lobby(list: seq<Member>, players: map<uint32, PlayerData>, mails: map<Connection, seq<Msg>>)

  /** The members as a broadcast that ignores `ignore` sees them. */
  function SeenBy(l: Lobby, ignore: Connection?): seq<Info> {
    seq(|l.list|, i requires 0 <= i < |l.list| =>
      Info(l.list[i].id, l.list[i].conn in l.mails, l.list[i].conn == ignore))
  }

  /** The players that a broadcast leaves. */
  function LeftBy(l: Lobby, ignore: Connection?): map<uint32, PlayerData> {
    PlayersLeft(l.players, SeenBy(l, ignore))
  }

  /** The place of a connection in the list, or its length. */
  function PlaceOf(list: seq<Member>, c: Connection): (n: nat)
    ensures n <= |list| && (n < |list| ==> list[n].conn == c)
  {
    if list == [] || list[0].conn == c then 0 else 1 + PlaceOf(list[1..], c)
  }

  function MailTo(list: seq<Member>, infos: seq<Info>, c: Connection, m: Msg): seq<Msg> {
    var j := PlaceOf(list, c);
    if j < |infos| then Mail(infos, j, m) else []
  }

  /** What `MessageAllClients(m, ignore)` leaves. */
  ghost function Broadcast(l: Lobby, m: Msg, ignore: Connection?): Lobby {
    var infos := SeenBy(l, ignore);
    Lobby(Without(l.list, LostAt(infos)), LeftBy(l, ignore),
          map c | c in l.mails :: l.mails[c] + MailTo(l.list, infos, c, m))
  }

  /** Connections and identifiers are distinct, and everyone connected is in the list. */
  predicate Tidy(l: Lobby) {
    && (forall i, j :: 0 <= i < j < |l.list| ==> l.list[i].conn != l.list[j].conn && l.list[i].id != l.list[j].id)
    && (forall c :: c in l.mails ==> PlaceOf(l.list, c) < |l.list|)
  }

  /** At most one member is disconnected: what every broadcast of a handler needs, and keeps. */
  predicate OneClosed(l: Lobby) {
    forall i, j :: 0 <= i < j < |l.list| ==> l.list[i].conn in l.mails || l.list[j].conn in l.mails
  }

  predicate AllOpen(l: Lobby) {
    forall i :: 0 <= i < |l.list| ==> l.list[i].conn in l.mails
  }

  /** The identifiers of the members. */
  function Ids(l: Lobby): set<uint32> {
    set i | 0 <= i < |l.list| :: l.list[i].id
  }

  lemma {:induction false} PlaceIs(list: seq<Member>, i: nat)
    requires i < |list| && forall j :: 0 <= j < i ==> list[j].conn != list[i].conn
    ensures PlaceOf(list, list[i].conn) == i
  {
    if i > 0 {
      PlaceIs(list[1..], i - 1);
    }
  }

  lemma PlaceIn(list: seq<Member>, i: nat)
    requires i < |list|
    ensures PlaceOf(list, list[i].conn) < |list|
  {
    if PlaceOf(list, list[i].conn) >= |list| {
      NoPlace(list, list[i].conn, i);
    }
  }

  lemma {:induction false} NoPlace(list: seq<Member>, c: Connection, i: nat)
    requires i < |list| && PlaceOf(list, c) >= |list|
    ensures list[i].conn != c
  {
    if i > 0 {
      NoPlace(list[1..], c, i - 1);
    }
  }

  lemma WithoutAt<T>(s: seq<T>, n: nat, i: nat)
    requires i < |Without(s, n)|
    ensures var j := if i < n then i else i + 1; j < |s| && Without(s, n)[i] == s[j]
  {
  }

  lemma StillAt<T>(s: seq<T>, n: nat, j: nat)
    requires j < |s| && j != n
    ensures var i := if j < n then j else j - 1; i < |Without(s, n)| && Without(s, n)[i] == s[j]
  {
  }

  lemma BroadcastShape(l: Lobby, m: Msg, ignore: Connection?)
    ensures var l', n := Broadcast(l, m, ignore), LostAt(SeenBy(l, ignore));
            && l'.list == Without(l.list, n) && l'.players == LeftBy(l, ignore) && l'.mails.Keys == l.mails.Keys
            && (n < |l.list| ==> l.list[n].conn !in l.mails && l.list[n].conn != ignore)
            && (forall i :: 0 <= i < n ==> l.list[i].conn in l.mails || l.list[i].conn == ignore)
  {
    hide LostAt, Mail;
    var infos := SeenBy(l, ignore);
    forall i | 0 <= i < |l.list|
      ensures infos[i] == Info(l.list[i].id, l.list[i].conn in l.mails, l.list[i].conn == ignore)
    {
    }
  }

  /** A shorter list of the same members. */
  lemma ListKeeps(l: Lobby, n: nat, l': Lobby)
    requires Tidy(l) && OneClosed(l) && (n < |l.list| ==> l.list[n].conn !in l.mails)
    requires l'.list == Without(l.list, n) && l'.mails.Keys == l.mails.Keys
    ensures Tidy(l') && OneClosed(l')
  {
    hide Without;
    forall i | 0 <= i < |l'.list|
      ensures var j := if i < n then i else i + 1; j < |l.list| && l'.list[i] == l.list[j]
    {
      WithoutAt(l.list, n, i);
    }
    forall c | c in l'.mails
      ensures PlaceOf(l'.list, c) < |l'.list|
    {
      var j := PlaceOf(l.list, c);
      StillAt(l.list, n, j);
      PlaceIn(l'.list, if j < n then j else j - 1);
    }
  }

  lemma IdsKeep(l: Lobby, n: nat, l': Lobby)
    requires Tidy(l) && l'.list == Without(l.list, n)
    ensures Ids(l') == Ids(l) - if n < |l.list| then {l.list[n].id} else {}
  {
    hide Without;
    forall i | 0 <= i < |l'.list|
      ensures l'.list[i].id in Ids(l) && (n < |l.list| ==> l'.list[i].id != l.list[n].id)
    {
      WithoutAt(l.list, n, i);
    }
    forall j | 0 <= j < |l.list| && j != n
      ensures l.list[j].id in Ids(l')
    {
      StillAt(l.list, n, j);
      var i := if j < n then j else j - 1;
      assert l'.list[i].id == l.list[j].id;
    }
  }

  lemma BroadcastKeeps(l: Lobby, m: Msg, ignore: Connection?)
    requires Tidy(l) && OneClosed(l)
    ensures var l' := Broadcast(l, m, ignore);
            && Tidy(l') && OneClosed(l') && l'.mails.Keys == l.mails.Keys
            && Ids(l') == Ids(l) - LostIds(SeenBy(l, ignore))
  {
    var n, l' := LostAt(SeenBy(l, ignore)), Broadcast(l, m, ignore);
    BroadcastShape(l, m, ignore);
    hide Broadcast, LostAt, Without;
    ListKeeps(l, n, l');
    IdsKeep(l, n, l');
  }

  /** Unless the ignored client is itself disconnected, nobody disconnected stays. */
  lemma BroadcastOpens(l: Lobby, m: Msg, ignore: Connection?)
    requires OneClosed(l)
    ensures ignore == null || ignore in l.mails ==> AllOpen(Broadcast(l, m, ignore))
    ensures AllOpen(l) ==> Broadcast(l, m, ignore).list == l.list && Broadcast(l, m, ignore).players == l.players
  {
    var n, l' := LostAt(SeenBy(l, ignore)), Broadcast(l, m, ignore);
    BroadcastShape(l, m, ignore);
    hide Broadcast, LostAt;
    if ignore == null || ignore in l.mails {
      forall i | 0 <= i < |l'.list|
        ensures l'.list[i].conn in l'.mails
      {
        WithoutAt(l.list, n, i);
      }
    }
  }

  /** The mail of one connected member after a broadcast. */
  lemma MailAfter(l: Lobby, m: Msg, ignore: Connection?, c: Connection)
    requires Tidy(l) && c in l.mails
    ensures c in Broadcast(l, m, ignore).mails
    ensures var infos, j := SeenBy(l, ignore), PlaceOf(l.list, c);
            && j < |infos| && infos[j] == Info(l.list[j].id, true, c == ignore) && l.list[j].conn == c
            && Broadcast(l, m, ignore).mails[c] == l.mails[c] + Mail(infos, j, m)
  {
    hide LostAt, Mail;
  }

  /** A broadcast while everyone is connected. */
  lemma BroadcastToAll(l: Lobby, m: Msg, ignore: Connection?)
    requires Tidy(l) && AllOpen(l)
    ensures Broadcast(l, m, ignore)
            == l.(mails := map c | c in l.mails :: l.mails[c] + if c == ignore then [] else [m])
  {
    hide LostAt, PlaceOf, Mail, SeenBy, Tidy, Broadcast;
    var l' := Broadcast(l, m, ignore);
    BroadcastShape(l, m, ignore);
    assert LostAt(SeenBy(l, ignore)) >= |l.list|;
    BroadcastOpens(l, m, ignore) by { assert OneClosed(l); }
    forall c | c in l.mails
      ensures l'.mails[c] == l.mails[c] + if c == ignore then [] else [m]
    {
      OpenMailAfter(l, m, ignore, c);
    }
  }

  lemma OpenMailAfter(l: Lobby, m: Msg, ignore: Connection?, c: Connection)
    requires Tidy(l) && c in l.mails && LostAt(SeenBy(l, ignore)) >= |l.list|
    ensures c in Broadcast(l, m, ignore).mails
    ensures Broadcast(l, m, ignore).mails[c] == l.mails[c] + if c == ignore then [] else [m]
  {
    MailAfter(l, m, ignore, c);
    hide LostAt, Tidy, Broadcast;
    MailContents(SeenBy(l, ignore), PlaceOf(l.list, c), m);
  }

  // ---------------------------------------------------------------- powerups and players

  /** Powerups lie in the grid, on distinct cells, and every tail is in the grid. */
  predicate BoardOk(players: map<uint32, PlayerData>, powerups: seq<Position>) {
    AllInGrid(players, powerups) && Distinct(powerups)
  }

  lemma BoardWithNew(players: map<uint32, PlayerData>, powerups: seq<Position>, q: Position, gone: set<uint32>)
    requires BoardOk(players, powerups) && Free(players, powerups, q)
    ensures BoardOk(players - gone, powerups + [q])
  {
  }

  lemma BoardWithout(players: map<uint32, PlayerData>, powerups: seq<Position>, p: Position, gone: set<uint32>)
    requires BoardOk(players, powerups)
    ensures BoardOk(players - gone, RemoveFirst(powerups, p))
    ensures |FreeSet(players, RemoveFirst(powerups, p))| <= |FreeSet(players - gone, RemoveFirst(powerups, p))|
  {
    var left := RemoveFirst(powerups, p);
    RemoveFirstDistinct(powerups, p);
    forall i | 0 <= i < |left|
      ensures InGrid(left[i])
    {
      RemoveFirstElements(powerups, p, left[i]);
    }
    FreeSetGrows(players, players - gone, left);
  }

  /** `players.size() % 2 * players.size() / 2 + 1`, evaluated from the left. */
  function PowerupCount(n: nat): nat {
    ((n % 2) * n) / 2 + 1
  }

  lemma BoardJoins(players: map<uint32, PlayerData>, powerups: seq<Position>, id: uint32, p: PlayerData)
    requires BoardOk(players, powerups) && forall i :: 0 <= i < |p.tail| ==> InGrid(p.tail[i])
    ensures BoardOk(players[id := p], powerups)
  {
  }

  lemma BoardShrinks(players: map<uint32, PlayerData>, powerups: seq<Position>, gone: set<uint32>)
    requires BoardOk(players, powerups)
    ensures BoardOk(players - gone, powerups)
  {
  }

  lemma JoinedBoard(joined: map<uint32, PlayerData>, powerups: seq<Position>, gone: set<uint32>)
    requires BoardOk(joined, powerups) && |FreeSet(joined, powerups)| + |powerups| > |joined| / 2
    ensures BoardOk(joined - gone, powerups)
    ensures |FreeSet(joined - gone, powerups)| + |powerups| >= PowerupCount(|joined - gone|)
  {
    FreeSetGrows(joined, joined - gone, powerups);
    SubsetSize((joined - gone).Keys, joined.Keys);
    assert |(joined - gone).Keys| == |joined - gone| && |joined.Keys| == |joined|;
  }

  /** Player `other` is hit by the head of player `id`: at index 4 or later when it is the same one,
      anywhere when it is another. */
  predicate HitBy(players: map<uint32, PlayerData>, id: uint32, other: uint32)
    requires other in players
  {
    if other == id then Snake.MeetsBody(players[id].tail, 4)
    else id in players && players[id].tail != [] && players[id].tail[0] in players[other].tail
  }

  /** The scan reads the head of `id` for every cell of another player. */
  predicate HeadReadable(players: map<uint32, PlayerData>, id: uint32) {
    || (id in players && players[id].tail != [])
    || forall other :: other in players && other != id ==> players[other].tail == []
  }

  predicate Hit(players: map<uint32, PlayerData>, id: uint32) {
    exists other :: other in players && HitBy(players, id, other)
  }

  /** Exactly when a player is hit: its head is on index 4 or later of its own tail, or anywhere on the tail
      of another player. */
  lemma HitExactly(players: map<uint32, PlayerData>, id: uint32)
    ensures Hit(players, id)
            <==> && id in players && players[id].tail != []
                 && var tail := players[id].tail;
                    || (exists k :: 4 <= k < |tail| && tail[k] == tail[0])
                    || exists other :: other in players && other != id && tail[0] in players[other].tail
  {
    if id in players && Snake.MeetsBody(players[id].tail, 4) {
      assert HitBy(players, id, id);
    }
    if other :| other in players && other != id && HitBy(players, id, other) {
      assert HitBy(players, id, other);
    }
  }

  /** For a snake that has moved by the rules and never reversed, a hit is its head on any other cell of
      its own tail, or on another player. */
  lemma HitIsCollision(t: Snake.Trace, players: map<uint32, PlayerData>, id: uint32)
    requires Snake.TraceOk(t) && Snake.NoReversal(t.moves)
    requires id in players && players[id].tail == t.s.tail
    ensures Hit(players, id)
            <==> && t.s.tail != []
                 && (|| (exists k :: 1 <= k < |t.s.tail| && t.s.tail[k] == t.s.tail[0])
                     || exists other :: other in players && other != id && t.s.tail[0] in players[other].tail)
  {
    hide Snake.TraceOk, Snake.NoReversal, Hit;
    HitExactly(players, id);
    Snake.ScanFromFourIsComplete(t);
    assert Snake.MeetsBody(t.s.tail, 1) <==> exists k :: 1 <= k < |t.s.tail| && t.s.tail[k] == t.s.tail[0];
    assert Snake.MeetsBody(t.s.tail, 4) <==> exists k :: 4 <= k < |t.s.tail| && t.s.tail[k] == t.s.tail[0];
  }

  /** A snake that turned round has its head on index 2, and that is no hit. */
  lemma ReversalIsNoHit(players: map<uint32, PlayerData>, id: uint32)
    requires id in players && |players[id].tail| > 2 && players[id].tail[2] == players[id].tail[0]
    requires forall k :: 3 <= k < |players[id].tail| ==> players[id].tail[k] != players[id].tail[0]
    requires forall other :: other in players && other != id ==> players[id].tail[0] !in players[other].tail
    ensures !Hit(players, id)
  {
    HitExactly(players, id);
  }

  /** Every spawned snake can come to be hit with its head on its fifth cell and no other. */
  lemma FifthCellIsHit(s: Snake.Body, id: uint32, color: uint32) returns (actions: seq<Snake.Action>)
    requires Snake.Spawned(s)
    ensures var tail := Snake.Run(Snake.Start(s), actions).s.tail;
            && |tail| == 5 && (forall k :: 1 <= k < 4 ==> tail[k] != tail[0])
            && Hit(map[id := PlayerData(Up, tail, color)], id)
  {
    actions := Snake.FourIsReached(s);
    var t := Snake.Run(Snake.Start(s), actions);
    var players := map[id := PlayerData(Up, t.s.tail, color)];
    HitExactly(players, id);
    Snake.OddNeverHead(t, 1);
    Snake.OddNeverHead(t, 3);
    Snake.SecondIsHeadIff(t);
  }

  // ---------------------------------------------------------------- what the handlers leave

  /** The announcement of a player, and the snapshot with everything a new client has to know. */
  function PlayerMsg(id: uint32, p: PlayerData): Msg
    requires Countable(p.tail)
  {
    BodyMsg(NEW_PLAYER, PushPlayer([], id, p.color, p.tail))
  }

  function SnapshotMsg(order: seq<uint32>, players: map<uint32, PlayerData>, powerups: seq<Position>, id: uint32): Msg
    requires Sendable(players) && Countable(powerups)
    requires forall i :: 0 <= i < |order| ==> order[i] in players
  {
    BodyMsg(SERVER_VALIDATION, SnapshotBody(order, players, powerups, id))
  }

  /** `m` is the snapshot, for some order in which the map of players iterates. */
  ghost predicate IsSnapshot(m: Msg, players: map<uint32, PlayerData>, powerups: seq<Position>, id: uint32) {
    && Sendable(players) && Countable(powerups)
    && exists order: seq<uint32> ::
         Enumerates(order, players) && (forall i :: 0 <= i < |order| ==> order[i] in players)
         && m == SnapshotMsg(order, players, powerups, id)
  }

  /** An accepted connection is the last member, under its new identifier. */
  function Entered(l: Lobby, c: Connection, id: uint32, mail: seq<Msg>): Lobby {
    l.(list := l.list + [Member(c, id)], mails := l.mails[c := mail])
  }

  lemma {:induction false} PlaceOfMore(list: seq<Member>, m: Member, c: Connection)
    ensures PlaceOf(list, c) < |list| || m.conn == c ==> PlaceOf(list + [m], c) <= |list|
  {
    if list != [] && list[0].conn != c {
      PlaceOfMore(list[1..], m, c);
      assert (list + [m])[1..] == list[1..] + [m];
    }
  }

  lemma IdsMore(l: Lobby, c: Connection, id: uint32, mail: seq<Msg>)
    ensures Ids(Entered(l, c, id, mail)) == Ids(l) + {id}
  {
    var l' := Entered(l, c, id, mail);
    assert l'.list[|l.list|] == Member(c, id);
    forall i | 0 <= i < |l.list|
      ensures l'.list[i] == l.list[i] && l.list[i].id in Ids(l')
    {
    }
  }

  lemma EnteredTidy(l: Lobby, c: Connection, id: uint32, mail: seq<Msg>)
    requires Tidy(l)
    requires forall i :: 0 <= i < |l.list| ==> l.list[i].conn != c && l.list[i].id != id
    ensures Tidy(Entered(l, c, id, mail))
    ensures OneClosed(l) ==> OneClosed(Entered(l, c, id, mail))
  {
    var l' := Entered(l, c, id, mail);
    forall d | d in l'.mails
      ensures PlaceOf(l'.list, d) < |l'.list|
    {
      PlaceOfMore(l.list, Member(c, id), d);
    }
    hide PlaceOf;
  }

  lemma MailGoneTidy(l: Lobby, c: Connection)
    requires Tidy(l)
    ensures Tidy(l.(mails := l.mails - {c})) && Ids(l.(mails := l.mails - {c})) == Ids(l)
  {
    hide PlaceOf;
  }

  /** No broadcast finds a connected member gone. */
  lemma OpenIsKept(l: Lobby, j: nat, ignore: Connection?)
    requires Tidy(l) && j < |l.list| && l.list[j].conn in l.mails
    ensures l.list[j].id !in LostIds(SeenBy(l, ignore))
  {
    hide LostAt;
    var infos := SeenBy(l, ignore);
    if LostAt(infos) < |infos| {
      assert infos[LostAt(infos)].id == l.list[LostAt(infos)].id;
    }
  }

  /** What other players there are, or what is in the mail, does not matter for the list. */
  lemma SameList(l: Lobby, l': Lobby)
    requires l.list == l'.list && l.mails.Keys == l'.mails.Keys
    ensures Tidy(l) <==> Tidy(l')
    ensures OneClosed(l) <==> OneClosed(l')
    ensures forall ignore: Connection? :: SeenBy(l, ignore) == SeenBy(l', ignore)
  {
    hide PlaceOf;
  }

  /** The player of a client that has just been validated. */
  function NewPlayer(spawn: Position, color: uint32): PlayerData {
    PlayerData(Up, [spawn], color)
  }

  /** `n` powerups are filled up to what `players` players call for. */
  predicate Filled(players: nat, n: nat, n': nat) {
    n' == if n < PowerupCount(players) then PowerupCount(players) else n
  }

  /** The list is filled up to one powerup for an even number of players, and to k + 1 for 2k + 1. */
  lemma FilledIs(players: nat, n: nat, n': nat)
    requires Filled(players, n, n')
    ensures players % 2 == 0 ==> n' == if n < 1 then 1 else n
    ensures players % 2 == 1 ==> n' == if n < players / 2 + 1 then players / 2 + 1 else n
  {
  }

  /** `Send` to one connected client. */
  function SentOne(l: Lobby, c: Connection, m: Msg): Lobby
    requires c in l.mails
  {
    l.(mails := l.mails[c := l.mails[c] + [m]])
  }

  /** A powerup on each of `qs` is announced to everyone. */
  ghost function Announced(l: Lobby, qs: seq<Position>): Lobby {
    if qs == [] then l
    else Broadcast(Announced(l, qs[..|qs| - 1]), CellMsg(NEW_POWERUP, qs[|qs| - 1]), null)
  }

  lemma AnnouncedNone(l: Lobby)
    ensures Announced(l, []) == l
  {
  }

  lemma AnnouncedLast(l: Lobby, front: seq<Position>, q: Position)
    ensures Announced(l, front + [q]) == Broadcast(Announced(l, front), CellMsg(NEW_POWERUP, q), null)
  {
    hide Broadcast, CellMsg;
    assert (front + [q])[..|front|] == front;
  }

  /** A client has joined: its player is entered, the snapshot goes to it, the announcement to the
      others, and the new powerups to everyone. */
  ghost function Welcomed(l: Lobby, c: Connection, id: uint32, p: PlayerData, snapshot: Msg, added: seq<Position>)
    : Lobby
    requires c in l.mails && Countable(p.tail)
  {
    Announced(Introduced(l, c, id, p, snapshot), added)
  }

  ghost function Introduced(l: Lobby, c: Connection, id: uint32, p: PlayerData, snapshot: Msg): Lobby
    requires c in l.mails && Countable(p.tail)
  {
    Broadcast(SentOne(l.(players := l.players[id := p]), c, snapshot), PlayerMsg(id, p), c)
  }

  /** A powerup was eaten on `p` by `eater`, and there is a new one on `q`. */
  ghost function Replaced(l: Lobby, eater: Connection?, p: Position, q: Position): Lobby {
    Broadcast(Broadcast(l, CellMsg(POWERUP_EATEN, p), eater), CellMsg(NEW_POWERUP, q), null)
  }

  /** The players with the report of player `id` in place. */
  function Stored(players: map<uint32, PlayerData>, id: uint32, body: seq<byte>): map<uint32, PlayerData>
    requires id in players && ParseUpdate(body).Some?
  {
    var u := ParseUpdate(body).value;
    players[id := PlayerData(u.direction, u.tail, players[id].color)]
  }

  /** What the program can do with a report: read the identifier, and, when the sender still has a
      player, the rest, and then look for collisions of the player that the report names. */
  predicate Reportable(l: Lobby, client: Connection, id: uint32, body: seq<byte>) {
    && Pop(body, IntKind).Some?
    && (id in LeftBy(l, client) ==>
          && ParseUpdate(body).Some?
          && HeadReadable(Stored(LeftBy(l, client), id, body), AsUint32(ParseUpdate(body).value.id)))
  }

  /** After a report `m` of player `id`. The others have it as it came. When the sender has no player
      any more an exception ends the handler there. Otherwise its tail and direction are stored, and a
      kill of the player that the report names goes to everyone if that player's head hits something. */
  ghost function Reported(l: Lobby, client: Connection, id: uint32, m: Msg): Lobby
    requires Reportable(l, client, id, m.body)
  {
    var told := Broadcast(l, m, client);
    if id !in LeftBy(l, client) then told
    else
      var named, stored := ParseUpdate(m.body).value.id, told.(players := Stored(told.players, id, m.body));
      if Hit(stored.players, AsUint32(named)) then Broadcast(stored, IntMsg(KILL_PLAYER, named), null) else stored
  }

  /** The messages that make the server tell the clients something. */
  predicate Broadcasts(m: Msg) {
    m.header.id == POWERUP_EATEN || m.header.id == UPDATE_PLAYER || m.header.id == START_GAME
  }

  /** After an eat, the powerup on the eaten cell and the players found gone leave `q` free. */
  predicate Drawn(powerups: seq<Position>, l: Lobby, client: Connection, m: Msg, q: Position) {
    m.header.id == POWERUP_EATEN && Pop(m.body, CellKind).Some? ==>
      Free(LeftBy(l, client), RemoveFirst(powerups, Pop(m.body, CellKind).value.0.cell), q)
  }

  /** What a handler asks of the message it is given. */
  predicate Answerable(l: Lobby, client: Connection, id: uint32, m: Msg) {
    && (m.header.id == POWERUP_EATEN ==> Pop(m.body, CellKind).Some?)
    && (m.header.id == UPDATE_PLAYER ==> Reportable(l, client, id, m.body))
  }

  /** The powerups and the rest after `OnMessage`, for the message `m` of a client with identifier `id`.
      After an eat a powerup is put on `q`. A message of a type that the server does not know changes
      nothing. */
  ghost function AfterMessage(powerups: seq<Position>, l: Lobby, client: Connection, id: uint32, m: Msg, q: Position)
    : (seq<Position>, Lobby)
    requires Answerable(l, client, id, m)
  {
    if m.header.id == POWERUP_EATEN then
      var p := Pop(m.body, CellKind).value.0.cell;
      (RemoveFirst(powerups, p) + [q], Replaced(l, client, p, q))
    else if m.header.id == UPDATE_PLAYER then (powerups, Reported(l, client, id, m))
    else if m.header.id == START_GAME then (powerups, Broadcast(l, m, null))
    else (powerups, l)
  }

  // ---------------------------------------------------------------- while everyone is connected

  lemma StoredIs(players: map<uint32, PlayerData>, id: uint32, body: seq<byte>)
    requires id in players && ParseUpdate(body).Some?
    ensures var u := ParseUpdate(body).value;
            Stored(players, id, body) == players[id := PlayerData(u.direction, u.tail, players[id].color)]
  {
  }

  /** A report while every member is connected: the sender's player gets the reported tail and direction
      and keeps its colour, and no other player changes. Everyone but the sender gets the report as it
      came, and then everyone gets a kill, if the head of the player that it names is on something. */
  lemma ReportWhileOpen(powerups: seq<Position>, l: Lobby, client: Connection, id: uint32, m: Msg, q: Position)
    requires Tidy(l) && AllOpen(l) && id in l.players && m.header.id == UPDATE_PLAYER && Answerable(l, client, id, m)
    ensures ParseUpdate(m.body).Some?
    ensures var u, after := ParseUpdate(m.body).value, AfterMessage(powerups, l, client, id, m, q);
            && after.0 == powerups && after.1.list == l.list && after.1.mails.Keys == l.mails.Keys
            && after.1.players == l.players[id := PlayerData(u.direction, u.tail, l.players[id].color)]
            && forall c :: c in l.mails ==>
                 after.1.mails[c]
                 == l.mails[c] + (if c == client then [] else [m])
                    + if Hit(after.1.players, AsUint32(u.id)) then [IntMsg(KILL_PLAYER, u.id)] else []
  {
    hide Tidy, AllOpen, Broadcast, Stored, Hit, ParseUpdate, HeadReadable, IntMsg, Pop;
    BroadcastToAll(l, m, client);
    LeftWhileOpen(l, m, client);
    var u, told := ParseUpdate(m.body).value, Broadcast(l, m, client);
    StoredIs(l.players, id, m.body);
    var stored := told.(players := Stored(told.players, id, m.body));
    StillOpen(l, stored);
    BroadcastToAll(stored, IntMsg(KILL_PLAYER, u.id), null);
    assert Reported(l, client, id, m) == if Hit(stored.players, AsUint32(u.id))
                                         then Broadcast(stored, IntMsg(KILL_PLAYER, u.id), null) else stored;
  }

  lemma LeftWhileOpen(l: Lobby, m: Msg, ignore: Connection?)
    requires AllOpen(l)
    ensures LeftBy(l, ignore) == l.players
  {
    BroadcastShape(l, m, ignore);
    BroadcastOpens(l, m, ignore) by { assert OneClosed(l); }
    hide AllOpen, Broadcast, LeftBy;
  }

  lemma StillOpen(l: Lobby, l': Lobby)
    requires Tidy(l) && AllOpen(l) && l'.list == l.list && l'.mails.Keys == l.mails.Keys
    ensures Tidy(l') && AllOpen(l')
  {
    SameList(l, l');
    hide Tidy;
  }

  /** An eat while every member is connected: everyone but the eater is told of it, then everyone of the
      new powerup, which is at the end of the list. */
  lemma EatWhileOpen(powerups: seq<Position>, l: Lobby, client: Connection, id: uint32, m: Msg, q: Position)
    requires Tidy(l) && AllOpen(l) && m.header.id == POWERUP_EATEN && Answerable(l, client, id, m)
    ensures var p, after := Pop(m.body, CellKind).value.0.cell, AfterMessage(powerups, l, client, id, m, q);
            && after.0 == RemoveFirst(powerups, p) + [q]
            && after.1.list == l.list && after.1.players == l.players && after.1.mails.Keys == l.mails.Keys
            && forall c :: c in l.mails ==>
                 after.1.mails[c]
                 == l.mails[c] + (if c == client then [] else [CellMsg(POWERUP_EATEN, p)]) + [CellMsg(NEW_POWERUP, q)]
  {
    hide Tidy, AllOpen, Broadcast, CellMsg, RemoveFirst;
    var p := Pop(m.body, CellKind).value.0.cell;
    BroadcastToAll(l, CellMsg(POWERUP_EATEN, p), client);
    var told := Broadcast(l, CellMsg(POWERUP_EATEN, p), client);
    StillOpen(l, told);
    BroadcastToAll(told, CellMsg(NEW_POWERUP, q), null);
  }

  /** A start request while every member is connected: everyone gets it as it came, its sender too. */
  lemma StartWhileOpen(powerups: seq<Position>, l: Lobby, client: Connection, id: uint32, m: Msg, q: Position)
    requires Tidy(l) && AllOpen(l) && m.header.id == START_GAME
    ensures var after := AfterMessage(powerups, l, client, id, m, q);
            && after.0 == powerups && after.1.list == l.list && after.1.players == l.players
            && after.1.mails.Keys == l.mails.Keys
            && forall c :: c in l.mails ==> after.1.mails[c] == l.mails[c] + [m]
  {
    hide Tidy, AllOpen, Broadcast;
    BroadcastToAll(l, m, null);
  }

  function Notices(qs: seq<Position>): seq<Msg> {
    seq(|qs|, i requires 0 <= i < |qs| => CellMsg(NEW_POWERUP, qs[i]))
  }

  lemma {:induction false} NoticesArrive(l: Lobby, qs: seq<Position>)
    requires Tidy(l) && AllOpen(l)
    ensures Announced(l, qs) == l.(mails := map c | c in l.mails :: l.mails[c] + Notices(qs))
    decreases |qs|
  {
    hide Tidy, AllOpen, Broadcast, CellMsg;
    if qs == [] {
      assert forall c :: c in l.mails ==> l.mails[c] + Notices(qs) == l.mails[c];
    } else {
      var front, q := qs[..|qs| - 1], qs[|qs| - 1];
      NoticesArrive(l, front);
      var told := Announced(l, front);
      StillOpen(l, told);
      BroadcastToAll(told, CellMsg(NEW_POWERUP, q), null);
      assert Notices(qs) == Notices(front) + [CellMsg(NEW_POWERUP, q)];
      forall c | c in l.mails
        ensures told.mails[c] + [CellMsg(NEW_POWERUP, q)] == l.mails[c] + Notices(qs)
      {
        Assoc(l.mails[c], Notices(front), [CellMsg(NEW_POWERUP, q)]);
      }
    }
  }

  /** A client joins while every member is connected: its player is entered; it gets the snapshot, and
      everyone else the announcement; then everyone is told of each new powerup, in order. */
  lemma JoinWhileOpen(l: Lobby, c: Connection, id: uint32, p: PlayerData, snapshot: Msg, added: seq<Position>)
    requires Tidy(l) && AllOpen(l) && c in l.mails && Countable(p.tail)
    ensures var l' := Welcomed(l, c, id, p, snapshot, added);
            && l'.list == l.list && l'.players == l.players[id := p] && l'.mails.Keys == l.mails.Keys
            && forall d :: d in l.mails ==>
                 l'.mails[d] == l.mails[d] + [if d == c then snapshot else PlayerMsg(id, p)] + Notices(added)
  {
    hide Tidy, AllOpen, Broadcast, PlayerMsg, Announced, Notices;
    var sent := SentOne(l.(players := l.players[id := p]), c, snapshot);
    StillOpen(l, sent);
    BroadcastToAll(sent, PlayerMsg(id, p), c);
    var told := Introduced(l, c, id, p, snapshot);
    assert l.mails[c] + [snapshot] + [] == l.mails[c] + [snapshot];
    StillOpen(l, told);
    NoticesArrive(told, added);
  }
}
