/** What a start request does when its sender has reported before: the server sends it on with the report
    as its body, the clients read that body as frames, and one of them is a powerup. */
module StaleStart {
  import opened Common
  import opened Message
  import opened Connection
  import opened Codec
  import opened Protocol
  import opened FreeGrid
  import opened Lobbies
  import opened Game
  import opened Relays
  import opened Mailboxes
  import P = PowerupSync
  import Presence
  import R = Replica
  import T = Transport
  import E = EndpointRuns
  import Client

  // ---------------------------------------------------------------- the bytes

  const FIRST: uint32 := 10000
  const SECOND: uint32 := 10001

  /** A report whose first cell reads as the header of a message about a new powerup, and whose second
      cell reads as its body. */
  function Report(p: Position): Msg {
    Client.UpdateMsg([Position(5, 8), p], Up, SECOND)
  }

  /** The request as the server gets it after that report, and sends it on. */
  function Stale(p: Position): Msg {
    Msg(Header(START_GAME, 0), Report(p).body)
  }

  lemma {:induction false} Zeros(w: nat)
    ensures ToBytes(0, w) == seq(w, _ => 0)
  {
    if w > 0 {
      Zeros(w - 1);
    }
  }

  /** The length of the tail reads as the header of a message without a body. */
  lemma LengthAsHeader()
    ensures Encode(Size(2)) == HeaderBytes(Header(REMOVE_PLAYER, 0))
  {
    Zeros(7);
    Zeros(3);
    Zeros(4);
    assert ToBytes(2, 8) == [2] + ToBytes(0, 7);
    assert ToBytes(2, 4) == [2] + ToBytes(0, 3);
  }

  lemma CellMsgIs(typ: uint32, p: Position)
    ensures CellMsg(typ, p) == Msg(Header(typ, 8), Encode(Cell(p)))
  {
    assert |Encode(Cell(p))| == 8;
    hide Encode;
  }

  /** Scalars of four bytes side by side read as a header. */
  lemma AsHeaders(p: Position)
    ensures Encode(Cell(Position(5, 8))) == HeaderBytes(Header(NEW_POWERUP, 8))
    ensures Encode(Word(0)) + Encode(Int(SECOND)) == HeaderBytes(Header(0, SECOND))
  {
    hide ToBytes;
  }

  lemma TwoCells(a: Position, b: Position)
    ensures CellBytes([a, b]) == Encode(Cell(a)) + Encode(Cell(b))
  {
    hide Encode;
    assert [a, b][1..] == [b] && [b][1..] == [];
    assert CellBytes([b]) == Encode(Cell(b)) + [] == Encode(Cell(b));
  }

  lemma UpdateBytes(a: Position, b: Position, id: int32)
    ensures UpdateBody([a, b], Up, id)
            == Encode(Cell(a)) + Encode(Cell(b)) + Encode(Size(2)) + Encode(Word(0)) + Encode(Int(id))
  {
    hide Encode, CellBytes, UpdateBody;
    UpdateLayout([a, b], Up, id);
    TwoCells(a, b);
  }

  lemma ReportBody(p: Position)
    ensures Report(p).body == HeaderBytes(Header(NEW_POWERUP, 8)) + Encode(Cell(p))
                              + (HeaderBytes(Header(REMOVE_PLAYER, 0)) + HeaderBytes(Header(0, SECOND)))
    ensures Report(p).header == Header(UPDATE_PLAYER, 32)
  {
    hide Encode, HeaderBytes, UpdateBody;
    UpdateBytes(Position(5, 8), p, SECOND);
    AsHeaders(p);
    LengthAsHeader();
    assert |Report(p).body| == 32;
  }

  /** What a reader makes of the report's bytes behind the request's header. */
  function Frames(p: Position): seq<Msg> {
    [Empty(START_GAME), CellMsg(NEW_POWERUP, p), Msg(Header(REMOVE_PLAYER, 0), [])]
  }

  /** The last bytes announce a body that does not come. */
  lemma Unfinished()
    ensures T.ReadFrames(HeaderBytes(Header(0, SECOND))).0 == []
  {
    hide HeaderBytes, ParseHeader;
    ParseHeaderBytes(Header(0, SECOND));
    var last := HeaderBytes(Header(0, SECOND));
    assert last[..HEADER_SIZE] == last;
  }

  lemma BodyFrames(p: Position)
    ensures T.ReadFrames(Report(p).body).0 == [CellMsg(NEW_POWERUP, p), Msg(Header(REMOVE_PLAYER, 0), [])]
  {
    hide T.ReadFrames, HeaderBytes, Encode, CellMsg, Report;
    ReportBody(p);
    CellMsgIs(NEW_POWERUP, p);
    Unfinished();
    var last := HeaderBytes(Header(0, SECOND));
    T.ReadFirst(Header(REMOVE_PLAYER, 0), [], last);
    assert HeaderBytes(Header(REMOVE_PLAYER, 0)) + [] + last == HeaderBytes(Header(REMOVE_PLAYER, 0)) + last;
    T.ReadFirst(Header(NEW_POWERUP, 8), Encode(Cell(p)), HeaderBytes(Header(REMOVE_PLAYER, 0)) + last);
  }

  lemma StaleFrames(p: Position)
    ensures T.ReadFrames(WireOf(Stale(p))).0 == Frames(p)
  {
    hide T.ReadFrames, HeaderBytes, CellMsg, Report;
    BodyFrames(p);
    T.ReadAfterStale(Stale(p), []);
    assert WireOf(Stale(p)) + [] == WireOf(Stale(p)) && Stale(p).body + [] == Stale(p).body;
  }

  lemma MailFrames(mail: seq<Msg>, p: Position)
    requires T.AllConsistent(mail)
    ensures T.ReadFrames(Wire(mail + [Stale(p)])).0 == mail + Frames(p)
  {
    hide T.ReadFrames, Wire, WireOf, T.AllConsistent, Stale, Frames;
    T.WireSnoc(mail, Stale(p));
    T.ReadWire(mail, WireOf(Stale(p)));
    StaleFrames(p);
  }

  /** The messages with bodies come as they are; the frame without a body behind the powerup comes with
      the powerup's. */
  lemma FramesArrive(frames: seq<Msg>, n: nat, p: Position)
    requires |frames| == n + 3 && frames[n + 1] == CellMsg(NEW_POWERUP, p)
    requires frames[n + 2] == Msg(Header(REMOVE_PLAYER, 0), [])
    requires forall k :: 0 <= k < n ==> frames[k].header.bodySize > 0
    ensures E.Redelivered(frames)[..n] == frames[..n] && E.Redelivered(frames)[n + 1] == frames[n + 1]
    ensures E.Redelivered(frames)[n].header == frames[n].header
    ensures E.Redelivered(frames)[n + 2] == Msg(Header(REMOVE_PLAYER, 0), Encode(Cell(p)))
  {
    CellMsgIs(NEW_POWERUP, p);
    hide E.Redelivered, Encode, CellMsg;
    forall k | 0 <= k < n
      ensures E.Redelivered(frames)[k] == frames[k]
    {
      E.RedeliveredAt(frames, k);
    }
    E.RedeliveredAt(frames, n);
    E.RedeliveredAt(frames, n + 1);
    E.RedeliveredAt(frames, n + 2);
    var before := frames[..n + 2];
    assert before[|before| - 1] == frames[n + 1];
  }

  /** What arrives of mail that ends with the relayed request: the mail, a request, a powerup, and the
      removal of a player. */
  lemma StaleArrives(mail: seq<Msg>, p: Position)
    requires T.AllConsistent(mail) && forall k :: 0 <= k < |mail| ==> mail[k].header.bodySize > 0
    ensures var came := T.Arrived(mail + [Stale(p)]);
            && |came| == |mail| + 3 && came[..|mail|] == mail
            && came[|mail|].header == Header(START_GAME, 0) && came[|mail| + 1] == CellMsg(NEW_POWERUP, p)
            && came[|mail| + 2] == Msg(Header(REMOVE_PLAYER, 0), Encode(Cell(p)))
    ensures !ReadsBack(mail + [Stale(p)])
  {
    hide T.ReadFrames, Wire, E.Redelivered, Encode, T.AllConsistent, Report, CellMsg;
    MailFrames(mail, p);
    var frames := mail + Frames(p);
    FramesArrive(frames, |mail|, p);
    assert frames[..|mail|] == mail;
    assert |mail + [Stale(p)]| != |frames|;
  }

  // ---------------------------------------------------------------- the run

  const PLAYER_1 := NewPlayer(Position(30, 20), 0)
  const PLAYER_2 := NewPlayer(Position(20, 20), 0)

  function Players1(): map<uint32, PlayerData> {
    map[FIRST := PLAYER_1]
  }

  function Players2(): map<uint32, PlayerData> {
    map[FIRST := PLAYER_1, SECOND := PLAYER_2]
  }

  function Snapshot1(): Msg {
    SnapshotMsg([FIRST], Players1(), [], FIRST)
  }

  function Snapshot2(x: Position): Msg {
    SnapshotMsg([FIRST, SECOND], Players2(), [x], SECOND)
  }

  function Mail1(x: Position): seq<Msg> {
    [Snapshot1(), CellMsg(NEW_POWERUP, x)]
  }

  /** The first client `b` and the second one `a` join; a powerup lies on `x`; the second client hears its
      snapshot, reports, and asks for the game to start. */
  function Steps(a: Connection, b: Connection, x: Position, p: Position): seq<Step> {
    [Accepts(b), Validates(b, Position(30, 20), 0, Snapshot1(), [x]),
     Accepts(a), Validates(a, Position(20, 20), 0, Snapshot2(x), []),
     Hears(a), Sends(a, Report(p)), Sends(a, Empty(START_GAME)), Handles(a, ORIGIN), Handles(a, ORIGIN)]
  }

  const NEW_SITE := Site(FIRST, false, 0, 0, NEW_CLIENT, [], 0)
  const SITE_1 := Site(FIRST, true, 0, 0, NEW_CLIENT, [], 0)

  /** The second client with its snapshot behind it, after it has sent `up`. */
  function Site2(x: Position, up: seq<Msg>, taken: nat): Site {
    Site(SECOND, true, 1, 1, Told2(x), up, taken)
  }

  function Told2(x: Position): Client.State {
    Client.State(SECOND, [ORIGIN, x],
      Copies({FIRST, SECOND}, Players2()), false)
  }

  function Both(a: Connection, b: Connection): seq<Member> {
    [Member(b, FIRST), Member(a, SECOND)]
  }

  ghost function Game1(b: Connection): Game {
    Game([], Lobby([Member(b, FIRST)], map[], map[b := []]), SECOND, map[b := NEW_SITE], [])
  }

  ghost function Game2(b: Connection, x: Position): Game {
    Game([x], Lobby([Member(b, FIRST)], Players1(), map[b := Mail1(x)]), SECOND, map[b := SITE_1], [])
  }

  ghost function Game3(a: Connection, b: Connection, x: Position): Game {
    Game([x], Lobby(Both(a, b), Players1(), map[b := Mail1(x), a := []]), SECOND + 1,
         map[b := SITE_1, a := Site(SECOND, false, 0, 0, NEW_CLIENT, [], 0)], [])
  }

  ghost function Mails4(a: Connection, b: Connection, x: Position): map<Connection, seq<Msg>> {
    map[b := Mail1(x) + [PlayerMsg(SECOND, PLAYER_2)], a := [Snapshot2(x)]]
  }

  ghost function Game4(a: Connection, b: Connection, x: Position, site: Site): Game {
    Game([x], Lobby(Both(a, b), Players2(), Mails4(a, b, x)), SECOND + 1,
         map[b := SITE_1, a := site], [])
  }

  function Reported2(p: Position): PlayerData {
    PlayerData(Up, [Position(5, 8), p], 0)
  }

  /** The first client's mail before the request is sent on. */
  function MailThen(x: Position, p: Position): seq<Msg> {
    [Snapshot1(), CellMsg(NEW_POWERUP, x), PlayerMsg(SECOND, PLAYER_2), Report(p)]
  }

  ghost function Game5(a: Connection, b: Connection, x: Position, p: Position): Game {
    Game([x], Lobby(Both(a, b), map[FIRST := PLAYER_1, SECOND := Reported2(p)],
                    map[b := MailThen(x, p), a := [Snapshot2(x)]]), SECOND + 1,
         map[b := SITE_1, a := Site2(x, [Report(p), Empty(START_GAME)], 1)], [])
  }

  ghost function Game6(a: Connection, b: Connection, x: Position, p: Position): Game {
    Game([x], Lobby(Both(a, b), map[FIRST := PLAYER_1, SECOND := Reported2(p)],
                    map[b := MailThen(x, p) + [Stale(p)], a := [Snapshot2(x), Stale(p)]]), SECOND + 1,
         map[b := SITE_1, a := Site2(x, [Report(p), Empty(START_GAME)], 2)], [])
  }

  ghost predicate Leads(g: Game, s: Step, g': Game) {
    Enabled(g, s) && Next(g, s) == g' && P.Fair(g, s) && Presence.Honest(g, s)
  }

  ghost predicate RunsTo(g: Game, steps: seq<Step>, g': Game) {
    Possible(g, steps) && After(g, steps) == g' && P.FairRun(g, steps) && Presence.HonestRun(g, steps)
  }

  lemma Ends(g: Game)
    ensures RunsTo(g, [], g)
  {
  }

  lemma LeadsOn(g: Game, s: Step, g1: Game, rest: seq<Step>, g2: Game)
    requires Leads(g, s, g1) && RunsTo(g1, rest, g2)
    ensures RunsTo(g, [s] + rest, g2)
  {
    hide Enabled, Next, P.Fair, Presence.Honest;
    assert ([s] + rest)[1..] == rest;
  }

  lemma AcceptLeads(g: Game, c: Connection)
    requires c !in g.sites && g.queue == [] && g.nextId < 0xFFFF_FFFF
    requires forall i :: 0 <= i < |g.lobby.list| ==> g.lobby.list[i].conn != c
    ensures Leads(g, Accepts(c), g.(lobby := Entered(g.lobby, c, g.nextId, []), nextId := g.nextId + 1,
                                    sites := g.sites[c := Site(g.nextId, false, 0, 0, NEW_CLIENT, [], 0)]))
  {
  }

  lemma Snapshots(x: Position)
    ensures IsSnapshot(Snapshot1(), Players1(), [], FIRST)
    ensures IsSnapshot(Snapshot2(x), Players2(), [x], SECOND)
  {
    hide BodyMsg, SnapshotBody;
    var one, two := [FIRST], [FIRST, SECOND];
    assert Elements(one) == {FIRST} == Players1().Keys;
    assert Elements(two) == {FIRST, SECOND} == Players2().Keys;
    assert Enumerates(one, Players1()) && Enumerates(two, Players2());
  }

  lemma OneOpen(b: Connection, players: map<uint32, PlayerData>, mail: seq<Msg>)
    ensures var l := Lobby([Member(b, FIRST)], players, map[b := mail]); Tidy(l) && AllOpen(l) && OneClosed(l)
  {
  }

  lemma BothOpen(a: Connection, b: Connection, l: Lobby)
    requires a != b && l.list == Both(a, b) && l.mails.Keys == {a, b}
    ensures Tidy(l) && AllOpen(l) && OneClosed(l)
    ensures forall ignore: Connection? :: LeftBy(l, ignore) == l.players
  {
    assert PlaceOf(l.list, b) == 0;
    assert PlaceOf(l.list[1..], a) == 0;
    assert PlaceOf(l.list, a) == 1;
    hide PlaceOf;
    forall ignore: Connection?
      ensures LeftBy(l, ignore) == l.players
    {
      BroadcastOpens(l, EMPTY_MESSAGE, ignore);
      BroadcastShape(l, EMPTY_MESSAGE, ignore);
    }
  }

  lemma AnnouncedOne(l: Lobby, x: Position)
    ensures Announced(l, [x]) == Broadcast(l, CellMsg(NEW_POWERUP, x), null)
  {
    hide Broadcast, CellMsg;
    assert [x][..0] == [];
    assert Announced(l, [x][..0]) == l;
  }

  /** The lobby after the first client has joined. */
  lemma FirstWelcomed(b: Connection, x: Position)
    ensures var l := Lobby([Member(b, FIRST)], map[], map[b := []]);
            && Introduced(l, b, FIRST, PLAYER_1, Snapshot1())
               == Lobby([Member(b, FIRST)], Players1(), map[b := [Snapshot1()]])
            && Welcomed(l, b, FIRST, PLAYER_1, Snapshot1(), [x])
               == Lobby([Member(b, FIRST)], Players1(), map[b := Mail1(x)])
  {
    hide SnapshotMsg, PlayerMsg, CellMsg, Tidy, AllOpen, OneClosed, Broadcast;
    var l1 := Lobby([Member(b, FIRST)], Players1(), map[b := [Snapshot1()]]);
    var l := Lobby([Member(b, FIRST)], map[], map[b := []]);
    OneOpen(b, Players1(), [Snapshot1()]);
    BroadcastToAll(l1, PlayerMsg(FIRST, PLAYER_1), b);
    BroadcastToAll(l1, CellMsg(NEW_POWERUP, x), null);
    AnnouncedOne(l1, x);
    assert l.players[FIRST := PLAYER_1] == Players1();
    assert [] + [Snapshot1()] == [Snapshot1()] && [Snapshot1()] + [] == [Snapshot1()];
    assert l.mails[b := [Snapshot1()]] == l1.mails;
    assert SentOne(l.(players := l.players[FIRST := PLAYER_1]), b, Snapshot1()) == l1;
    assert Broadcast(l1, PlayerMsg(FIRST, PLAYER_1), b).mails == l1.mails;
    assert [Snapshot1()] + [CellMsg(NEW_POWERUP, x)] == Mail1(x);
    assert Broadcast(l1, CellMsg(NEW_POWERUP, x), null).mails == map[b := Mail1(x)];
  }

  lemma OneDrawn(players: map<uint32, PlayerData>, x: Position)
    requires Free(players, [], x)
    ensures AllDrawn(players, [], [x])
  {
    assert [] + [x][..0] == [];
  }

  lemma FirstJoins(b: Connection, x: Position)
    requires InGrid(x) && x != Position(30, 20)
    ensures Leads(Game1(b), Validates(b, Position(30, 20), 0, Snapshot1(), [x]), Game2(b, x))
  {
    hide SnapshotMsg, Introduced, Welcomed, IsSnapshot, Tidy, AllDrawn, Broadcast;
    FirstWelcomed(b, x);
    Snapshots(x);
    OneDrawn(Players1(), x);
    assert |Players1()| == 1;
    OneOpen(b, map[], []);
    assert map[][FIRST := PLAYER_1] == Players1();
  }

  /** The lobby after the second client has joined. */
  lemma SecondWelcomed(a: Connection, b: Connection, x: Position)
    requires a != b
    ensures var l := Game3(a, b, x).lobby;
            && a in l.mails
            && Introduced(l, a, SECOND, PLAYER_2, Snapshot2(x)) == Lobby(Both(a, b), Players2(), Mails4(a, b, x))
            && Welcomed(l, a, SECOND, PLAYER_2, Snapshot2(x), []) == Introduced(l, a, SECOND, PLAYER_2, Snapshot2(x))
  {
    hide SnapshotMsg, PlayerMsg, CellMsg, Tidy, AllOpen, OneClosed, Broadcast, Snapshot2, Mail1;
    var l := Game3(a, b, x).lobby;
    var l1 := Lobby(Both(a, b), Players2(), map[b := Mail1(x), a := [Snapshot2(x)]]);
    assert l.players[SECOND := PLAYER_2] == Players2();
    assert [] + [Snapshot2(x)] == [Snapshot2(x)];
    assert l.mails[a := [Snapshot2(x)]] == l1.mails;
    assert SentOne(l.(players := l.players[SECOND := PLAYER_2]), a, Snapshot2(x)) == l1;
    SecondAnnounced(a, b, x);
  }

  lemma SecondAnnounced(a: Connection, b: Connection, x: Position)
    requires a != b
    ensures var l1 := Lobby(Both(a, b), Players2(), map[b := Mail1(x), a := [Snapshot2(x)]]);
            Broadcast(l1, PlayerMsg(SECOND, PLAYER_2), a) == Lobby(Both(a, b), Players2(), Mails4(a, b, x))
  {
    hide SnapshotMsg, PlayerMsg, CellMsg, Tidy, AllOpen, OneClosed, Broadcast, Snapshot2, Mail1;
    var l1 := Lobby(Both(a, b), Players2(), map[b := Mail1(x), a := [Snapshot2(x)]]);
    BothOpen(a, b, l1);
    BroadcastToAll(l1, PlayerMsg(SECOND, PLAYER_2), a);
    assert [Snapshot2(x)] + [] == [Snapshot2(x)];
    assert Broadcast(l1, PlayerMsg(SECOND, PLAYER_2), a).mails == Mails4(a, b, x);
  }

  lemma SecondJoins(a: Connection, b: Connection, x: Position)
    requires a != b
    ensures Leads(Game3(a, b, x), Validates(a, Position(20, 20), 0, Snapshot2(x), []),
                  Game4(a, b, x, Site(SECOND, true, 1, 0, NEW_CLIENT, [], 0)))
  {
    hide SnapshotMsg, Introduced, Welcomed, IsSnapshot, Tidy, Broadcast, OneClosed, Snapshot2, Mails4, Mail1, Answers,
      AfterMessage, T.Arrived;
    SecondWelcomed(a, b, x);
    Snapshots(x);
    assert |Players2()| == 2;
    BothOpen(a, b, Game3(a, b, x).lobby);
    assert Players1()[SECOND := PLAYER_2] == Players2();
    assert [x] + [] == [x];
  }

  lemma CopiedPlayers(x: Position)
    ensures Client.Handled(NEW_CLIENT, Snapshot2(x)) == Some(Told2(x))
  {
    hide SnapshotMsg, Client.Handled, Enumerates;
    var order := [FIRST, SECOND];
    assert Enumerates(order, Players2()) by { OrderOfTwo(); }
    Client.SnapshotHandled(NEW_CLIENT, order, Players2(), [x], SECOND);
    assert DefaultEntries(1) + Reverse([x]) == [ORIGIN, x];
    assert Players2().Keys == {FIRST, SECOND};
    assert map[] + Copies({FIRST, SECOND}, Players2()) == Copies({FIRST, SECOND}, Players2());
  }

  lemma OrderOfTwo()
    ensures Enumerates([FIRST, SECOND], Players2())
  {
    assert Elements([FIRST, SECOND]) == {FIRST, SECOND} == Players2().Keys;
  }

  lemma PlayerBody(id: uint32, p: Position)
    ensures PlayerMsg(id, NewPlayer(p, 0)).header.bodySize > 0 && Consistent(PlayerMsg(id, NewPlayer(p, 0)))
  {
    PlayerMsgConsistent(id, p, 0);
    AnnouncementHasBody(id, p, 0);
  }

  lemma OnePushed(body: seq<byte>, id: uint32, players: map<uint32, PlayerData>)
    requires Sendable(players) && id in players
    ensures PushPlayers(body, [id], players) == PushPlayer(body, id, players[id].color, players[id].tail)
  {
    hide PushPlayer;
    var pushed := PushPlayer(body, id, players[id].color, players[id].tail);
    assert [id][1..] == [];
    assert PushPlayers(pushed, [], players) == pushed;
  }

  lemma PlayersSize(x: Position)
    ensures |PushPlayers([], [FIRST], Players1())| == 24
    ensures |PushPlayers([], [FIRST, SECOND], Players2())| == 48
  {
    hide PushPlayer;
    OnePushed([], FIRST, Players1());
    PlayerSize([], FIRST, PLAYER_1);
    var one := PushPlayer([], FIRST, PLAYER_1.color, PLAYER_1.tail);
    OnePushed(one, SECOND, Players2());
    PlayerSize(one, SECOND, PLAYER_2);
    assert [FIRST, SECOND][1..] == [SECOND];
  }

  /** Both snapshots are short. */
  lemma SnapshotSizes(x: Position)
    ensures Consistent(Snapshot1()) && Snapshot1().header.bodySize > 0
    ensures Consistent(Snapshot2(x)) && Snapshot2(x).header.bodySize > 0
  {
    hide Encode, PushPlayers;
    PlayersSize(x);
    CellsSize(Push(PushPlayers([], [FIRST, SECOND], Players2()), Size(|Players2()|)), x);
    assert |Snapshot1().body| == 44;
    assert |Snapshot2(x).body| == 76;
  }

  lemma CellsSize(body: seq<byte>, x: Position)
    ensures |PushCells(body, [x])| == |body| + 8
  {
    hide Encode;
    assert [x][1..] == [];
    assert PushCells(body, [x]) == PushCells(Push(body, Cell(x)), []);
  }

  lemma PlayerSize(body: seq<byte>, id: uint32, p: PlayerData)
    requires |p.tail| == 1
    ensures |PushPlayer(body, id, p.color, p.tail)| == |body| + 24
  {
    hide Encode;
    assert p.tail == [p.tail[0]];
    CellsSize(body, p.tail[0]);
  }

  // ---------------------------------------------------------------- the second client

  lemma OneCame(x: Position)
    ensures T.Arrived([Snapshot2(x)]) == [Snapshot2(x)]
  {
    var mail := [Snapshot2(x)];
    SnapshotSizes(x);
    assert T.AllConsistent(mail);
    hide SnapshotMsg;
    T.ArrivedConsistent(mail);
    E.RedeliveredAt(mail, 0);
  }

  lemma SecondHears(a: Connection, b: Connection, x: Position)
    requires a != b
    ensures Leads(Game4(a, b, x, Site(SECOND, true, 1, 0, NEW_CLIENT, [], 0)), Hears(a),
                  Game4(a, b, x, Site2(x, [], 0)))
  {
    hide SnapshotMsg, T.Arrived, Client.Handled;
    OneCame(x);
    CopiedPlayers(x);
  }

  lemma SecondReports(a: Connection, b: Connection, x: Position, p: Position)
    requires a != b
    ensures Leads(Game4(a, b, x, Site2(x, [], 0)), Sends(a, Report(p)), Game4(a, b, x, Site2(x, [Report(p)], 0)))
  {
    hide SnapshotMsg, T.Arrived, UpdateBody, ParseUpdate, PlayerMsg;
    UpdateRoundTrip([Position(5, 8), p], Up, SECOND);
    assert [] + [Report(p)] == [Report(p)];
  }

  lemma SecondAsks(a: Connection, b: Connection, x: Position, p: Position)
    requires a != b
    ensures Leads(Game4(a, b, x, Site2(x, [Report(p)], 0)), Sends(a, Empty(START_GAME)),
                  Game4(a, b, x, Site2(x, [Report(p), Empty(START_GAME)], 0)))
  {
    hide SnapshotMsg, T.Arrived, Report, PlayerMsg;
    assert [Report(p)] + [Empty(START_GAME)] == [Report(p), Empty(START_GAME)];
  }

  /** What the server gets: the report, and the request with the report's body. */
  lemma ServerGets(x: Position, p: Position, taken: nat)
    ensures Outbox(Site2(x, [Report(p), Empty(START_GAME)], taken)) == [Report(p), Stale(p)]
  {
    var up := [Report(p), Empty(START_GAME)];
    ReportBody(p);
    assert |Report(p).body| == 32;
    assert T.AllConsistent(up);
    hide Report, Told2;
    T.ArrivedConsistent(up);
    E.RedeliveredAt(up, 0);
    E.RedeliveredAt(up, 1);
    assert up[..1] == [Report(p)];
  }

  lemma NoHit(p: Position)
    ensures var players := map[FIRST := PLAYER_1, SECOND := Reported2(p)];
            !Hit(players, SECOND) && HeadReadable(players, SECOND)
  {
  }

  lemma ReportIsRead(p: Position)
    ensures ParseUpdate(Report(p).body) == Some(Update(SECOND, Up, [Position(5, 8), p], []))
    ensures Pop(Report(p).body, IntKind).Some? && Report(p).header.id == UPDATE_PLAYER
  {
    hide UpdateBody, ParseUpdate, Pop;
    UpdateRoundTrip([Position(5, 8), p], Up, SECOND);
    ReportBody(p);
  }

  /** The lobby after the report. */
  lemma ReportTold(a: Connection, b: Connection, x: Position, p: Position)
    requires a != b
    ensures var l := Lobby(Both(a, b), Players2(), Mails4(a, b, x));
            && OneClosed(l) && Reportable(l, a, SECOND, Report(p).body) && SECOND in LeftBy(l, a)
            && Reported(l, a, SECOND, Report(p)) == Game5(a, b, x, p).lobby
  {
    hide SnapshotMsg, PlayerMsg, CellMsg, Tidy, AllOpen, OneClosed, Broadcast, Report, ParseUpdate, Pop, LeftBy, Hit,
      HeadReadable;
    var l := Lobby(Both(a, b), Players2(), Mails4(a, b, x));
    BothOpen(a, b, l);
    BroadcastToAll(l, Report(p), a);
    ReportIsRead(p);
    NoHit(p);
    assert Stored(Players2(), SECOND, Report(p).body) == map[FIRST := PLAYER_1, SECOND := Reported2(p)];
    assert Mail1(x) + [PlayerMsg(SECOND, PLAYER_2)] + [Report(p)] == MailThen(x, p);
    assert [Snapshot2(x)] + [] == [Snapshot2(x)];
    assert Broadcast(l, Report(p), a).mails == map[b := MailThen(x, p), a := [Snapshot2(x)]];
  }

  lemma ReportHandled(a: Connection, b: Connection, x: Position, p: Position)
    requires a != b
    ensures Leads(Game4(a, b, x, Site2(x, [Report(p), Empty(START_GAME)], 0)), Handles(a, ORIGIN), Game5(a, b, x, p))
  {
    hide SnapshotMsg, PlayerMsg, CellMsg, OneClosed, Report, Reportable, Reported, LeftBy, T.Arrived, Broadcast;
    ServerGets(x, p, 0);
    ReportTold(a, b, x, p);
    assert Report(p).header.id == UPDATE_PLAYER by { ReportIsRead(p); }
  }

  /** The request is sent on as it came. */
  lemma RequestHandled(a: Connection, b: Connection, x: Position, p: Position)
    requires a != b
    ensures Leads(Game5(a, b, x, p), Handles(a, ORIGIN), Game6(a, b, x, p))
  {
    hide SnapshotMsg, PlayerMsg, CellMsg, OneClosed, Report, T.Arrived, Broadcast, Tidy, AllOpen, LeftBy, Reportable,
      Reported, Replaced, MailThen, Snapshot2;
    ServerGets(x, p, 1);
    var l := Game5(a, b, x, p).lobby;
    BothOpen(a, b, l);
    BroadcastToAll(l, Stale(p), null);
    assert [Snapshot2(x)] + [Stale(p)] == [Snapshot2(x), Stale(p)];
    assert Broadcast(l, Stale(p), null).mails == Game6(a, b, x, p).lobby.mails;
  }

  lemma AllSteps(a: Connection, b: Connection, x: Position, p: Position)
    requires a != b && InGrid(x) && x != Position(30, 20)
    ensures RunsTo(Start(), Steps(a, b, x, p), Game6(a, b, x, p))
  {
    hide RunsTo, Leads, Game1, Game2, Game3, Game4, Game5, Game6, SnapshotMsg, Report, Site2;
    var none, some, all := Site2(x, [], 0), Site2(x, [Report(p)], 0), Site2(x, [Report(p), Empty(START_GAME)], 0);
    var joined := Game4(a, b, x, Site(SECOND, true, 1, 0, NEW_CLIENT, [], 0));
    Accepted(a, b, x);
    FirstJoins(b, x);
    SecondJoins(a, b, x);
    SecondHears(a, b, x);
    SecondReports(a, b, x, p);
    SecondAsks(a, b, x, p);
    ReportHandled(a, b, x, p);
    RequestHandled(a, b, x, p);
    var s := Steps(a, b, x, p);
    Ends(Game6(a, b, x, p));
    var end := Game6(a, b, x, p);
    var last := [s[8]] + [];
    LeadsOn(Game5(a, b, x, p), s[8], end, [], end);
    LeadsOn(Game4(a, b, x, all), s[7], Game5(a, b, x, p), last, end);
    LeadsOn(Game4(a, b, x, some), s[6], Game4(a, b, x, all), [s[7]] + last, end);
    LeadsOn(Game4(a, b, x, none), s[5], Game4(a, b, x, some), [s[6]] + ([s[7]] + last), end);
    LeadsOn(joined, s[4], Game4(a, b, x, none), [s[5]] + ([s[6]] + ([s[7]] + last)), end);
    Joins(a, b, x, p, [s[4]] + ([s[5]] + ([s[6]] + ([s[7]] + last))), joined, end);
  }

  /** The two of them join. */
  lemma Joins(a: Connection, b: Connection, x: Position, p: Position, rest: seq<Step>, joined: Game, end: Game)
    requires Leads(Start(), Accepts(b), Game1(b))
    requires Leads(Game1(b), Validates(b, Position(30, 20), 0, Snapshot1(), [x]), Game2(b, x))
    requires Leads(Game2(b, x), Accepts(a), Game3(a, b, x))
    requires Leads(Game3(a, b, x), Validates(a, Position(20, 20), 0, Snapshot2(x), []), joined)
    requires RunsTo(joined, rest, end) && Steps(a, b, x, p)[4..] == rest
    ensures RunsTo(Start(), Steps(a, b, x, p), end)
  {
    hide RunsTo, Leads, Game1, Game2, Game3, SnapshotMsg, Report;
    var s := Steps(a, b, x, p);
    LeadsOn(Game3(a, b, x), s[3], joined, rest, end);
    LeadsOn(Game2(b, x), s[2], Game3(a, b, x), [s[3]] + rest, end);
    LeadsOn(Game1(b), s[1], Game2(b, x), [s[2]] + ([s[3]] + rest), end);
    LeadsOn(Start(), s[0], Game1(b), [s[1]] + ([s[2]] + ([s[3]] + rest)), end);
    assert s == [s[0]] + ([s[1]] + ([s[2]] + ([s[3]] + rest)));
  }

  lemma Accepted(a: Connection, b: Connection, x: Position)
    requires a != b
    ensures Leads(Start(), Accepts(b), Game1(b)) && Leads(Game2(b, x), Accepts(a), Game3(a, b, x))
  {
    hide SnapshotMsg, CellMsg, Leads;
    AcceptLeads(Start(), b);
    AcceptLeads(Game2(b, x), a);
    assert [] + [Member(b, FIRST)] == [Member(b, FIRST)];
    assert Game2(b, x).lobby.list + [Member(a, SECOND)] == Both(a, b);
    assert Game2(b, x).sites[a := Site(SECOND, false, 0, 0, NEW_CLIENT, [], 0)] == Game3(a, b, x).sites;
    assert Game2(b, x).lobby.mails[a := []] == Game3(a, b, x).lobby.mails;
    assert Start().lobby.mails[b := []] == Game1(b).lobby.mails;
    assert Start().sites[b := NEW_SITE] == Game1(b).sites;
  }

  // ---------------------------------------------------------------- what the first client makes of it

  /** All that arrives, in order. */
  lemma FirstGets(x: Position, p: Position) returns (came: seq<Msg>)
    ensures came == T.Arrived(MailThen(x, p) + [Stale(p)]) && |came| == 7 && came[..4] == MailThen(x, p)
    ensures came[4].header == Header(START_GAME, 0) && came[5] == CellMsg(NEW_POWERUP, p)
    ensures came[6] == Msg(Header(REMOVE_PLAYER, 0), Encode(Cell(p)))
    ensures !ReadsBack(MailThen(x, p) + [Stale(p)])
  {
    SnapshotSizes(x);
    PlayerBody(SECOND, Position(20, 20));
    ReportBody(p);
    assert |Report(p).body| == 32;
    CellMsgIs(NEW_POWERUP, x);
    hide SnapshotMsg, PlayerMsg, CellMsg, Report, Encode, HeaderBytes, T.Arrived, ReadsBack;
    StaleArrives(MailThen(x, p), p);
    came := T.Arrived(MailThen(x, p) + [Stale(p)]);
  }

  lemma {:induction false} AllReadable(s: Client.State, ms: seq<Msg>)
    requires forall k :: 0 <= k < |ms| ==> Readable(ms[k])
    ensures Client.AllHandled(s, Client.FromServer(ms)).Some?
    decreases |ms|
  {
    hide Client.Handled, Readable;
    if ms != [] {
      ReadableAnywhere(s, ms[0]);
      assert Client.FromServer(ms)[1..] == Client.FromServer(ms[1..]);
      AllReadable(Client.Handled(s, ms[0]).value, ms[1..]);
    }
  }

  lemma FirstFour(x: Position, p: Position)
    ensures var ms := MailThen(x, p);
            && Readable(ms[0]) && Client.NotesOf(ms[0]) == [R.Snap([])]
            && Readable(ms[1]) && Client.NotesOf(ms[1]) == [R.New(x)]
            && Readable(ms[2]) && Client.NotesOf(ms[2]) == [] && Readable(ms[3]) && Client.NotesOf(ms[3]) == []
  {
    hide SnapshotMsg, PlayerMsg, CellMsg, Report, Pop, ParseUpdate, Client.NotesOf, Readable, IsSnapshot;
    Snapshots(x);
    SnapshotFacts(Snapshot1(), Players1(), [], FIRST);
    CellIsPlain(NEW_POWERUP, x);
    P.CellNotes(x);
    AnnouncementIsPlain(SECOND, Position(20, 20), 0);
    P.AnnouncementNotes(SECOND, PLAYER_2);
    ReportIsRead(p);
    UpdateIsRead(Report(p));
  }

  lemma LastThree(p: Position, m: Msg)
    requires m.header == Header(START_GAME, 0)
    ensures Readable(m) && Client.NotesOf(m) == []
    ensures Readable(CellMsg(NEW_POWERUP, p)) && Client.NotesOf(CellMsg(NEW_POWERUP, p)) == [R.New(p)]
    ensures var gone := Msg(Header(REMOVE_PLAYER, 0), Encode(Cell(p))); Readable(gone) && Client.NotesOf(gone) == []
  {
    hide CellMsg, Encode, Decode;
    CellIsPlain(NEW_POWERUP, p);
    P.CellNotes(p);
  }

  lemma UpdateIsRead(m: Msg)
    requires m.header.id == UPDATE_PLAYER && ParseUpdate(m.body).Some?
    ensures Readable(m) && Client.NotesOf(m) == []
  {
  }

  lemma NotesOfSeven(ms: seq<Msg>, x: Position, p: Position)
    requires |ms| == 7 && Client.NotesOf(ms[0]) == [R.Snap([])] && Client.NotesOf(ms[1]) == [R.New(x)]
    requires Client.NotesOf(ms[2]) == Client.NotesOf(ms[3]) == Client.NotesOf(ms[4]) == Client.NotesOf(ms[6]) == []
    requires Client.NotesOf(ms[5]) == [R.New(p)]
    ensures P.MailNotes(ms) == [R.Snap([]), R.New(x), R.New(p)]
  {
    hide Client.NotesOf;
    assert ms == [ms[0]] + ([ms[1]] + ([ms[2]] + ([ms[3]] + ([ms[4]] + ([ms[5]] + [ms[6]])))));
    forall m
      ensures P.MailNotes([m]) == Client.NotesOf(m)
    {
      P.MailNotesOne(m);
    }
    hide P.MailNotes;
    P.MailNotesConcat([ms[5]], [ms[6]]);
    P.MailNotesConcat([ms[4]], [ms[5]] + [ms[6]]);
    P.MailNotesConcat([ms[3]], [ms[4]] + ([ms[5]] + [ms[6]]));
    P.MailNotesConcat([ms[2]], [ms[3]] + ([ms[4]] + ([ms[5]] + [ms[6]])));
    P.MailNotesConcat([ms[1]], [ms[2]] + ([ms[3]] + ([ms[4]] + ([ms[5]] + [ms[6]]))));
    P.MailNotesConcat([ms[0]], [ms[1]] + ([ms[2]] + ([ms[3]] + ([ms[4]] + ([ms[5]] + [ms[6]])))));
  }

  lemma SnapOfNone()
    ensures R.Apply([], R.Snap([])) == []
  {
    assert DefaultEntries(0) == [];
  }

  lemma ThreeNotes(x: Position, p: Position)
    ensures R.ApplyAll([], [R.Snap([]), R.New(x), R.New(p)]) == [x, p]
  {
    var last, both, all := [R.New(p)], [R.New(x), R.New(p)], [R.Snap([]), R.New(x), R.New(p)];
    assert last[1..] == [] && both[1..] == last && all[1..] == both;
    var none: seq<Position> := [];
    SnapOfNone();
    assert R.Apply(none, R.New(x)) == [x] && R.Apply([x], R.New(p)) == [x, p];
    hide R.Apply;
    assert R.ApplyAll([x], last) == [x, p];
    assert R.ApplyAll(none, both) == R.ApplyAll([x], last);
  }

  lemma FirstKnows(x: Position, p: Position)
    ensures var end := Client.AllHandled(NEW_CLIENT, Client.FromServer(T.Arrived(MailThen(x, p) + [Stale(p)])));
            end.Some? && end.value.powerups == [x, p]
  {
    hide SnapshotMsg, PlayerMsg, CellMsg, Report, Encode, T.Arrived, Readable, Client.NotesOf, Client.AllHandled,
      Client.FromServer, Stale, MailThen, ReadsBack;
    var came := FirstGets(x, p);
    FirstFour(x, p);
    LastThree(p, came[4]);
    assert forall k :: 0 <= k < 4 ==> came[k] == MailThen(x, p)[k];
    KnownNotes(came, x, p);
  }

  lemma KnownNotes(came: seq<Msg>, x: Position, p: Position)
    requires |came| == 7 && forall k :: 0 <= k < 7 ==> Readable(came[k])
    requires Client.NotesOf(came[0]) == [R.Snap([])] && Client.NotesOf(came[1]) == [R.New(x)]
    requires Client.NotesOf(came[2]) == Client.NotesOf(came[3]) == []
    requires Client.NotesOf(came[4]) == Client.NotesOf(came[6]) == []
    requires Client.NotesOf(came[5]) == [R.New(p)]
    ensures var end := Client.AllHandled(NEW_CLIENT, Client.FromServer(came));
            end.Some? && end.value.powerups == [x, p]
  {
    hide Readable, Client.NotesOf, Client.AllHandled, Client.AllNotes, P.MailNotes, R.ApplyAll, Client.FromServer;
    AllReadable(NEW_CLIENT, came);
    Client.PowerupsFollowNotes(NEW_CLIENT, Client.FromServer(came));
    P.NotesAsSent(came);
    NotesOfSeven(came, x, p);
    ThreeNotes(x, p);
    assert NEW_CLIENT.powerups == [];
  }

  /** A run from the empty server without a race, in which clients report themselves: two clients join,
      the second one reports, with its head on (5, 8) and `p` next to it, and asks for the game to start.
      Everything that the first client was sent arrives, and then it has a powerup on `p` that the server
      does not have. The run is not clean, and the client does not read its mail back. */
  lemma StaleStartBreaksAgreement(a: Connection, b: Connection, x: Position, p: Position)
    requires a != b && InGrid(x) && x != Position(30, 20)
    ensures var steps := Steps(a, b, x, p);
            && Possible(Start(), steps) && P.FairRun(Start(), steps) && Presence.HonestRun(Start(), steps)
            && !CleanRun(Start(), steps)
            && var g := After(Start(), steps);
               && g.powerups == [x] && b in g.lobby.mails && !ReadsBack(g.lobby.mails[b])
               && b in g.sites && g.sites[b].joined && g.sites[b].heard <= |Inbox(g, b)|
               && EndState(g, b).Some? && EndState(g, b).value.powerups == [x, p]
               && !P.Agrees(g, b)
  {
    hide Game6, Steps, P.FairRun, Presence.HonestRun, P.Agrees, EndState, Inbox;
    AllSteps(a, b, x, p);
    var g := Game6(a, b, x, p);
    BrokenEnd(a, b, x, p);
    StartIsOk();
    if CleanRun(Start(), Steps(a, b, x, p)) {
      MailReadIff(Steps(a, b, x, p));
      SoundAtEnd(Start(), Steps(a, b, x, p));
    }
  }

  lemma {:induction false} SoundAtEnd(g: Game, steps: seq<Step>)
    requires Possible(g, steps) && AlwaysSound(g, steps)
    ensures Sound(After(g, steps))
    decreases |steps|
  {
    hide Enabled, Next, Sound;
    if steps != [] {
      SoundAtEnd(Next(g, steps[0]), steps[1..]);
    }
  }

  lemma BrokenEnd(a: Connection, b: Connection, x: Position, p: Position)
    requires a != b
    ensures var g := Game6(a, b, x, p);
            && g.powerups == [x] && b in g.lobby.mails && !ReadsBack(g.lobby.mails[b]) && !Sound(g)
            && b in g.sites && g.sites[b].joined && g.sites[b].heard <= |Inbox(g, b)|
            && EndState(g, b).Some? && EndState(g, b).value.powerups == [x, p]
            && !P.Agrees(g, b)
  {
    hide SnapshotMsg, PlayerMsg, CellMsg, Report, T.Arrived, ReadsBack, Client.AllHandled, Client.FromServer, Stale;
    var came := FirstGets(x, p);
    FirstKnows(x, p);
    var g := Game6(a, b, x, p);
    assert came[0..] == came;
    assert |EndState(g, b).value.powerups| == 2;
    assert R.Defaults(0) == multiset{};
    assert |multiset([x, p])| == 2 && |multiset([x])| == 1;
  }
}
