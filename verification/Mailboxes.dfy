/** What is under way between the server and its clients in clean runs: every message can be taken
    apart, and comes to the other end as it was sent, or without a body and then nothing is read from it. */
module Mailboxes {
  import opened Common
  import opened Message
  import opened Connection
  import opened Codec
  import opened Protocol
  import opened Lobbies
  import opened Game
  import opened Relays
  import T = Transport
  import E = EndpointRuns
  import Client

  // ---------------------------------------------------------------- messages

  predicate IsSnapshotMsg(m: Msg) {
    m.header.id == SERVER_VALIDATION
  }

  /** A client can take the message apart. Whether it can does not depend on its state. */
  predicate Readable(m: Msg) {
    Client.Handled(NEW_CLIENT, m).Some?
  }

  predicate RemovesOther(m: Msg, id: uint32) {
    match Pop(m.body, IntKind)
    case None => false
    case Some((v, _)) => AsUint32(v.int_) != id
  }

  /** A snapshot that tells a client its identifier, and of its own player. */
  ghost predicate Welcomes(m: Msg, id: uint32) {
    forall s: Client.State :: Client.Handled(s, m).Some? ==>
      Client.Handled(s, m).value.clientID == AsInt32(id) && id in Client.Handled(s, m).value.players
  }

  /** What the server tells several clients. */
  predicate Plain(m: Msg) {
    && Consistent(m) && (m.body == [] ==> m.header.id == START_GAME) && Readable(m)
    && !IsRemoval(m) && !IsSnapshotMsg(m)
  }

  /** What is in the mail of client `id`. */
  ghost predicate ItemOk(id: uint32, m: Msg) {
    && Consistent(m) && (m.body == [] ==> m.header.id == START_GAME) && Readable(m)
    && (IsRemoval(m) ==> RemovesOther(m, id)) && (IsSnapshotMsg(m) ==> Welcomes(m, id))
  }

  /** What a client sends. */
  predicate UpOk(m: Msg) {
    Consistent(m) && (m.header.id == POWERUP_EATEN ==> m.body != [])
  }

  ghost predicate AllItems(id: uint32, mail: seq<Msg>) {
    forall k :: 0 <= k < |mail| ==> ItemOk(id, mail[k])
  }

  predicate NoSnapshot(mail: seq<Msg>) {
    forall k :: 0 <= k < |mail| ==> !IsSnapshotMsg(mail[k])
  }

  /** A client that knows its identifier has its snapshot behind it, and itself in its map. */
  predicate Settled(s: Site, mail: seq<Msg>)
    requires s.heard <= |mail|
  {
    s.client.clientID >= 0 ==>
      && s.joined && NoSnapshot(mail[s.heard..])
      && s.client.clientID == AsInt32(s.id) && s.id in s.client.players
  }

  /** The mail has at most one snapshot, and none before the client has joined. Before that the client
      has sent nothing. */
  ghost predicate SiteOk(s: Site, mail: seq<Msg>) {
    && s.heard <= |mail| && s.taken <= |s.up|
    && AllItems(s.id, mail) && (forall k :: 0 <= k < |s.up| ==> UpOk(s.up[k]))
    && (forall j, k :: 0 <= j < k < |mail| && IsSnapshotMsg(mail[j]) ==> !IsSnapshotMsg(mail[k]))
    && (!s.joined ==> NoSnapshot(mail) && s.up == [])
    && Settled(s, mail)
  }

  ghost predicate MailOk(sites: map<Connection, Site>, mails: map<Connection, seq<Msg>>) {
    sites.Keys == mails.Keys && forall c :: c in sites ==> SiteOk(sites[c], mails[c])
  }

  ghost predicate GameOk(g: Game) {
    WellFormed(g) && MailOk(g.sites, g.lobby.mails)
  }

  lemma OkAt(sites: map<Connection, Site>, mails: map<Connection, seq<Msg>>, c: Connection)
    requires MailOk(sites, mails) && c in sites
    ensures c in mails && SiteOk(sites[c], mails[c])
  {
    hide SiteOk;
  }

  // ---------------------------------------------------------------- what arrives

  lemma {:induction false} PopPlayersAnywhere(body: seq<byte>, n: nat, a: map<uint32, ClientPlayer>,
                                              b: map<uint32, ClientPlayer>)
    ensures PopPlayers(body, n, a).Some? <==> PopPlayers(body, n, b).Some?
    decreases n
  {
    hide PopPlayer;
    if n > 0 && PopPlayer(body).Some? {
      var (id, p, rest) := PopPlayer(body).value;
      PopPlayersAnywhere(rest, n - 1, a[id := p], b[id := p]);
    }
  }

  lemma ReadableAnywhere(s: Client.State, m: Msg)
    requires Readable(m)
    ensures Client.Handled(s, m).Some?
    ensures !IsSnapshotMsg(m) ==> Client.Handled(s, m).value.clientID == s.clientID
  {
    hide Pop, PopPowerupList, PopPlayers, PopPlayer, ParseUpdate, RemoveFirst;
    if IsSnapshotMsg(m) {
      var (_, b1) := Pop(m.body, IntKind).value;
      var (_, b2) := PopPowerupList(b1).value;
      var (n, rest) := Pop(b2, SizeKind).value;
      PopPlayersAnywhere(rest, n.size, map[], s.players);
    }
  }

  lemma ItemsConsistent(id: uint32, mail: seq<Msg>)
    requires AllItems(id, mail)
    ensures T.AllConsistent(mail)
  {
    hide Welcomes, Readable, Consistent;
  }

  /** A client handles what arrives as it would handle what was sent. */
  lemma HeardAsSent(s: Client.State, id: uint32, mail: seq<Msg>, k: nat)
    requires AllItems(id, mail) && k < |mail|
    ensures |T.Arrived(mail)| == |mail|
    ensures var m := T.Arrived(mail)[k]; m.header == mail[k].header && (m == mail[k] || m.header.id == START_GAME)
    ensures Client.Handled(s, T.Arrived(mail)[k]) == Client.Handled(s, mail[k])
    ensures Client.NotesOf(T.Arrived(mail)[k]) == Client.NotesOf(mail[k])
  {
    ItemsConsistent(id, mail);
    T.ArrivedConsistent(mail);
    E.RedeliveredAt(mail, k);
    assert ItemOk(id, mail[k]);
    hide T.Arrived, E.Redelivered, E.LastBody, Welcomes, Readable, Client.WithSnapshot, Client.WithNewPlayer,
      Client.WithUpdate, Client.WithKill;
  }

  lemma UpConsistent(s: Site, mail: seq<Msg>)
    requires SiteOk(s, mail)
    ensures T.AllConsistent(s.up) && Outbox(s) == E.Redelivered(s.up) && |Outbox(s)| == |s.up|
  {
    hide AllItems, Settled, NoSnapshot, Consistent;
    assert forall k :: 0 <= k < |s.up| ==> UpOk(s.up[k]);
    hide SiteOk;
    T.ArrivedConsistent(s.up);
  }

  lemma ItemsAt(s: Site, mail: seq<Msg>)
    requires SiteOk(s, mail)
    ensures AllItems(s.id, mail) && s.heard <= |mail| && s.taken <= |s.up|
  {
    hide AllItems;
  }

  // ---------------------------------------------------------------- once all of it is handled

  /** What the client has once it has handled all that arrives of its mail. */
  function EndState(g: Game, c: Connection): Option<Client.State>
    requires c in g.sites && c in g.lobby.mails && g.sites[c].heard <= |Inbox(g, c)|
  {
    Client.AllHandled(g.sites[c].client, Client.FromServer(Inbox(g, c)[g.sites[c].heard..]))
  }

  lemma ReadableAt(s: Client.State, id: uint32, mail: seq<Msg>, n: nat)
    requires AllItems(id, mail) && n < |mail|
    ensures Client.Handled(s, mail[n]).Some?
  {
    assert ItemOk(id, mail[n]);
    ReadableAnywhere(s, mail[n]);
    hide Client.Handled, Readable, Welcomes;
  }

  /** Handling what arrives of the mail is handling the mail. */
  lemma {:induction false} EndAsSent(s: Client.State, id: uint32, mail: seq<Msg>, n: nat)
    requires AllItems(id, mail) && n <= |mail|
    ensures |T.Arrived(mail)| == |mail|
    ensures Client.AllHandled(s, Client.FromServer(T.Arrived(mail)[n..]))
            == Client.AllHandled(s, Client.FromServer(mail[n..]))
    ensures Client.AllHandled(s, Client.FromServer(mail[n..])).Some?
    decreases |mail| - n
  {
    hide AllItems, T.Arrived, E.Redelivered, Client.Handled, Client.NotesOf;
    ItemsConsistent(id, mail);
    T.ArrivedConsistent(mail);
    var rest, came := mail[n..], T.Arrived(mail)[n..];
    if n < |mail| {
      HeardAsSent(s, id, mail, n);
      ReadableAt(s, id, mail, n);
      EndAsSent(Client.Handled(s, mail[n]).value, id, mail, n + 1);
      assert Client.FromServer(rest)[1..] == Client.FromServer(mail[n + 1..]);
      assert Client.FromServer(came)[1..] == Client.FromServer(T.Arrived(mail)[n + 1..]);
      assert rest[1..] == mail[n + 1..];
    }
  }

  // ---------------------------------------------------------------- more mail

  lemma GrownOk(s: Site, mail: seq<Msg>, more: seq<Msg>)
    requires SiteOk(s, mail) && AllItems(s.id, more) && NoSnapshot(more)
    ensures SiteOk(s, mail + more)
  {
    var all := mail + more;
    assert all[s.heard..] == mail[s.heard..] + more;
    hide ItemOk, UpOk, IsSnapshotMsg;
  }

  lemma PlainIsOk(id: uint32, m: Msg)
    requires Plain(m)
    ensures ItemOk(id, m) && !IsSnapshotMsg(m)
  {
  }

  lemma RemovalIsOk(id: uint32, gone: uint32)
    requires gone != id
    ensures ItemOk(id, RemovePlayerMsg(gone)) && !IsSnapshotMsg(RemovePlayerMsg(gone))
    ensures Client.NotesOf(RemovePlayerMsg(gone)) == []
  {
    hide Push, Pop;
    PopPush([], Int(AsInt32(gone)));
    WordIntAgree(gone, 0);
  }

  lemma TwoItems(id: uint32, a: seq<Msg>, b: seq<Msg>)
    requires AllItems(id, a) && AllItems(id, b) && NoSnapshot(a) && NoSnapshot(b)
    ensures AllItems(id, a + b) && NoSnapshot(a + b)
  {
    hide ItemOk, IsSnapshotMsg;
  }

  lemma OneItem(id: uint32, m: Msg)
    requires ItemOk(id, m) && !IsSnapshotMsg(m)
    ensures AllItems(id, [m]) && NoSnapshot([m])
  {
    hide ItemOk, IsSnapshotMsg;
  }

  /** The mail of one member from one broadcast. */
  lemma ItemsOfMail(infos: seq<Info>, j: nat, m: Msg)
    requires j < |infos| && infos[j].open && (infos[j].ignored || Plain(m))
    requires forall i :: 0 <= i < |infos| && i != j ==> infos[i].id != infos[j].id
    ensures AllItems(infos[j].id, Mail(infos, j, m)) && NoSnapshot(Mail(infos, j, m))
  {
    MailContents(infos, j, m);
    var id, own := infos[j].id, if infos[j].ignored then [] else [m];
    hide ItemOk, IsSnapshotMsg, LostAt, Mail, RemovePlayerMsg;
    if !infos[j].ignored {
      PlainIsOk(id, m);
      OneItem(id, m);
    }
    hide Plain;
    assert AllItems(id, own) && NoSnapshot(own);
    if LostAt(infos) < |infos| {
      var gone := RemovePlayerMsg(infos[LostAt(infos)].id);
      RemovalIsOk(id, infos[LostAt(infos)].id);
      OneItem(id, gone);
      hide AllItems, NoSnapshot;
      TwoItems(id, own, [gone]);
      TwoItems(id, [gone], own);
    }
  }

  /** The new mail of one connected client from a broadcast. */
  lemma MoreMail(l: Lobby, m: Msg, ignore: Connection?, c: Connection, id: uint32)
    requires Tidy(l) && c in l.mails && Member(c, id) in l.list && (c == ignore || Plain(m))
    ensures var more := MailTo(l.list, SeenBy(l, ignore), c, m);
            && c in Broadcast(l, m, ignore).mails && Broadcast(l, m, ignore).mails[c] == l.mails[c] + more
            && AllItems(id, more) && NoSnapshot(more)
  {
    MailAfter(l, m, ignore, c);
    var infos, j := SeenBy(l, ignore), PlaceOf(l.list, c);
    SeatIs(l, c, id);
    forall i | 0 <= i < |infos| && i != j
      ensures infos[i].id != id
    {
      assert infos[i].id == l.list[i].id;
    }
    hide Plain, Mail, SeenBy, PlaceOf, Tidy, AllItems, NoSnapshot, Broadcast;
    ItemsOfMail(infos, j, m);
  }

  lemma SeatIs(l: Lobby, c: Connection, id: uint32)
    requires Tidy(l) && Member(c, id) in l.list
    ensures var j := PlaceOf(l.list, c);
            && j < |l.list| && l.list[j] == Member(c, id)
            && forall i :: 0 <= i < |l.list| && i != j ==> l.list[i].id != id
  {
    var i :| 0 <= i < |l.list| && l.list[i] == Member(c, id);
    PlaceIs(l.list, i);
  }

  lemma BroadcastFits(l: Lobby, sites: map<Connection, Site>, m: Msg, ignore: Connection?)
    requires Tidy(l) && Seated(l, sites) && MailOk(sites, l.mails) && (Plain(m) || NobodyBut(l, ignore))
    ensures MailOk(sites, Broadcast(l, m, ignore).mails)
  {
    assert Broadcast(l, m, ignore).mails.Keys == l.mails.Keys by { BroadcastShape(l, m, ignore); }
    hide Tidy, Broadcast, Plain, SiteOk, AllItems, NoSnapshot;
    forall c | c in sites
      ensures SiteOk(sites[c], Broadcast(l, m, ignore).mails[c])
    {
      OkAt(sites, l.mails, c);
      MoreMail(l, m, ignore, c, sites[c].id);
      GrownOk(sites[c], l.mails[c], MailTo(l.list, SeenBy(l, ignore), c, m));
    }
  }

  // ---------------------------------------------------------------- the server's messages

  lemma CellIsPlain(typ: uint32, p: Position)
    requires typ == NEW_POWERUP || typ == POWERUP_EATEN
    ensures Plain(CellMsg(typ, p))
  {
    hide Push, Pop;
    PopPush([], Cell(p));
  }

  lemma KillIsPlain(n: int32)
    ensures Plain(IntMsg(KILL_PLAYER, n))
  {
    Client.KillHandled(NEW_CLIENT, AsUint32(n));
    WordIntAgree(0, n);
  }

  lemma AnnouncementIsPlain(id: uint32, spawn: Position, color: uint32)
    ensures Plain(PlayerMsg(id, NewPlayer(spawn, color)))
  {
    hide Client.Handled, PushPlayer, Consistent;
    PlayerMsgConsistent(id, spawn, color);
    Client.NewPlayerHandled(NEW_CLIENT, id, NewPlayer(spawn, color));
    assert |PlayerMsg(id, NewPlayer(spawn, color)).body| > 0 by { AnnouncementHasBody(id, spawn, color); }
  }

  lemma AnnouncementHasBody(id: uint32, spawn: Position, color: uint32)
    ensures |PlayerMsg(id, NewPlayer(spawn, color)).body| > 0
  {
    hide PushTail;
  }

  /** What the server sends on as it came is plain when it announces its body. */
  lemma ReportIsPlain(m: Msg)
    requires m.header.id == UPDATE_PLAYER && ParseUpdate(m.body).Some? && Consistent(m)
    ensures Plain(m)
  {
  }

  lemma StartIsPlain(m: Msg)
    requires m.header.id == START_GAME && Consistent(m)
    ensures Plain(m)
  {
  }

  lemma SnapshotFacts(m: Msg, players: map<uint32, PlayerData>, powerups: seq<Position>, id: uint32)
    requires IsSnapshot(m, players, powerups, id) && id in players
    ensures IsSnapshotMsg(m) && Readable(m) && Welcomes(m, id) && m.body != []
    ensures Client.NotesOf(m) == [Client.Replica.Snap(powerups)]
  {
    hide Client.NotesOf, SnapshotMsg, Client.Handled, Enumerates;
    var order: seq<uint32> :| Enumerates(order, players) && (forall i :: 0 <= i < |order| ==> order[i] in players)
      && m == SnapshotMsg(order, players, powerups, id);
    Client.ServerNotes(order, players, powerups, id, ORIGIN);
    SnapshotHeader(order, players, powerups, id);
    SnapshotKnown(NEW_CLIENT, m, players, powerups, id);
    forall s: Client.State
      ensures Client.Handled(s, m).Some? && Client.Handled(s, m).value.clientID == AsInt32(id)
              && id in Client.Handled(s, m).value.players
    {
      SnapshotKnown(s, m, players, powerups, id);
    }
  }

  /** A client after the snapshot. */
  lemma SnapshotKnown(s: Client.State, m: Msg, players: map<uint32, PlayerData>, powerups: seq<Position>, id: uint32)
    requires IsSnapshot(m, players, powerups, id)
    ensures Client.Handled(s, m).Some? && Client.Handled(s, m).value.clientID == AsInt32(id)
    ensures Client.Handled(s, m).value.players.Keys == s.players.Keys + players.Keys
  {
    hide SnapshotMsg, Client.Handled, Enumerates;
    var order: seq<uint32> :| Enumerates(order, players) && (forall i :: 0 <= i < |order| ==> order[i] in players)
      && m == SnapshotMsg(order, players, powerups, id);
    Client.SnapshotHandled(s, order, players, powerups, id);
    CopiesKeys(s.players, players);
  }

  lemma CopiesKeys(known: map<uint32, ClientPlayer>, players: map<uint32, PlayerData>)
    ensures (known + Copies(players.Keys, players)).Keys == known.Keys + players.Keys
  {
  }

  lemma SnapshotHeader(order: seq<uint32>, players: map<uint32, PlayerData>, powerups: seq<Position>, id: uint32)
    requires Sendable(players) && Countable(powerups) && forall i :: 0 <= i < |order| ==> order[i] in players
    ensures var m := SnapshotMsg(order, players, powerups, id); m.header.id == SERVER_VALIDATION && m.body != []
  {
    hide PushPlayers, PushCells;
  }

  // ---------------------------------------------------------------- every clean step keeps it

  lemma ReportFits(l: Lobby, nextId: uint32, sites: map<Connection, Site>, c: Connection, id: uint32, m: Msg)
    requires LobbyOk(l, nextId) && Seated(l, sites) && OneClosed(l) && MailOk(sites, l.mails)
    requires m.header.id == UPDATE_PLAYER && Reportable(l, c, id, m.body) && id in LeftBy(l, c)
    requires Consistent(m) || NobodyBut(l, c)
    ensures MailOk(sites, Reported(l, c, id, m).mails)
  {
    hide Tidy, Ids, Seated, Broadcast, Stored, Hit, ParseUpdate, IntMsg, OneClosed, LeftBy, HeadReadable, MailOk,
      Plain, Consistent, NobodyBut;
    StoredOk(l, nextId, sites, c, id, m);
    if Consistent(m) {
      ReportIsPlain(m);
    }
    var told := Broadcast(l, m, c);
    var stored := told.(players := Stored(told.players, id, m.body));
    var named := ParseUpdate(m.body).value.id;
    KillIsPlain(named);
    BroadcastFits(l, sites, m, c);
    BroadcastFits(stored, sites, IntMsg(KILL_PLAYER, named), null);
  }

  lemma AnswerFits(g: Game, c: Connection, id: uint32, m: Msg, q: Position)
    requires GameOk(g) && Answers(g, c, id, m, q) && RelayedWhole(g.lobby, c, m)
    ensures MailOk(g.sites, AfterMessage(g.powerups, g.lobby, c, id, m, q).1.mails)
  {
    CellIsPlain(NEW_POWERUP, q);
    if m.header.id == START_GAME && Consistent(m) {
      StartIsPlain(m);
    }
    hide Tidy, Ids, Seated, Broadcast, Reported, OneClosed, PowerupsOk, Reportable, CellMsg, MailOk, Plain, Consistent;
    if m.header.id == POWERUP_EATEN {
      var p := Pop(m.body, CellKind).value.0.cell;
      CellIsPlain(POWERUP_EATEN, p);
      BroadcastOk(g.lobby, g.nextId, g.sites, CellMsg(POWERUP_EATEN, p), c);
      BroadcastFits(g.lobby, g.sites, CellMsg(POWERUP_EATEN, p), c);
      BroadcastFits(Broadcast(g.lobby, CellMsg(POWERUP_EATEN, p), c), g.sites, CellMsg(NEW_POWERUP, q), null);
    } else if m.header.id == UPDATE_PLAYER {
      ReportFits(g.lobby, g.nextId, g.sites, c, id, m);
    } else if m.header.id == START_GAME {
      BroadcastFits(g.lobby, g.sites, m, null);
    }
  }

  lemma {:induction false} AnnouncedFits(l: Lobby, nextId: uint32, sites: map<Connection, Site>, qs: seq<Position>)
    requires LobbyOk(l, nextId) && Seated(l, sites) && OneClosed(l) && MailOk(sites, l.mails)
    ensures MailOk(sites, Announced(l, qs).mails)
    decreases |qs|
  {
    hide Tidy, Ids, Seated, Broadcast, OneClosed, CellMsg, MailOk, Plain;
    if qs != [] {
      var front, q := qs[..|qs| - 1], qs[|qs| - 1];
      AnnouncedOk(l, nextId, sites, front);
      AnnouncedFits(l, nextId, sites, front);
      CellIsPlain(NEW_POWERUP, q);
      BroadcastFits(Announced(l, front), sites, CellMsg(NEW_POWERUP, q), null);
    }
  }

  lemma JoinedOk(s: Site, mail: seq<Msg>, m: Msg, defaults: nat)
    requires SiteOk(s, mail) && !s.joined && IsSnapshotMsg(m) && ItemOk(s.id, m)
    ensures SiteOk(Joined(s, defaults), mail + [m])
  {
    hide ItemOk, UpOk, IsSnapshotMsg;
  }

  lemma SnapshotFits(sites: map<Connection, Site>, mails: map<Connection, seq<Msg>>, c: Connection, m: Msg,
                     defaults: nat)
    requires MailOk(sites, mails) && c in sites && c in mails && !sites[c].joined
    requires IsSnapshotMsg(m) && ItemOk(sites[c].id, m)
    ensures MailOk(sites[c := Joined(sites[c], defaults)], mails[c := mails[c] + [m]])
  {
    OkAt(sites, mails, c);
    JoinedOk(sites[c], mails[c], m, defaults);
    hide SiteOk, Joined, ItemOk;
  }

  /** The sites once client `s.c` has joined. */
  function WithJoined(g: Game, c: Connection): map<Connection, Site>
    requires c in g.sites
  {
    g.sites[c := Joined(g.sites[c], |g.powerups|)]
  }

  lemma SnapshotIsOk(m: Msg, players: map<uint32, PlayerData>, powerups: seq<Position>, id: uint32)
    requires IsSnapshot(m, players, powerups, id) && id in players && Consistent(m)
    ensures IsSnapshotMsg(m) && ItemOk(id, m)
  {
    SnapshotFacts(m, players, powerups, id);
    hide IsSnapshot, Readable, Welcomes, Consistent;
  }

  lemma NewcomerFits(g: Game, s: Step)
    requires GameOk(g) && s.Validates? && s.c in g.sites && !g.sites[s.c].joined && OneClosed(g.lobby)
    requires Consistent(s.snapshot)
    requires IsSnapshot(s.snapshot, g.lobby.players[g.sites[s.c].id := NewPlayer(s.spawn, s.color)], g.powerups,
                        g.sites[s.c].id)
    ensures s.c in g.lobby.mails && MailOk(WithJoined(g, s.c), WithNewcomer(g, s).mails)
    ensures LobbyOk(WithNewcomer(g, s), g.nextId) && Seated(WithNewcomer(g, s), WithJoined(g, s.c))
    ensures OneClosed(WithNewcomer(g, s))
  {
    var id, p := g.sites[s.c].id, NewPlayer(s.spawn, s.color);
    hide LobbyOk, OneClosed, PowerupsOk, MailOk, IsSnapshotMsg, ItemOk, Consistent, IsSnapshot;
    NewcomerOk(g, s);
    JoinedSeated(WithNewcomer(g, s), g.sites, s.c, Joined(g.sites[s.c], |g.powerups|));
    hide Seated;
    SnapshotIsOk(s.snapshot, g.lobby.players[id := p], g.powerups, id);
    SnapshotFits(g.sites, g.lobby.mails, s.c, s.snapshot, |g.powerups|);
  }

  lemma JoinedSeated(l: Lobby, sites: map<Connection, Site>, c: Connection, site: Site)
    requires Seated(l, sites) && c in sites && site.id == sites[c].id
    ensures Seated(l, sites[c := site])
  {
  }

  lemma ValidatesFits(g: Game, s: Step)
    requires GameOk(g) && Enabled(g, s) && s.Validates? && Consistent(s.snapshot)
    ensures MailOk(Next(g, s).sites, Next(g, s).lobby.mails)
  {
    var id, p, sites := g.sites[s.c].id, NewPlayer(s.spawn, s.color), WithJoined(g, s.c);
    AnnouncementIsPlain(id, s.spawn, s.color);
    hide GameOk, LobbyOk, Seated, OneClosed, Broadcast, Announced, MailOk, Plain, PlayerMsg, IsSnapshot, AllDrawn,
      Filled, Consistent;
    NewcomerFits(g, s);
    BroadcastOk(WithNewcomer(g, s), g.nextId, sites, PlayerMsg(id, p), s.c);
    assert Tidy(WithNewcomer(g, s)) by { TidyOf(WithNewcomer(g, s), g.nextId); }
    BroadcastFits(WithNewcomer(g, s), sites, PlayerMsg(id, p), s.c);
    AnnouncedFits(Introduced(g.lobby, s.c, id, p, s.snapshot), g.nextId, sites, s.added);
  }

  lemma TidyOf(l: Lobby, nextId: uint32)
    requires LobbyOk(l, nextId)
    ensures Tidy(l)
  {
  }

  lemma SiteChanged(sites: map<Connection, Site>, mails: map<Connection, seq<Msg>>, c: Connection, site: Site)
    requires MailOk(sites, mails) && c in sites && c in mails && SiteOk(site, mails[c])
    ensures MailOk(sites[c := site], mails)
  {
    hide SiteOk;
  }

  lemma TakenOk(s: Site, mail: seq<Msg>)
    requires SiteOk(s, mail) && s.taken < |s.up|
    ensures SiteOk(s.(taken := s.taken + 1), mail)
  {
    hide ItemOk, UpOk, IsSnapshotMsg;
  }

  lemma HeardOk(s: Site, mail: seq<Msg>)
    requires SiteOk(s, mail) && s.heard < |mail|
    ensures Client.Handled(s.client, mail[s.heard]).Some? && SiteOk(Heard(s, mail[s.heard]), mail)
  {
    var m := mail[s.heard];
    assert ItemOk(s.id, m);
    ReadableAnywhere(s.client, m);
    StillKnown(s.client, m, s.id);
    var rest := mail[s.heard..];
    assert rest[0] == m && rest[1..] == mail[s.heard + 1..];
    assert forall k :: 0 <= k < |rest[1..]| ==> rest[1..][k] == mail[s.heard + 1 + k];
    hide Client.Handled, ItemOk, UpOk, IsSnapshotMsg, Readable, Welcomes;
  }

  /** A client's own player stays in its map, whatever it is told. */
  lemma StillKnown(s: Client.State, m: Msg, id: uint32)
    requires ItemOk(id, m) && Client.Handled(s, m).Some?
    ensures IsSnapshotMsg(m) ==> Client.Handled(s, m).value.clientID == AsInt32(id)
    ensures id in s.players || IsSnapshotMsg(m) ==> id in Client.Handled(s, m).value.players
  {
    if IsSnapshotMsg(m) {
      hide Client.Handled;
    } else {
      hide Pop, PopPlayer, ParseUpdate, RemoveFirst;
    }
  }

  lemma MovedOk(s: Site, mail: seq<Msg>, known: map<uint32, ClientPlayer>)
    requires SiteOk(s, mail) && known.Keys == s.client.players.Keys
    ensures SiteOk(s.(client := s.client.(players := known)), mail)
  {
    hide ItemOk, UpOk, IsSnapshotMsg;
  }

  lemma SentOk(s: Site, mail: seq<Msg>, m: Msg)
    requires SiteOk(s, mail) && UpOk(m) && s.client.clientID >= 0
    ensures SiteOk(s.(up := s.up + [m]), mail)
  {
    hide ItemOk, UpOk, IsSnapshotMsg;
  }

  lemma FedOk(s: Site, mail: seq<Msg>, i: nat)
    requires SiteOk(s, mail) && s.client.clientID >= 0 && i < |s.client.powerups|
    ensures SiteOk(Fed(s, i), mail)
    ensures Fed(s, i).client.players.Keys == s.client.players.Keys
  {
    var m := CellMsg(POWERUP_EATEN, s.client.powerups[i]);
    OwnConsistent(POWERUP_EATEN, 0, s.client.powerups[i]);
    assert UpOk(m);
    assert AsUint32(s.client.clientID) == s.id by { WordIntAgree(s.id, 0); }
    hide CellMsg, UpOk, ItemOk, IsSnapshotMsg;
    var fed := AfterEating(s.client, i);
    assert fed.players.Keys == s.client.players.Keys;
    MovedOk(s, mail, fed.players);
    SentOk(s.(client := s.client.(players := fed.players)), mail, m);
  }

  lemma ClientStepFits(g: Game, s: Step)
    requires GameOk(g) && Enabled(g, s) && Clean(g, s)
    requires s.Hears? || s.Moves? || s.Eats? || s.Sends?
    ensures MailOk(Next(g, s).sites, Next(g, s).lobby.mails)
  {
    hide WellFormed, SiteOk, Inbox, Fed;
    OkAt(g.sites, g.lobby.mails, s.c);
    var site, mail := g.sites[s.c], g.lobby.mails[s.c];
    match s {
      case Hears(c) =>
        InboxIs(g, c);
        HeardOk(site, mail);
        HeardSame(site, mail);
      case Moves(c, known) => MovedOk(site, mail, known);
      case Eats(c, i) => FedOk(site, mail, i);
      case Sends(c, m) => SentOk(site, mail, m);
    }
    SiteChanged(g.sites, g.lobby.mails, s.c, Next(g, s).sites[s.c]);
  }

  lemma InboxIs(g: Game, c: Connection)
    requires GameOk(g) && c in g.sites
    ensures c in g.lobby.mails && Inbox(g, c) == T.Arrived(g.lobby.mails[c]) && |Inbox(g, c)| == |g.lobby.mails[c]|
  {
    hide WellFormed, SiteOk, T.Arrived;
    OkAt(g.sites, g.lobby.mails, c);
    ItemsAt(g.sites[c], g.lobby.mails[c]);
    var mail := g.lobby.mails[c];
    ItemsConsistent(g.sites[c].id, mail);
    T.ArrivedConsistent(mail);
  }

  lemma HeardSame(s: Site, mail: seq<Msg>)
    requires SiteOk(s, mail) && s.heard < |mail| && Client.Handled(s.client, mail[s.heard]).Some?
    ensures s.heard < |T.Arrived(mail)| && Client.Handled(s.client, T.Arrived(mail)[s.heard]).Some?
    ensures Heard(s, T.Arrived(mail)[s.heard]) == Heard(s, mail[s.heard])
  {
    ItemsAt(s, mail);
    HeardAsSent(s.client, s.id, mail, s.heard);
    hide SiteOk, AllItems, T.Arrived, Client.Handled;
  }

  lemma NextFits(g: Game, s: Step)
    requires GameOk(g) && Enabled(g, s) && Clean(g, s)
    ensures GameOk(Next(g, s))
  {
    hide WellFormed, MailOk, Answers, RelayedWhole, AfterMessage;
    NextWellFormed(g, s);
    match s
    case Accepts(c) => AcceptsFits(g.sites, g.lobby.mails, c, g.nextId);
    case Validates(_, _, _, _, _) => ValidatesFits(g, s);
    case Handles(c, q) => HandlesFits(g, c, q);
    case HandlesStray(n, q) => AnswerFits(g, g.queue[n].conn, g.queue[n].id, g.queue[n].m, q);
    case Hears(c) => ClientStepFits(g, s);
    case Moves(c, _) => ClientStepFits(g, s);
    case Eats(c, i) => ClientStepFits(g, s);
    case Sends(c, _) => ClientStepFits(g, s);
    case Closes(c, n) => SiteGone(g.sites, g.lobby.mails, c);
  }

  lemma HandlesFits(g: Game, c: Connection, q: Position)
    requires GameOk(g) && Enabled(g, Handles(c, q)) && Clean(g, Handles(c, q))
    ensures MailOk(Next(g, Handles(c, q)).sites, Next(g, Handles(c, q)).lobby.mails)
  {
    hide WellFormed, Answers, RelayedWhole, AfterMessage, SiteOk;
    var site := g.sites[c];
    OkAt(g.sites, g.lobby.mails, c);
    UpConsistent(site, g.lobby.mails[c]);
    AnswerFits(g, c, site.id, Outbox(site)[site.taken], q);
    var mails := Next(g, Handles(c, q)).lobby.mails;
    OkAt(g.sites, mails, c);
    TakenOk(site, mails[c]);
    SiteChanged(g.sites, mails, c, site.(taken := site.taken + 1));
  }

  lemma AcceptsFits(sites: map<Connection, Site>, mails: map<Connection, seq<Msg>>, c: Connection, id: uint32)
    requires MailOk(sites, mails) && c !in sites
    ensures MailOk(sites[c := Site(id, false, 0, 0, NEW_CLIENT, [], 0)], mails[c := []])
  {
    var site := Site(id, false, 0, 0, NEW_CLIENT, [], 0);
    assert SiteOk(site, []);
    hide SiteOk;
  }

  lemma SiteGone(sites: map<Connection, Site>, mails: map<Connection, seq<Msg>>, c: Connection)
    requires MailOk(sites, mails) && c in sites
    ensures MailOk(sites - {c}, mails - {c})
  {
    hide SiteOk;
  }

  lemma StartFits()
    ensures GameOk(Start())
  {
  }

  lemma {:induction false} RunFits(g: Game, steps: seq<Step>)
    requires GameOk(g) && Possible(g, steps) && CleanRun(g, steps)
    ensures GameOk(After(g, steps))
    decreases |steps|
  {
    hide GameOk, Enabled, Next, Clean;
    if steps != [] {
      NextFits(g, steps[0]);
      RunFits(Next(g, steps[0]), steps[1..]);
    }
  }

  /** In every clean run, a client that knows its identifier has been validated, the identifier is that of
      its own member of the server's list, and its own player is in its map. */
  lemma OwnPlayerKnown(steps: seq<Step>, c: Connection)
    requires Possible(Start(), steps) && CleanRun(Start(), steps)
    ensures var g := After(Start(), steps);
            c in g.sites && g.sites[c].client.clientID >= 0 ==>
              var id := AsUint32(g.sites[c].client.clientID);
              g.sites[c].joined && Member(c, id) in g.lobby.list && id in g.sites[c].client.players
  {
    hide Possible, After, CleanRun, GameOk;
    StartFits();
    RunFits(Start(), steps);
    var g := After(Start(), steps);
    if c in g.sites && g.sites[c].client.clientID >= 0 {
      OwnIsKnown(g, c);
    }
  }

  lemma OwnIsKnown(g: Game, c: Connection)
    requires GameOk(g) && c in g.sites && g.sites[c].client.clientID >= 0
    ensures var id := AsUint32(g.sites[c].client.clientID);
            g.sites[c].joined && Member(c, id) in g.lobby.list && id in g.sites[c].client.players
  {
    OkAt(g.sites, g.lobby.mails, c);
    WordIntAgree(g.sites[c].id, 0);
  }
}
