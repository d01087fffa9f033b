/** Who is in a client's map of players, over whole runs of the system: players join, report, are killed
    and leave, a broadcast finds a closed connection in the middle of its loop, and messages are under
    way. */
module Presence {
  import opened Common
  import opened Message
  import opened Connection
  import opened Codec
  import opened Protocol
  import opened FreeGrid
  import opened Lobbies
  import opened Game
  import opened Relays
  import opened Mailboxes
  import T = Transport
  import E = EndpointRuns
  import Client

  // ---------------------------------------------------------------- the keys of one client

  /** The keys of the client's map once it has handled its mail. */
  function EndKeys(s: Site, mail: seq<Msg>): set<uint32>
    requires s.heard <= |mail|
  {
    match Client.AllHandled(s.client, Client.FromServer(mail[s.heard..]))
    case None => {}
    case Some(t) => t.players.Keys
  }

  /** What a client will have are the server's players, all of them if it has joined, and others that
      have left the list for good. */
  predicate KeysOk(keys: set<uint32>, joined: bool, players: set<uint32>, ids: set<uint32>, nextId: uint32) {
    && (joined ==> players <= keys)
    && (keys - players) !! ids
    && forall x :: x in keys - players ==> x < nextId
  }

  ghost predicate AllKeysOk(l: Lobby, sites: map<Connection, Site>, nextId: uint32)
    requires MailOk(sites, l.mails)
  {
    forall c :: c in sites ==> SiteKeysOk(sites[c], l.mails[c], l, nextId)
  }

  ghost predicate SiteKeysOk(s: Site, mail: seq<Msg>, l: Lobby, nextId: uint32) {
    SiteOk(s, mail) && KeysOk(EndKeys(s, mail), s.joined, l.players.Keys, Ids(l), nextId)
  }

  lemma KeysAt(l: Lobby, sites: map<Connection, Site>, nextId: uint32, c: Connection)
    requires MailOk(sites, l.mails) && AllKeysOk(l, sites, nextId) && c in sites
    ensures c in l.mails && SiteKeysOk(sites[c], l.mails[c], l, nextId)
  {
    hide SiteKeysOk, SiteOk;
  }

  /** A client's new mail is handled after the rest. */
  lemma EndMore(s: Site, mail: seq<Msg>, more: seq<Msg>)
    requires AllItems(s.id, mail) && s.heard <= |mail|
    ensures var end := Client.AllHandled(s.client, Client.FromServer(mail[s.heard..]));
            && end.Some? && EndKeys(s, mail) == end.value.players.Keys
            && Client.AllHandled(s.client, Client.FromServer((mail + more)[s.heard..]))
               == Client.AllHandled(end.value, Client.FromServer(more))
  {
    hide Client.AllHandled, Client.FromServer, T.Arrived, AllItems;
    EndAsSent(s.client, s.id, mail, s.heard);
    assert (mail + more)[s.heard..] == mail[s.heard..] + more;
    Client.HandledConcat(s.client, mail[s.heard..], more);
  }

  // ---------------------------------------------------------------- one broadcast

  /** The keys of member `j` after its mail from one broadcast: the message's player is put in unless the
      member is ignored, the lost one is taken out, and `Back` comes back. */
  function Back(infos: seq<Info>, j: nat, m: Msg): set<uint32>
    requires j < |infos|
  {
    if LostAt(infos) < j && !infos[j].ignored then Client.Inserts(m) * LostIds(infos) else {}
  }

  function Told(infos: seq<Info>, j: nat, m: Msg): set<uint32>
    requires j < |infos|
  {
    if infos[j].ignored then {} else Client.Inserts(m)
  }

  lemma KeysAfterMail(infos: seq<Info>, j: nat, m: Msg, s: Client.State)
    requires j < |infos| && infos[j].open && (infos[j].ignored || Plain(m))
    ensures var end := Client.AllHandled(s, Client.FromServer(Mail(infos, j, m)));
            end.Some?
            && end.value.players.Keys == (s.players.Keys + Told(infos, j, m) - LostIds(infos)) + Back(infos, j, m)
  {
    if infos[j].ignored {
      MailContents(infos, j, m);
      hide LostAt, Mail, RemovePlayerMsg, Client.Handled;
      if LostAt(infos) < |infos| {
        Client.RemovalHandled(s, infos[LostAt(infos)].id);
        Client.HandledOne(s, RemovePlayerMsg(infos[LostAt(infos)].id));
        assert [] + [RemovePlayerMsg(infos[LostAt(infos)].id)] == [RemovePlayerMsg(infos[LostAt(infos)].id)];
        assert [RemovePlayerMsg(infos[LostAt(infos)].id)] + [] == [RemovePlayerMsg(infos[LostAt(infos)].id)];
      } else {
        assert Client.AllHandled(s, Client.FromServer([])) == Some(s);
      }
    } else {
      ReadableAnywhere(s, m);
      hide LostAt, Mail, Client.Handled, Client.AllHandled, Client.Inserts, LostIds;
      Client.BroadcastPresence(infos, j, m, s);
    }
  }

  /** The same as sets: `told` is who the message puts in, `gone` who was lost, `back` who came back. */
  lemma SetsAfterMail(keys: set<uint32>, joined: bool, players: set<uint32>, ids: set<uint32>, nextId: uint32,
                      told: set<uint32>, gone: set<uint32>, back: set<uint32>)
    requires (joined ==> players - told <= keys) && (keys - players) !! ids
    requires forall x :: x in keys - players ==> x < nextId
    requires told <= players && back <= gone <= ids && forall x :: x in ids ==> x < nextId
    ensures var keys', players' := (keys + told - gone) + back, players - gone;
            && KeysOk(keys', joined, players', ids - gone, nextId)
            && keys' - players' == (keys - players) + back
  {
    var keys', players' := (keys + told - gone) + back, players - gone;
    assert (keys - players) !! gone;
    assert keys' - players' == (keys - players) + back;
    assert joined ==> players' <= keys';
    forall x | x in keys' - players'
      ensures x < nextId && x !in ids - gone
    {
      assert x in keys - players || x in back;
    }
  }

  /** One client after one broadcast about a player of the server. */
  lemma SiteAfter(l: Lobby, sites: map<Connection, Site>, nextId: uint32, m: Msg, ignore: Connection?, c: Connection)
    requires LobbyOk(l, nextId) && Seated(l, sites) && OneClosed(l) && c in sites && c in l.mails
    requires SiteOk(sites[c], l.mails[c]) && (c == ignore || (Plain(m) && Client.Inserts(m) <= l.players.Keys))
    requires var told := if c == ignore then {} else Client.Inserts(m);
             var keys := EndKeys(sites[c], l.mails[c]);
             && (sites[c].joined ==> l.players.Keys - told <= keys) && (keys - l.players.Keys) !! Ids(l)
             && forall x :: x in keys - l.players.Keys ==> x < nextId
    ensures var l', infos, j := Broadcast(l, m, ignore), SeenBy(l, ignore), PlaceOf(l.list, c);
            && j < |infos| && c in l'.mails && SiteKeysOk(sites[c], l'.mails[c], l', nextId)
            && EndKeys(sites[c], l'.mails[c]) - l'.players.Keys
               == (EndKeys(sites[c], l.mails[c]) - l.players.Keys) + Back(infos, j, m)
  {
    var s, mail := sites[c], l.mails[c];
    var l', infos, j := Broadcast(l, m, ignore), SeenBy(l, ignore), PlaceOf(l.list, c);
    var more := MailTo(l.list, infos, c, m);
    BroadcastOk(l, nextId, sites, m, ignore);
    BroadcastKeeps(l, m, ignore);
    MailAfter(l, m, ignore, c);
    SeatIs(l, c, s.id);
    LostAreIds(l, ignore);
    MoreMail(l, m, ignore, c, s.id);
    ItemsAt(s, mail);
    hide LobbyOk, Seated, OneClosed, SiteOk, EndKeys, Ids, Plain, Client.Inserts, Broadcast, SeenBy, PlaceOf, Mail,
      AllItems, NoSnapshot, LostIds, LostAt;
    GrownOk(s, mail, more);
    EndMore(s, mail, more);
    var end := Client.AllHandled(s.client, Client.FromServer(mail[s.heard..])).value;
    KeysAfterMail(infos, j, m, end);
    SetsAfterMail(EndKeys(s, mail), s.joined, l.players.Keys, Ids(l), nextId, Told(infos, j, m), LostIds(infos),
                  Back(infos, j, m));
    EndIs(s, l'.mails[c]);
  }

  lemma EndIs(s: Site, mail: seq<Msg>)
    requires s.heard <= |mail|
    ensures Client.AllHandled(s.client, Client.FromServer(mail[s.heard..])).Some? ==>
              EndKeys(s, mail) == Client.AllHandled(s.client, Client.FromServer(mail[s.heard..])).value.players.Keys
  {
  }

  lemma LostAreIds(l: Lobby, ignore: Connection?)
    ensures LostIds(SeenBy(l, ignore)) <= Ids(l)
  {
    var infos := SeenBy(l, ignore);
    assert LostAt(infos) < |infos| ==> infos[LostAt(infos)].id == l.list[LostAt(infos)].id;
  }

  /** What a client will have and the server has not, once it has handled its mail. */
  function Strangers(l: Lobby, sites: map<Connection, Site>, c: Connection): set<uint32> {
    if c in sites && c in l.mails && sites[c].heard <= |l.mails[c]|
    then EndKeys(sites[c], l.mails[c]) - l.players.Keys else {}
  }

  lemma BroadcastKeys(l: Lobby, sites: map<Connection, Site>, nextId: uint32, m: Msg, ignore: Connection?)
    requires LobbyOk(l, nextId) && Seated(l, sites) && OneClosed(l) && MailOk(sites, l.mails)
    requires AllKeysOk(l, sites, nextId)
    requires NobodyBut(l, ignore) || (Plain(m) && Client.Inserts(m) <= l.players.Keys)
    ensures var l' := Broadcast(l, m, ignore);
            && LobbyOk(l', nextId) && Seated(l', sites) && OneClosed(l') && MailOk(sites, l'.mails)
            && AllKeysOk(l', sites, nextId)
  {
    BroadcastOk(l, nextId, sites, m, ignore);
    TidyOf(l, nextId);
    var l' := Broadcast(l, m, ignore);
    hide LobbyOk, OneClosed, MailOk, SiteKeysOk, Broadcast, Plain, Client.Inserts, Tidy;
    BroadcastFits(l, sites, m, ignore);
    forall c | c in sites
      ensures c in l'.mails && SiteKeysOk(sites[c], l'.mails[c], l', nextId)
    {
      SiteBroadcast(l, sites, nextId, m, ignore, c);
    }
  }

  lemma SiteBroadcast(l: Lobby, sites: map<Connection, Site>, nextId: uint32, m: Msg, ignore: Connection?,
                      c: Connection)
    requires LobbyOk(l, nextId) && Seated(l, sites) && OneClosed(l) && MailOk(sites, l.mails) && c in sites
    requires AllKeysOk(l, sites, nextId)
    requires c == ignore || (Plain(m) && Client.Inserts(m) <= l.players.Keys)
    ensures var l', infos, j := Broadcast(l, m, ignore), SeenBy(l, ignore), PlaceOf(l.list, c);
            && j < |infos| && c in l'.mails && SiteKeysOk(sites[c], l'.mails[c], l', nextId)
            && Strangers(l', sites, c) == Strangers(l, sites, c) + Back(infos, j, m)
  {
    KeysAt(l, sites, nextId, c);
    hide LobbyOk, Seated, OneClosed, MailOk, SiteOk, EndKeys, Ids, Plain, Client.Inserts, Broadcast, SeenBy, PlaceOf,
      Back, AllKeysOk;
    SiteAfter(l, sites, nextId, m, ignore, c);
    ItemsAt(sites[c], l.mails[c]);
    ItemsAt(sites[c], Broadcast(l, m, ignore).mails[c]);
  }

  // ---------------------------------------------------------------- the server's handlers

  lemma CellInsertsNothing(q: Position)
    ensures Client.Inserts(CellMsg(NEW_POWERUP, q)) == {} && Client.Inserts(CellMsg(POWERUP_EATEN, q)) == {}
  {
  }

  lemma InsertsOne(id: uint32, n: int32, p: PlayerData)
    requires Countable(p.tail)
    ensures Client.Inserts(IntMsg(KILL_PLAYER, n)) == {AsUint32(n)}
    ensures Client.Inserts(PlayerMsg(id, p)) == {id}
  {
    hide Push, Pop, PushPlayer, PopPlayer;
    PopPush([], Int(n));
    PlayerRoundTrip([], id, p.color, p.tail);
  }

  /** A report that names player `id`, as the program's own client reports its own player. */
  predicate OwnReport(m: Msg, id: uint32) {
    m.header.id == UPDATE_PLAYER ==>
      ParseUpdate(m.body).Some? && AsUint32(ParseUpdate(m.body).value.id) == id
  }

  lemma ReportInserts(m: Msg, id: uint32)
    requires m.header.id == UPDATE_PLAYER && OwnReport(m, id)
    ensures Client.Inserts(m) == {id} && (Consistent(m) ==> Plain(m))
  {
    if Consistent(m) {
      ReportIsPlain(m);
    }
    hide ParseUpdate, Plain, Consistent;
  }

  /** The players are others, but the same ones. */
  lemma StoredKeys(l: Lobby, sites: map<Connection, Site>, nextId: uint32, players: map<uint32, PlayerData>)
    requires MailOk(sites, l.mails) && AllKeysOk(l, sites, nextId) && players.Keys == l.players.Keys
    ensures AllKeysOk(l.(players := players), sites, nextId)
  {
    hide SiteOk, EndKeys, MailOk;
    assert Ids(l.(players := players)) == Ids(l);
    hide Ids;
  }

  /** The lobby after a report is relayed and stored. */
  ghost function StoredLobby(l: Lobby, c: Connection, id: uint32, m: Msg): Lobby
    requires ParseUpdate(m.body).Some? && id in LeftBy(l, c)
  {
    var told := Broadcast(l, m, c);
    BroadcastShape(l, m, c);
    told.(players := Stored(told.players, id, m.body))
  }

  /** A kill is broadcast after the report `m` of player `id`, and that player's own connection is found
      closed, with client `d` behind it in the list. */
  ghost predicate KillFindsGone(l: Lobby, c: Connection, id: uint32, m: Msg, d: Connection) {
    && m.header.id == UPDATE_PLAYER && ParseUpdate(m.body).Some? && id in LeftBy(l, c)
    && var stored := StoredLobby(l, c, id, m);
       && Hit(stored.players, AsUint32(ParseUpdate(m.body).value.id))
       && LostIds(SeenBy(stored, null)) == {id} && LostAt(SeenBy(stored, null)) < PlaceOf(stored.list, d)
  }

  /** What a relayed report puts in, and that its player is not the one that is lost on the way. */
  lemma RelayFacts(l: Lobby, c: Connection, id: uint32, m: Msg)
    requires m.header.id == UPDATE_PLAYER && OwnReport(m, id) && id in LeftBy(l, c)
    ensures Client.Inserts(m) == {id} && Client.Inserts(m) <= l.players.Keys && (Consistent(m) ==> Plain(m))
    ensures Client.Inserts(m) * LostIds(SeenBy(l, c)) == {}
    ensures ParseUpdate(m.body).Some? && AsUint32(ParseUpdate(m.body).value.id) == id
  {
    ReportInserts(m, id);
    hide ParseUpdate, Client.Inserts, Plain, Consistent, SeenBy, LostAt;
  }

  lemma NoBack(infos: seq<Info>, j: nat, m: Msg)
    requires j < |infos| && Client.Inserts(m) * LostIds(infos) == {}
    ensures Back(infos, j, m) == {}
  {
    hide Client.Inserts, LostIds;
  }

  lemma StoredLobbyIs(l: Lobby, c: Connection, id: uint32, m: Msg)
    requires ParseUpdate(m.body).Some? && id in LeftBy(l, c)
    ensures var stored, told := StoredLobby(l, c, id, m), Broadcast(l, m, c);
            && stored == told.(players := stored.players) && stored.players.Keys == told.players.Keys
            && id in stored.players
  {
    BroadcastShape(l, m, c);
    hide Broadcast, ParseUpdate;
  }

  lemma RelayKeys(l: Lobby, sites: map<Connection, Site>, nextId: uint32, c: Connection, id: uint32, m: Msg)
    requires LobbyOk(l, nextId) && Seated(l, sites) && OneClosed(l) && MailOk(sites, l.mails)
    requires AllKeysOk(l, sites, nextId)
    requires m.header.id == UPDATE_PLAYER && OwnReport(m, id) && id in LeftBy(l, c)
    requires Consistent(m) || NobodyBut(l, c)
    ensures var stored := StoredLobby(l, c, id, m);
            && LobbyOk(stored, nextId) && Seated(stored, sites) && OneClosed(stored) && MailOk(sites, stored.mails)
            && AllKeysOk(stored, sites, nextId) && id in stored.players
  {
    hide LobbyOk, Seated, OneClosed, MailOk, AllKeysOk, Broadcast, ParseUpdate, Client.Inserts, Plain, Consistent,
      NobodyBut, Stored, LeftBy, StoredLobby;
    RelayFacts(l, c, id, m);
    BroadcastKeys(l, sites, nextId, m, c);
    StoredLobbyIs(l, c, id, m);
    var told, stored := Broadcast(l, m, c), StoredLobby(l, c, id, m);
    StoredKeys(told, sites, nextId, stored.players);
    assert stored.players.Keys <= Ids(told) by { PlayersSeated(told, nextId); }
    OtherPlayers(told, nextId, sites, stored.players);
  }

  lemma PlayersSeated(l: Lobby, nextId: uint32)
    requires LobbyOk(l, nextId)
    ensures l.players.Keys <= Ids(l)
  {
  }

  lemma RelayStrangers(l: Lobby, sites: map<Connection, Site>, nextId: uint32, c: Connection, id: uint32, m: Msg,
                       d: Connection)
    requires LobbyOk(l, nextId) && Seated(l, sites) && OneClosed(l) && MailOk(sites, l.mails) && d in sites
    requires AllKeysOk(l, sites, nextId)
    requires m.header.id == UPDATE_PLAYER && OwnReport(m, id) && id in LeftBy(l, c)
    requires Consistent(m) || NobodyBut(l, c)
    ensures Strangers(StoredLobby(l, c, id, m), sites, d) == Strangers(l, sites, d)
  {
    hide LobbyOk, Seated, OneClosed, MailOk, AllKeysOk, Broadcast, ParseUpdate, Client.Inserts, Plain, Consistent,
      EndKeys, SeenBy, PlaceOf, SiteKeysOk, LeftBy, StoredLobby, LostIds, Back, NobodyBut, Strangers;
    OnlyOne(l, sites, c, d);
    RelayFacts(l, c, id, m);
    SiteBroadcast(l, sites, nextId, m, c, d);
    NoBack(SeenBy(l, c), PlaceOf(l.list, d), m);
    StoredLobbyIs(l, c, id, m);
    SameStrangers(Broadcast(l, m, c), StoredLobby(l, c, id, m), sites, d);
  }

  lemma SameStrangers(l: Lobby, l': Lobby, sites: map<Connection, Site>, d: Connection)
    requires l' == l.(players := l'.players) && l'.players.Keys == l.players.Keys
    ensures Strangers(l', sites, d) == Strangers(l, sites, d)
  {
    hide EndKeys;
  }

  lemma OnlyOne(l: Lobby, sites: map<Connection, Site>, c: Connection, d: Connection)
    requires Seated(l, sites) && d in sites
    ensures d in l.mails && (NobodyBut(l, c) ==> d == c)
  {
  }

  ghost function Kill(m: Msg): Msg
    requires ParseUpdate(m.body).Some?
  {
    IntMsg(KILL_PLAYER, ParseUpdate(m.body).value.id)
  }

  lemma ReportedIs(l: Lobby, c: Connection, id: uint32, m: Msg)
    requires Reportable(l, c, id, m.body) && id in LeftBy(l, c)
    ensures ParseUpdate(m.body).Some?
    ensures var stored := StoredLobby(l, c, id, m);
            Reported(l, c, id, m) == if Hit(stored.players, AsUint32(ParseUpdate(m.body).value.id))
                                     then Broadcast(stored, Kill(m), null) else stored
  {
    hide Broadcast, ParseUpdate, Hit, HeadReadable, IntMsg;
  }

  lemma KillFacts(m: Msg, id: uint32)
    requires m.header.id == UPDATE_PLAYER && OwnReport(m, id)
    ensures ParseUpdate(m.body).Some? && Plain(Kill(m)) && Client.Inserts(Kill(m)) == {id}
  {
    KillIsPlain(ParseUpdate(m.body).value.id);
    InsertsOne(id, ParseUpdate(m.body).value.id, NewPlayer(ORIGIN, 0));
    hide ParseUpdate, Plain, Client.Inserts, IntMsg;
  }

  lemma ReportKeys(l: Lobby, sites: map<Connection, Site>, nextId: uint32, c: Connection, id: uint32, m: Msg)
    requires LobbyOk(l, nextId) && Seated(l, sites) && OneClosed(l) && MailOk(sites, l.mails)
    requires AllKeysOk(l, sites, nextId)
    requires m.header.id == UPDATE_PLAYER && OwnReport(m, id) && Reportable(l, c, id, m.body) && id in LeftBy(l, c)
    requires Consistent(m) || NobodyBut(l, c)
    ensures MailOk(sites, Reported(l, c, id, m).mails) && AllKeysOk(Reported(l, c, id, m), sites, nextId)
  {
    hide LobbyOk, Seated, OneClosed, MailOk, AllKeysOk, Broadcast, Client.Inserts, Plain, Consistent, NobodyBut,
      LeftBy, StoredLobby, Reported, Hit, Reportable, Kill, OwnReport;
    ReportedIs(l, c, id, m);
    RelayKeys(l, sites, nextId, c, id, m);
    KillFacts(m, id);
    BroadcastKeys(StoredLobby(l, c, id, m), sites, nextId, Kill(m), null);
  }

  lemma KillBack(stored: Lobby, d: Connection, id: uint32, m: Msg)
    requires Client.Inserts(m) == {id} && PlaceOf(stored.list, d) < |SeenBy(stored, null)|
    ensures Back(SeenBy(stored, null), PlaceOf(stored.list, d), m)
            == if LostIds(SeenBy(stored, null)) == {id} && LostAt(SeenBy(stored, null)) < PlaceOf(stored.list, d)
               then {id} else {}
  {
    hide LostAt, Client.Inserts, PlaceOf;
  }

  lemma KillFindsIs(l: Lobby, c: Connection, id: uint32, m: Msg, d: Connection)
    requires m.header.id == UPDATE_PLAYER && ParseUpdate(m.body).Some? && id in LeftBy(l, c)
    ensures var stored := StoredLobby(l, c, id, m);
            KillFindsGone(l, c, id, m, d) <==>
              Hit(stored.players, AsUint32(ParseUpdate(m.body).value.id))
              && LostIds(SeenBy(stored, null)) == {id} && LostAt(SeenBy(stored, null)) < PlaceOf(stored.list, d)
  {
    hide ParseUpdate, Hit, LostAt, SeenBy, PlaceOf, StoredLobby, LeftBy;
  }

  lemma ReportStrangers(l: Lobby, sites: map<Connection, Site>, nextId: uint32, c: Connection, id: uint32, m: Msg,
                        d: Connection)
    requires LobbyOk(l, nextId) && Seated(l, sites) && OneClosed(l) && MailOk(sites, l.mails) && d in sites
    requires AllKeysOk(l, sites, nextId)
    requires m.header.id == UPDATE_PLAYER && OwnReport(m, id) && Reportable(l, c, id, m.body) && id in LeftBy(l, c)
    requires Consistent(m) || NobodyBut(l, c)
    ensures Strangers(Reported(l, c, id, m), sites, d)
            == Strangers(l, sites, d) + if KillFindsGone(l, c, id, m, d) then {id} else {}
  {
    hide LobbyOk, Seated, OneClosed, MailOk, AllKeysOk, Broadcast, Client.Inserts, Plain, Consistent, NobodyBut,
      LeftBy, StoredLobby, Reported, Hit, Reportable, Kill, OwnReport, KillFindsGone, Strangers, LostIds, LostAt,
      SeenBy, PlaceOf, Back, SiteKeysOk;
    ReportedIs(l, c, id, m);
    KillFindsIs(l, c, id, m, d);
    var stored := StoredLobby(l, c, id, m);
    RelayKeys(l, sites, nextId, c, id, m);
    RelayStrangers(l, sites, nextId, c, id, m, d);
    KillFacts(m, id);
    if Hit(stored.players, AsUint32(ParseUpdate(m.body).value.id)) {
      SiteBroadcast(stored, sites, nextId, Kill(m), null, d);
      KillBack(stored, d, id, Kill(m));
    }
  }

  // ---------------------------------------------------------------- any message

  lemma EatenKeys(l: Lobby, sites: map<Connection, Site>, nextId: uint32, c: Connection, p: Position, q: Position)
    requires LobbyOk(l, nextId) && Seated(l, sites) && OneClosed(l) && MailOk(sites, l.mails)
    requires AllKeysOk(l, sites, nextId)
    ensures MailOk(sites, Replaced(l, c, p, q).mails) && AllKeysOk(Replaced(l, c, p, q), sites, nextId)
  {
    CellIsPlain(POWERUP_EATEN, p);
    CellIsPlain(NEW_POWERUP, q);
    CellInsertsNothing(p);
    CellInsertsNothing(q);
    hide LobbyOk, Seated, OneClosed, MailOk, AllKeysOk, Broadcast, Client.Inserts, Plain, CellMsg;
    BroadcastKeys(l, sites, nextId, CellMsg(POWERUP_EATEN, p), c);
    BroadcastKeys(Broadcast(l, CellMsg(POWERUP_EATEN, p), c), sites, nextId, CellMsg(NEW_POWERUP, q), null);
  }

  lemma QuietStrangers(l: Lobby, sites: map<Connection, Site>, nextId: uint32, m: Msg, ignore: Connection?,
                       d: Connection)
    requires LobbyOk(l, nextId) && Seated(l, sites) && OneClosed(l) && MailOk(sites, l.mails) && d in sites
    requires AllKeysOk(l, sites, nextId) && (d == ignore || Plain(m)) && Client.Inserts(m) == {}
    ensures Strangers(Broadcast(l, m, ignore), sites, d) == Strangers(l, sites, d)
  {
    hide LobbyOk, Seated, OneClosed, MailOk, AllKeysOk, Broadcast, Client.Inserts, Plain, SeenBy, PlaceOf, Back,
      SiteOk, SiteKeysOk, LostIds, EndKeys, Strangers;
    SiteBroadcast(l, sites, nextId, m, ignore, d);
    NoBack(SeenBy(l, ignore), PlaceOf(l.list, d), m);
  }

  lemma EatenStrangers(l: Lobby, sites: map<Connection, Site>, nextId: uint32, c: Connection, p: Position, q: Position,
                       d: Connection)
    requires LobbyOk(l, nextId) && Seated(l, sites) && OneClosed(l) && MailOk(sites, l.mails) && d in sites
    requires AllKeysOk(l, sites, nextId)
    ensures Strangers(Replaced(l, c, p, q), sites, d) == Strangers(l, sites, d)
  {
    CellIsPlain(POWERUP_EATEN, p);
    CellIsPlain(NEW_POWERUP, q);
    CellInsertsNothing(p);
    CellInsertsNothing(q);
    hide LobbyOk, Seated, OneClosed, MailOk, AllKeysOk, Broadcast, Client.Inserts, Plain, CellMsg, Strangers;
    BroadcastKeys(l, sites, nextId, CellMsg(POWERUP_EATEN, p), c);
    QuietStrangers(l, sites, nextId, CellMsg(POWERUP_EATEN, p), c, d);
    QuietStrangers(Broadcast(l, CellMsg(POWERUP_EATEN, p), c), sites, nextId, CellMsg(NEW_POWERUP, q), null, d);
  }

  lemma AnswerKeys(g: Game, c: Connection, id: uint32, m: Msg, q: Position)
    requires GameOk(g) && AllKeysOk(g.lobby, g.sites, g.nextId)
    requires Answers(g, c, id, m, q) && RelayedWhole(g.lobby, c, m) && OwnReport(m, id)
    ensures var l := AfterMessage(g.powerups, g.lobby, c, id, m, q).1;
            MailOk(g.sites, l.mails) && AllKeysOk(l, g.sites, g.nextId)
  {
    if m.header.id == START_GAME {
      NoInserts(m);
    }
    hide LobbyOk, Seated, OneClosed, PowerupsOk, StraysOk, MailOk, AllKeysOk, Broadcast, Client.Inserts, Plain,
      Consistent, NobodyBut, LeftBy, Reported, Replaced, Reportable, OwnReport, Free;
    if m.header.id == POWERUP_EATEN {
      EatenKeys(g.lobby, g.sites, g.nextId, c, Pop(m.body, CellKind).value.0.cell, q);
    } else if m.header.id == UPDATE_PLAYER {
      ReportKeys(g.lobby, g.sites, g.nextId, c, id, m);
    } else if m.header.id == START_GAME {
      BroadcastKeys(g.lobby, g.sites, g.nextId, m, null);
    }
  }

  lemma NoInserts(m: Msg)
    requires m.header.id == START_GAME
    ensures Client.Inserts(m) == {} && (Consistent(m) ==> Plain(m))
  {
  }

  /** Exactly such kills make new strangers, and strangers stay. */
  lemma AnswerStrangers(g: Game, c: Connection, id: uint32, m: Msg, q: Position, d: Connection)
    requires GameOk(g) && AllKeysOk(g.lobby, g.sites, g.nextId) && d in g.sites
    requires Answers(g, c, id, m, q) && RelayedWhole(g.lobby, c, m) && OwnReport(m, id)
    ensures Strangers(AfterMessage(g.powerups, g.lobby, c, id, m, q).1, g.sites, d)
            == Strangers(g.lobby, g.sites, d) + if KillFindsGone(g.lobby, c, id, m, d) then {id} else {}
  {
    hide LobbyOk, Seated, OneClosed, PowerupsOk, StraysOk, MailOk, AllKeysOk, Broadcast, Client.Inserts, Plain,
      Consistent, NobodyBut, LeftBy, Reported, Replaced, Reportable, OwnReport, Free, KillFindsGone, Strangers, SiteOk;
    KillsByReports(g.lobby, c, id, m, d);
    if m.header.id == POWERUP_EATEN {
      EatenStrangers(g.lobby, g.sites, g.nextId, c, Pop(m.body, CellKind).value.0.cell, q, d);
    } else if m.header.id == UPDATE_PLAYER {
      ReportStrangers(g.lobby, g.sites, g.nextId, c, id, m, d);
    } else if m.header.id == START_GAME {
      NoInserts(m);
      NotNobody(g.lobby, g.sites, d);
      QuietStrangers(g.lobby, g.sites, g.nextId, m, null, d);
    }
  }

  lemma NotNobody(l: Lobby, sites: map<Connection, Site>, d: Connection)
    requires Seated(l, sites) && d in sites
    ensures !NobodyBut(l, null)
  {
    assert d in l.mails;
  }

  lemma KillsByReports(l: Lobby, c: Connection, id: uint32, m: Msg, d: Connection)
    ensures KillFindsGone(l, c, id, m, d) ==> m.header.id == UPDATE_PLAYER
  {
  }

  // ---------------------------------------------------------------- joining

  /** The newcomer once its snapshot is sent. */
  lemma SnapshotKeys(s: Site, mail: seq<Msg>, m: Msg, players: map<uint32, PlayerData>, powerups: seq<Position>,
                     ids: set<uint32>, nextId: uint32, before: set<uint32>)
    requires SiteOk(s, mail) && IsSnapshot(m, players, powerups, s.id) && s.id in ids
    requires KeysOk(EndKeys(s, mail), s.joined, before, ids, nextId) && players.Keys == before + {s.id}
    ensures s.heard <= |mail + [m]|
    ensures var keys := EndKeys(Joined(s, |powerups|), mail + [m]);
            && players.Keys <= keys && keys - players.Keys == EndKeys(s, mail) - before
  {
    hide SiteOk, IsSnapshot, EndKeys;
    ItemsAt(s, mail);
    EndMore(s, mail, [m]);
    var end := Client.AllHandled(s.client, Client.FromServer(mail[s.heard..])).value;
    SnapshotKnown(end, m, players, powerups, s.id);
    Client.HandledOne(end, m);
    EndIs(Joined(s, |powerups|), mail + [m]);
  }

  lemma OthersKeys(keys: set<uint32>, joined: bool, before: set<uint32>, ids: set<uint32>, nextId: uint32, id: uint32)
    requires KeysOk(keys, joined, before, ids, nextId) && id in ids
    ensures (joined ==> (before + {id}) - {id} <= keys) && keys - (before + {id}) == keys - before
  {
  }

  /** What the announcement finds: everyone who has joined will know everyone but the newcomer, who will
      know all. */
  predicate Expecting(l: Lobby, sites: map<Connection, Site>, nextId: uint32, c: Connection, id: uint32, d: Connection)
    requires d in sites && d in l.mails && sites[d].heard <= |l.mails[d]|
  {
    var keys := EndKeys(sites[d], l.mails[d]);
    && (sites[d].joined ==> l.players.Keys - (if d == c then {} else {id}) <= keys)
    && (keys - l.players.Keys) !! Ids(l) && forall x :: x in keys - l.players.Keys ==> x < nextId
  }

  lemma ExpectingIs(l: Lobby, l': Lobby, sites: map<Connection, Site>, sites': map<Connection, Site>, nextId: uint32,
                    c: Connection, id: uint32, d: Connection)
    requires d in sites && d in l.mails && d in sites' && d in l'.mails
    requires sites[d].heard <= |l.mails[d]| && sites'[d].heard <= |l'.mails[d]|
    requires l'.players.Keys == l.players.Keys + {id} && Ids(l') == Ids(l) && id in Ids(l)
    requires KeysOk(EndKeys(sites[d], l.mails[d]), sites[d].joined, l.players.Keys, Ids(l), nextId)
    requires var keys, keys' := EndKeys(sites[d], l.mails[d]), EndKeys(sites'[d], l'.mails[d]);
             if d == c then l'.players.Keys <= keys' && keys' - l'.players.Keys == keys - l.players.Keys
             else keys' == keys && sites'[d].joined == sites[d].joined
    ensures Expecting(l', sites', nextId, c, id, d) && Strangers(l', sites', d) == Strangers(l, sites, d)
  {
    hide EndKeys, Ids;
    if d != c {
      OthersKeys(EndKeys(sites[d], l.mails[d]), sites[d].joined, l.players.Keys, Ids(l), nextId, id);
    }
  }

  lemma NewcomerIs(g: Game, s: Step)
    requires s.Validates? && s.c in g.sites && s.c in g.lobby.mails && Member(s.c, g.sites[s.c].id) in g.lobby.list
    ensures var l, id := WithNewcomer(g, s), g.sites[s.c].id;
            && Ids(l) == Ids(g.lobby) && id in Ids(l) && l.players.Keys == g.lobby.players.Keys + {id}
            && l.players == g.lobby.players[id := NewPlayer(s.spawn, s.color)]
            && l.mails == g.lobby.mails[s.c := g.lobby.mails[s.c] + [s.snapshot]]
  {
    SeatInIds(g.lobby, s.c, g.sites[s.c].id);
    SameIds(g.lobby, WithNewcomer(g, s));
  }

  /** One client once the newcomer's player is entered and its snapshot sent. */
  lemma NewcomerSite(g: Game, s: Step, d: Connection)
    requires GameOk(g) && AllKeysOk(g.lobby, g.sites, g.nextId) && d in g.sites
    requires s.Validates? && s.c in g.sites && IsSnapshot(s.snapshot,
      g.lobby.players[g.sites[s.c].id := NewPlayer(s.spawn, s.color)], g.powerups, g.sites[s.c].id)
    ensures s.c in g.lobby.mails
    ensures var l, sites := WithNewcomer(g, s), WithJoined(g, s.c);
            && d in l.mails && sites[d].heard <= |l.mails[d]|
            && Expecting(l, sites, g.nextId, s.c, g.sites[s.c].id, d)
            && Strangers(l, sites, d) == Strangers(g.lobby, g.sites, d)
  {
    hide LobbyOk, PowerupsOk, StraysOk, OneClosed, MailOk, AllKeysOk, SiteOk, KeysOk, IsSnapshot, Consistent, EndKeys,
      Ids, WithNewcomer, Strangers, Expecting;
    var id, c := g.sites[s.c].id, s.c;
    NewcomerIs(g, s);
    KeysAt(g.lobby, g.sites, g.nextId, d);
    ItemsAt(g.sites[d], g.lobby.mails[d]);
    if d == c {
      SnapshotKeys(g.sites[c], g.lobby.mails[c], s.snapshot, WithNewcomer(g, s).players, g.powerups, Ids(g.lobby),
                   g.nextId, g.lobby.players.Keys);
    }
    ExpectingIs(g.lobby, WithNewcomer(g, s), g.sites, WithJoined(g, c), g.nextId, c, id, d);
  }

  /** One client once the newcomer's player is announced. */
  lemma IntroducedSite(g: Game, s: Step, d: Connection)
    requires GameOk(g) && AllKeysOk(g.lobby, g.sites, g.nextId) && d in g.sites
    requires s.Validates? && s.c in g.sites && !g.sites[s.c].joined && OneClosed(g.lobby) && Consistent(s.snapshot)
    requires IsSnapshot(s.snapshot, g.lobby.players[g.sites[s.c].id := NewPlayer(s.spawn, s.color)], g.powerups,
                        g.sites[s.c].id)
    ensures s.c in g.lobby.mails
    ensures var l := Introduced(g.lobby, s.c, g.sites[s.c].id, NewPlayer(s.spawn, s.color), s.snapshot);
            var sites := WithJoined(g, s.c);
            && d in l.mails && SiteKeysOk(sites[d], l.mails[d], l, g.nextId)
            && Strangers(l, sites, d) == Strangers(g.lobby, g.sites, d)
  {
    var id, p, c := g.sites[s.c].id, NewPlayer(s.spawn, s.color), s.c;
    hide WellFormed, LobbyOk, Seated, OneClosed, MailOk, AllKeysOk, SiteOk, IsSnapshot, Consistent, Broadcast,
      PlayerMsg, Plain, Client.Inserts, EndKeys, Ids, Strangers;
    NewcomerFits(g, s);
    NewcomerSite(g, s, d);
    AnnouncementIsPlain(id, s.spawn, s.color);
    InsertsOne(id, 0, p);
    AnnouncedSite(WithNewcomer(g, s), WithJoined(g, c), g.nextId, PlayerMsg(id, p), c, id, d);
  }

  lemma AnnouncedSite(l: Lobby, sites: map<Connection, Site>, nextId: uint32, m: Msg, c: Connection, id: uint32,
                      d: Connection)
    requires LobbyOk(l, nextId) && Seated(l, sites) && OneClosed(l) && MailOk(sites, l.mails)
    requires c in sites && sites[c].id == id && id in l.players && Plain(m) && Client.Inserts(m) == {id}
    requires d in sites && d in l.mails && sites[d].heard <= |l.mails[d]| && Expecting(l, sites, nextId, c, id, d)
    ensures var l' := Broadcast(l, m, c);
            && d in l'.mails && SiteKeysOk(sites[d], l'.mails[d], l', nextId)
            && Strangers(l', sites, d) == Strangers(l, sites, d)
  {
    hide LobbyOk, OneClosed, MailOk, SiteOk, Broadcast, Plain, Client.Inserts, EndKeys, Ids, SeenBy, PlaceOf, Back,
      LostIds, Tidy, KeysOk;
    OkAt(sites, l.mails, d);
    TidyOf(l, nextId);
    SiteAfter(l, sites, nextId, m, c, d);
    NotLost(l, nextId, sites, c);
    NoBack(SeenBy(l, c), PlaceOf(l.list, d), m);
    HeardWithin(sites[d], Broadcast(l, m, c).mails[d], Broadcast(l, m, c), nextId);
  }

  lemma HeardWithin(s: Site, mail: seq<Msg>, l: Lobby, nextId: uint32)
    requires SiteKeysOk(s, mail, l, nextId)
    ensures s.heard <= |mail|
  {
  }

  lemma SeatInIds(l: Lobby, c: Connection, id: uint32)
    requires Member(c, id) in l.list
    ensures id in Ids(l)
  {
    var i :| 0 <= i < |l.list| && l.list[i] == Member(c, id);
  }

  lemma SameIds(l: Lobby, l': Lobby)
    requires l.list == l'.list
    ensures Ids(l) == Ids(l')
  {
  }

  lemma {:induction false} AnnouncedKeys(l: Lobby, sites: map<Connection, Site>, nextId: uint32, qs: seq<Position>)
    requires LobbyOk(l, nextId) && Seated(l, sites) && OneClosed(l) && MailOk(sites, l.mails)
    requires AllKeysOk(l, sites, nextId)
    ensures MailOk(sites, Announced(l, qs).mails) && AllKeysOk(Announced(l, qs), sites, nextId)
    ensures forall d :: d in sites ==> Strangers(Announced(l, qs), sites, d) == Strangers(l, sites, d)
    decreases |qs|
  {
    hide LobbyOk, Seated, OneClosed, MailOk, AllKeysOk, Broadcast, Client.Inserts, Plain, CellMsg, Strangers;
    if qs != [] {
      var front, q := qs[..|qs| - 1], qs[|qs| - 1];
      AnnouncedOk(l, nextId, sites, front);
      AnnouncedKeys(l, sites, nextId, front);
      var m := CellMsg(NEW_POWERUP, q);
      CellIsPlain(NEW_POWERUP, q);
      CellInsertsNothing(q);
      BroadcastKeys(Announced(l, front), sites, nextId, m, null);
      forall d | d in sites
        ensures Strangers(Announced(l, qs), sites, d) == Strangers(l, sites, d)
      {
        QuietStrangers(Announced(l, front), sites, nextId, m, null, d);
      }
    }
  }

  lemma ValidatesKeys(g: Game, s: Step)
    requires GameOk(g) && AllKeysOk(g.lobby, g.sites, g.nextId) && Enabled(g, s) && s.Validates? && Clean(g, s)
    ensures var g' := Next(g, s);
            && MailOk(g'.sites, g'.lobby.mails) && AllKeysOk(g'.lobby, g'.sites, g'.nextId)
            && forall d :: d in g.sites ==> Strangers(g'.lobby, g'.sites, d) == Strangers(g.lobby, g.sites, d)
  {
    hide WellFormed, LobbyOk, Seated, OneClosed, MailOk, AllKeysOk, SiteKeysOk, Broadcast, Strangers, IsSnapshot,
      AllDrawn, Filled, Announced, PlayerMsg, Consistent;
    var sites := WithJoined(g, s.c);
    var l := Introduced(g.lobby, s.c, g.sites[s.c].id, NewPlayer(s.spawn, s.color), s.snapshot);
    IntroducedFits(g, s);
    forall d | d in sites
      ensures d in l.mails && SiteKeysOk(sites[d], l.mails[d], l, g.nextId)
      ensures Strangers(l, sites, d) == Strangers(g.lobby, g.sites, d)
    {
      IntroducedSite(g, s, d);
    }
    assert AllKeysOk(l, sites, g.nextId) by { AllKeys(l, sites, g.nextId); }
    AnnouncedKeys(l, sites, g.nextId, s.added);
  }

  lemma AllKeys(l: Lobby, sites: map<Connection, Site>, nextId: uint32)
    requires MailOk(sites, l.mails)
    requires forall d :: d in sites ==> d in l.mails && SiteKeysOk(sites[d], l.mails[d], l, nextId)
    ensures AllKeysOk(l, sites, nextId)
  {
    hide SiteKeysOk;
  }

  lemma IntroducedFits(g: Game, s: Step)
    requires GameOk(g) && Enabled(g, s) && s.Validates? && Clean(g, s)
    ensures var l, sites := Introduced(g.lobby, s.c, g.sites[s.c].id, NewPlayer(s.spawn, s.color), s.snapshot),
                            WithJoined(g, s.c);
            LobbyOk(l, g.nextId) && Seated(l, sites) && OneClosed(l) && MailOk(sites, l.mails)
  {
    var id, p, sites := g.sites[s.c].id, NewPlayer(s.spawn, s.color), WithJoined(g, s.c);
    hide GameOk, LobbyOk, Seated, OneClosed, Broadcast, MailOk, Plain, PlayerMsg, IsSnapshot, AllDrawn, Filled,
      Consistent;
    AnnouncementIsPlain(id, s.spawn, s.color);
    NewcomerFits(g, s);
    BroadcastOk(WithNewcomer(g, s), g.nextId, sites, PlayerMsg(id, p), s.c);
    assert Tidy(WithNewcomer(g, s)) by { TidyOf(WithNewcomer(g, s), g.nextId); }
    BroadcastFits(WithNewcomer(g, s), sites, PlayerMsg(id, p), s.c);
  }

  // ---------------------------------------------------------------- the clients' own steps

  lemma {:induction false} PoppedKeys(body: seq<byte>, n: nat, a: map<uint32, ClientPlayer>,
                                      b: map<uint32, ClientPlayer>)
    requires a.Keys == b.Keys
    ensures PopPlayers(body, n, a).Some? <==> PopPlayers(body, n, b).Some?
    ensures PopPlayers(body, n, a).Some? ==> PopPlayers(body, n, a).value.0.Keys == PopPlayers(body, n, b).value.0.Keys
    decreases n
  {
    hide PopPlayer;
    if n > 0 && PopPlayer(body).Some? {
      var (id, p, rest) := PopPlayer(body).value;
      PoppedKeys(rest, n - 1, a[id := p], b[id := p]);
    }
  }

  /** Which players a client knows after a message depends on nothing but which it knew. */
  lemma SameKeys(s: Client.State, t: Client.State, m: Msg)
    requires s.players.Keys == t.players.Keys && Client.Handled(s, m).Some?
    ensures Client.Handled(t, m).Some?
    ensures Client.Handled(t, m).value.players.Keys == Client.Handled(s, m).value.players.Keys
  {
    hide Pop, PopPowerupList, PopPlayers, PopPlayer, ParseUpdate, RemoveFirst;
    if IsSnapshotMsg(m) {
      var (_, b1) := Pop(m.body, IntKind).value;
      var (_, b2) := PopPowerupList(b1).value;
      var (n, rest) := Pop(b2, SizeKind).value;
      PoppedKeys(rest, n.size, s.players, t.players);
    }
  }

  lemma {:induction false} SameEnd(s: Client.State, t: Client.State, ms: seq<Msg>)
    requires s.players.Keys == t.players.Keys && Client.AllHandled(s, Client.FromServer(ms)).Some?
    ensures var end := Client.AllHandled(t, Client.FromServer(ms));
            end.Some? && end.value.players.Keys == Client.AllHandled(s, Client.FromServer(ms)).value.players.Keys
    decreases |ms|
  {
    hide Client.Handled;
    if ms != [] {
      SameKeys(s, t, ms[0]);
      assert Client.FromServer(ms)[1..] == Client.FromServer(ms[1..]);
      SameEnd(Client.Handled(s, ms[0]).value, Client.Handled(t, ms[0]).value, ms[1..]);
    }
  }

  lemma MovedKeys(s: Site, t: Site, mail: seq<Msg>)
    requires SiteOk(s, mail) && t.heard == s.heard && t.client.players.Keys == s.client.players.Keys
    ensures t.heard <= |mail| && EndKeys(t, mail) == EndKeys(s, mail)
  {
    ItemsAt(s, mail);
    hide SiteOk, Client.AllHandled, Client.FromServer, T.Arrived, AllItems;
    EndAsSent(s.client, s.id, mail, s.heard);
    SameEnd(s.client, t.client, mail[s.heard..]);
  }

  lemma HeardKeys(s: Site, mail: seq<Msg>)
    requires SiteOk(s, mail) && s.heard < |mail| && Client.Handled(s.client, mail[s.heard]).Some?
    ensures EndKeys(Heard(s, mail[s.heard]), mail) == EndKeys(s, mail)
  {
    hide SiteOk, Client.Handled;
    var rest := mail[s.heard..];
    assert rest[1..] == mail[s.heard + 1..];
    assert Client.FromServer(rest)[1..] == Client.FromServer(rest[1..]);
  }

  /** A client's own step leaves its keys at the end alone. */
  lemma OwnStepKeys(g: Game, s: Step)
    requires GameOk(g) && Enabled(g, s) && Clean(g, s) && (s.Hears? || s.Moves? || s.Eats? || s.Sends?)
    ensures var site, site' := g.sites[s.c], Next(g, s).sites[s.c];
            && s.c in g.lobby.mails && site.heard <= |g.lobby.mails[s.c]| && site'.heard <= |g.lobby.mails[s.c]|
            && EndKeys(site', g.lobby.mails[s.c]) == EndKeys(site, g.lobby.mails[s.c]) && site'.joined == site.joined
            && site'.id == site.id && SiteOk(site', g.lobby.mails[s.c])
  {
    hide WellFormed, SiteOk, Inbox, Fed, EndKeys;
    OkAt(g.sites, g.lobby.mails, s.c);
    var site, mail := g.sites[s.c], g.lobby.mails[s.c];
    ItemsAt(site, mail);
    match s {
      case Hears(c) =>
        InboxIs(g, c);
        HeardOk(site, mail);
        HeardSame(site, mail);
        HeardKeys(site, mail);
      case Moves(c, known) =>
        MovedOk(site, mail, known);
        MovedKeys(site, Next(g, s).sites[c], mail);
      case Eats(c, i) =>
        FedOk(site, mail, i);
        FedIsSite(site, i);
        MovedKeys(site, Fed(site, i), mail);
      case Sends(c, m) =>
        SentOk(site, mail, m);
        MovedKeys(site, Next(g, s).sites[c], mail);
    }
    ItemsAt(Next(g, s).sites[s.c], mail);
  }

  lemma FedIsSite(s: Site, i: nat)
    requires i < |s.client.powerups|
    ensures Fed(s, i).heard == s.heard && Fed(s, i).joined == s.joined && Fed(s, i).id == s.id
  {
  }

  lemma OneSiteKeys(l: Lobby, sites: map<Connection, Site>, nextId: uint32, c: Connection, site: Site)
    requires MailOk(sites, l.mails) && AllKeysOk(l, sites, nextId) && c in sites && c in l.mails
    requires SiteOk(site, l.mails[c]) && site.joined == sites[c].joined
    requires sites[c].heard <= |l.mails[c]| && site.heard <= |l.mails[c]|
    requires EndKeys(site, l.mails[c]) == EndKeys(sites[c], l.mails[c])
    ensures MailOk(sites[c := site], l.mails) && AllKeysOk(l, sites[c := site], nextId)
    ensures forall d :: d in sites ==> Strangers(l, sites[c := site], d) == Strangers(l, sites, d)
  {
    hide SiteOk, EndKeys, Ids, KeysOk;
    SiteChanged(sites, l.mails, c, site);
  }

  // ---------------------------------------------------------------- reports

  /** The reports under way name their senders. */
  predicate NamesOk(sites: map<Connection, Site>, queue: seq<Stray>) {
    && (forall c, k :: c in sites && 0 <= k < |sites[c].up| ==> OwnReport(sites[c].up[k], sites[c].id))
    && forall n :: 0 <= n < |queue| ==> OwnReport(queue[n].m, queue[n].id)
  }

  /** A client that reports as the program's own client does: its report carries its identifier. */
  predicate Honest(g: Game, s: Step) {
    s.Sends? && s.c in g.sites && s.m.header.id == UPDATE_PLAYER ==>
      ParseUpdate(s.m.body).Some? && ParseUpdate(s.m.body).value.id == g.sites[s.c].client.clientID
  }

  /** A report comes to the server as it was sent. */
  lemma OwnArrives(s: Site, mail: seq<Msg>, k: nat)
    requires SiteOk(s, mail) && k < |s.up| && OwnReport(s.up[k], s.id)
    ensures k < |Outbox(s)| && OwnReport(Outbox(s)[k], s.id)
  {
    UpConsistent(s, mail);
    E.RedeliveredAt(s.up, k);
    assert UpOk(s.up[k]);
    ReportHasBody(s.up[k]);
    hide SiteOk, E.Redelivered, E.LastBody, ParseUpdate, Outbox;
  }

  lemma ReportHasBody(m: Msg)
    ensures ParseUpdate(m.body).Some? ==> m.body != []
  {
  }

  ghost predicate PresenceOk(g: Game) {
    GameOk(g) && AllKeysOk(g.lobby, g.sites, g.nextId) && NamesOk(g.sites, g.queue)
  }

  lemma SentName(g: Game, s: Step)
    requires PresenceOk(g) && Enabled(g, s) && s.Sends? && Honest(g, s)
    ensures OwnReport(s.m, g.sites[s.c].id)
  {
    OkAt(g.sites, g.lobby.mails, s.c);
    SettledId(g.sites[s.c], g.lobby.mails[s.c]);
    WordIntAgree(g.sites[s.c].id, 0);
    hide GameOk, AllKeysOk, SiteOk, ParseUpdate;
  }

  lemma SettledId(s: Site, mail: seq<Msg>)
    requires SiteOk(s, mail) && s.client.clientID >= 0
    ensures s.client.clientID == AsInt32(s.id)
  {
    hide AllItems, UpOk, IsSnapshotMsg;
  }

  lemma OtherUp(sites: map<Connection, Site>, queue: seq<Stray>, c: Connection, site: Site)
    requires NamesOk(sites, queue) && c in sites && site.id == sites[c].id
    requires site.up == sites[c].up || exists m :: OwnReport(m, site.id) && site.up == sites[c].up + [m]
    ensures NamesOk(sites[c := site], queue)
  {
    hide OwnReport;
  }

  lemma EatIsNoReport(p: Position, id: uint32)
    ensures OwnReport(CellMsg(POWERUP_EATEN, p), id)
  {
  }

  lemma ClosedNames(g: Game, c: Connection, n: nat)
    requires PresenceOk(g) && Enabled(g, Closes(c, n))
    ensures NamesOk(Next(g, Closes(c, n)).sites, Next(g, Closes(c, n)).queue)
  {
    hide WellFormed, MailOk, AllKeysOk, SiteOk, OwnReport, Outbox;
    var site := g.sites[c];
    OkAt(g.sites, g.lobby.mails, c);
    UpConsistent(site, g.lobby.mails[c]);
    var strays := StraysOf(c, site.id, Outbox(site)[site.taken..n]);
    forall k | 0 <= k < |strays|
      ensures OwnReport(strays[k].m, strays[k].id)
    {
      OwnArrives(site, g.lobby.mails[c], site.taken + k);
    }
  }

  lemma NextNames(g: Game, s: Step)
    requires PresenceOk(g) && Enabled(g, s) && Honest(g, s)
    ensures NamesOk(Next(g, s).sites, Next(g, s).queue)
  {
    hide GameOk, AllKeysOk, OwnReport, Answers, AfterMessage, Honest;
    match s
    case Accepts(c) =>
    case Validates(c, _, _, _, _) => OtherUp(g.sites, g.queue, c, Next(g, s).sites[c]);
    case Handles(c, _) => OtherUp(g.sites, g.queue, c, Next(g, s).sites[c]);
    case HandlesStray(n, _) =>
    case Hears(c) => OtherUp(g.sites, g.queue, c, Next(g, s).sites[c]);
    case Moves(c, _) => OtherUp(g.sites, g.queue, c, Next(g, s).sites[c]);
    case Eats(c, i) =>
      EatIsNoReport(g.sites[c].client.powerups[i], g.sites[c].id);
      OtherUp(g.sites, g.queue, c, Next(g, s).sites[c]);
    case Sends(c, m) =>
      SentName(g, s);
      OtherUp(g.sites, g.queue, c, Next(g, s).sites[c]);
    case Closes(c, n) => ClosedNames(g, c, n);
  }

  // ---------------------------------------------------------------- every step

  /** A step in which a player is killed, its own connection found closed, with client `d` behind it. */
  ghost predicate KillsTheLost(g: Game, s: Step, d: Connection)
    requires Enabled(g, s)
  {
    match s
    case Handles(c, _) => KillFindsGone(g.lobby, c, g.sites[c].id, Outbox(g.sites[c])[g.sites[c].taken], d)
    case HandlesStray(n, _) => KillFindsGone(g.lobby, g.queue[n].conn, g.queue[n].id, g.queue[n].m, d)
    case _ => false
  }

  /** Whose message the server handles in such a step. */
  ghost function Killed(g: Game, s: Step): set<uint32>
    requires Enabled(g, s)
  {
    match s
    case Handles(c, _) => {g.sites[c].id}
    case HandlesStray(n, _) => {g.queue[n].id}
    case _ => {}
  }

  /** What one step does to the keys. */
  ghost predicate KeepsKeys(g: Game, s: Step)
    requires Enabled(g, s)
  {
    var g' := Next(g, s);
    && MailOk(g'.sites, g'.lobby.mails) && AllKeysOk(g'.lobby, g'.sites, g'.nextId)
    && forall d :: d in g.sites && d in g'.sites ==>
         Strangers(g'.lobby, g'.sites, d)
         == Strangers(g.lobby, g.sites, d) + if KillsTheLost(g, s, d) then Killed(g, s) else {}
  }

  lemma TakenKeys(l: Lobby, sites: map<Connection, Site>, nextId: uint32, c: Connection)
    requires MailOk(sites, l.mails) && AllKeysOk(l, sites, nextId) && c in sites && sites[c].taken < |sites[c].up|
    ensures var sites' := sites[c := sites[c].(taken := sites[c].taken + 1)];
            && MailOk(sites', l.mails) && AllKeysOk(l, sites', nextId)
            && forall d :: d in sites ==> Strangers(l, sites', d) == Strangers(l, sites, d)
  {
    hide MailOk, AllKeysOk, SiteOk, EndKeys, Strangers;
    OkAt(sites, l.mails, c);
    ItemsAt(sites[c], l.mails[c]);
    TakenOk(sites[c], l.mails[c]);
    MovedKeys(sites[c], sites[c].(taken := sites[c].taken + 1), l.mails[c]);
    OneSiteKeys(l, sites, nextId, c, sites[c].(taken := sites[c].taken + 1));
  }

  lemma HandlesKeys(g: Game, c: Connection, q: Position)
    requires PresenceOk(g) && Enabled(g, Handles(c, q)) && Clean(g, Handles(c, q))
    ensures KeepsKeys(g, Handles(c, q))
  {
    hide WellFormed, MailOk, AllKeysOk, SiteOk, OneClosed, Answerable, Drawn, LeftBy, AfterMessage, RelayedWhole,
      Outbox, OwnReport, Strangers, KillFindsGone;
    var site := g.sites[c];
    OkAt(g.sites, g.lobby.mails, c);
    UpConsistent(site, g.lobby.mails[c]);
    OwnArrives(site, g.lobby.mails[c], site.taken);
    var m := Outbox(site)[site.taken];
    var l := AfterMessage(g.powerups, g.lobby, c, site.id, m, q).1;
    AnswerKeys(g, c, site.id, m, q);
    TakenKeys(l, g.sites, g.nextId, c);
    forall d | d in g.sites
      ensures Strangers(l, g.sites, d)
              == Strangers(g.lobby, g.sites, d) + if KillsTheLost(g, Handles(c, q), d) then {site.id} else {}
    {
      AnswerStrangers(g, c, site.id, m, q, d);
    }
  }

  lemma StrayKeys(g: Game, n: nat, q: Position)
    requires PresenceOk(g) && Enabled(g, HandlesStray(n, q)) && Clean(g, HandlesStray(n, q))
    ensures KeepsKeys(g, HandlesStray(n, q))
  {
    hide WellFormed, MailOk, AllKeysOk, OneClosed, Answerable, Drawn, LeftBy, AfterMessage, RelayedWhole, OwnReport,
      Strangers, KillFindsGone;
    var stray := g.queue[n];
    AnswerKeys(g, stray.conn, stray.id, stray.m, q);
    forall d | d in g.sites
      ensures Strangers(AfterMessage(g.powerups, g.lobby, stray.conn, stray.id, stray.m, q).1, g.sites, d)
              == Strangers(g.lobby, g.sites, d) + if KillsTheLost(g, HandlesStray(n, q), d) then {stray.id} else {}
    {
      AnswerStrangers(g, stray.conn, stray.id, stray.m, q, d);
    }
  }

  lemma MoreIds(keys: set<uint32>, joined: bool, players: set<uint32>, ids: set<uint32>, nextId: uint32)
    requires KeysOk(keys, joined, players, ids, nextId) && nextId < 0xFFFF_FFFF
    ensures KeysOk(keys, joined, players, ids + {nextId}, nextId + 1)
  {
  }

  lemma EnteredKeys(l: Lobby, sites: map<Connection, Site>, nextId: uint32, c: Connection)
    requires MailOk(sites, l.mails) && AllKeysOk(l, sites, nextId) && c !in sites && nextId < 0xFFFF_FFFF
    ensures var l', sites' := Entered(l, c, nextId, []), sites[c := Site(nextId, false, 0, 0, NEW_CLIENT, [], 0)];
            && MailOk(sites', l'.mails) && AllKeysOk(l', sites', nextId + 1)
            && forall d :: d in sites ==> Strangers(l', sites', d) == Strangers(l, sites, d)
  {
    hide SiteOk, MailOk, AllKeysOk, EndKeys, Ids, KeysOk;
    AcceptsFits(sites, l.mails, c, nextId);
    IdsMore(l, c, nextId, []);
    var l', sites' := Entered(l, c, nextId, []), sites[c := Site(nextId, false, 0, 0, NEW_CLIENT, [], 0)];
    forall d | d in sites'
      ensures d in l'.mails && SiteKeysOk(sites'[d], l'.mails[d], l', nextId + 1)
    {
      OkAt(sites', l'.mails, d);
      if d != c {
        KeysAt(l, sites, nextId, d);
        ItemsAt(sites[d], l.mails[d]);
        MoreIds(EndKeys(sites[d], l.mails[d]), sites[d].joined, l.players.Keys, Ids(l), nextId);
      } else {
        NewKeys(nextId, l.players.Keys, Ids(l'), nextId + 1);
      }
    }
    AllKeys(l', sites', nextId + 1);
  }

  lemma NewKeys(id: uint32, players: set<uint32>, ids: set<uint32>, nextId: uint32)
    ensures KeysOk(EndKeys(Site(id, false, 0, 0, NEW_CLIENT, [], 0), []), false, players, ids, nextId)
  {
  }

  lemma ClosedKeys(l: Lobby, sites: map<Connection, Site>, nextId: uint32, c: Connection)
    requires MailOk(sites, l.mails) && AllKeysOk(l, sites, nextId) && c in sites
    ensures var l' := l.(mails := l.mails - {c});
            && MailOk(sites - {c}, l'.mails) && AllKeysOk(l', sites - {c}, nextId)
            && forall d :: d in sites && d != c ==> Strangers(l', sites - {c}, d) == Strangers(l, sites, d)
  {
    SiteGone(sites, l.mails, c);
    SameIds(l, l.(mails := l.mails - {c}));
    hide SiteOk, EndKeys, Ids;
  }

  lemma OwnKeys(g: Game, s: Step)
    requires PresenceOk(g) && Enabled(g, s) && Clean(g, s) && (s.Hears? || s.Moves? || s.Eats? || s.Sends?)
    ensures KeepsKeys(g, s)
  {
    hide WellFormed, MailOk, AllKeysOk, SiteOk, Strangers, EndKeys, Fed, Heard, Inbox;
    OwnStepKeys(g, s);
    OneSiteKeys(g.lobby, g.sites, g.nextId, s.c, Next(g, s).sites[s.c]);
  }

  lemma AcceptsKeys(g: Game, c: Connection)
    requires PresenceOk(g) && Enabled(g, Accepts(c))
    ensures KeepsKeys(g, Accepts(c))
  {
    hide WellFormed, MailOk, AllKeysOk, NamesOk, Strangers, Entered;
    EnteredKeys(g.lobby, g.sites, g.nextId, c);
  }

  lemma JoinKeys(g: Game, s: Step)
    requires PresenceOk(g) && Enabled(g, s) && Clean(g, s) && s.Validates?
    ensures KeepsKeys(g, s)
  {
    hide WellFormed, MailOk, AllKeysOk, NamesOk, Strangers, Introduced, Announced, IsSnapshot, AllDrawn, Filled,
      OneClosed;
    ValidatesKeys(g, s);
  }

  lemma ClosesKeys(g: Game, c: Connection, n: nat)
    requires PresenceOk(g) && Enabled(g, Closes(c, n))
    ensures KeepsKeys(g, Closes(c, n))
  {
    hide WellFormed, MailOk, AllKeysOk, NamesOk, Strangers, Outbox;
    ClosedKeys(g.lobby, g.sites, g.nextId, c);
  }

  lemma NextKeys(g: Game, s: Step)
    requires PresenceOk(g) && Enabled(g, s) && Clean(g, s)
    ensures KeepsKeys(g, s)
  {
    hide PresenceOk, Enabled, Clean, KeepsKeys;
    match s
    case Accepts(c) => AcceptsKeys(g, c);
    case Validates(_, _, _, _, _) => JoinKeys(g, s);
    case Handles(c, q) => HandlesKeys(g, c, q);
    case HandlesStray(n, q) => StrayKeys(g, n, q);
    case Hears(_) => OwnKeys(g, s);
    case Moves(_, _) => OwnKeys(g, s);
    case Eats(_, _) => OwnKeys(g, s);
    case Sends(_, _) => OwnKeys(g, s);
    case Closes(c, n) => ClosesKeys(g, c, n);
  }

  lemma NextPresence(g: Game, s: Step)
    requires PresenceOk(g) && Enabled(g, s) && Clean(g, s) && Honest(g, s)
    ensures PresenceOk(Next(g, s))
  {
    hide GameOk, AllKeysOk, NamesOk, Enabled, Next, Clean, Honest;
    NextFits(g, s);
    NextNames(g, s);
    NextKeys(g, s);
  }

  // ---------------------------------------------------------------- what a client will know

  /** The players that a client will have, once it has handled what arrives of its mail, and that the
      server has not. */
  ghost function Ghosts(g: Game, c: Connection): set<uint32> {
    if c in g.sites && c in g.lobby.mails && g.sites[c].heard <= |Inbox(g, c)| && EndState(g, c).Some?
    then EndState(g, c).value.players.Keys - g.lobby.players.Keys else {}
  }

  lemma EndStateIs(g: Game, c: Connection)
    requires GameOk(g) && c in g.sites
    ensures c in g.lobby.mails && g.sites[c].heard <= |Inbox(g, c)| && g.sites[c].heard <= |g.lobby.mails[c]|
    ensures EndState(g, c).Some? && EndState(g, c).value.players.Keys == EndKeys(g.sites[c], g.lobby.mails[c])
    ensures Ghosts(g, c) == Strangers(g.lobby, g.sites, c)
  {
    hide WellFormed, MailOk, SiteOk, AllItems, Client.AllHandled, Client.FromServer, T.Arrived;
    OkAt(g.sites, g.lobby.mails, c);
    InboxIs(g, c);
    var site, mail := g.sites[c], g.lobby.mails[c];
    ItemsAt(site, mail);
    EndAsSent(site.client, site.id, mail, site.heard);
  }

  /** Exactly the kills whose broadcast finds the killed player's own connection closed make ghosts, on
      the clients behind it in the list, and ghosts stay. */
  lemma GhostsByKills(g: Game, s: Step, d: Connection)
    requires PresenceOk(g) && Enabled(g, s) && Clean(g, s) && Honest(g, s) && d in g.sites && d in Next(g, s).sites
    ensures Ghosts(Next(g, s), d) == Ghosts(g, d) + if KillsTheLost(g, s, d) then Killed(g, s) else {}
  {
    hide GameOk, AllKeysOk, NamesOk, Enabled, Next, Clean, Honest, Ghosts, Strangers, KillsTheLost, Killed;
    NextFits(g, s);
    NextKeys(g, s);
    EndStateIs(g, d);
    EndStateIs(Next(g, s), d);
  }

  ghost predicate HonestRun(g: Game, steps: seq<Step>)
    requires Possible(g, steps)
    decreases |steps|
  {
    steps == [] || (Honest(g, steps[0]) && HonestRun(Next(g, steps[0]), steps[1..]))
  }

  lemma {:induction false} RunPresence(g: Game, steps: seq<Step>)
    requires PresenceOk(g) && Possible(g, steps) && CleanRun(g, steps) && HonestRun(g, steps)
    ensures PresenceOk(After(g, steps))
    decreases |steps|
  {
    hide PresenceOk, Enabled, Next, Clean, Honest;
    if steps != [] {
      NextPresence(g, steps[0]);
      RunPresence(Next(g, steps[0]), steps[1..]);
    }
  }

  lemma StartPresence()
    ensures PresenceOk(Start())
  {
    StartFits();
  }

  /** In every clean run in which reports name their senders, what a validated client's map of players
      will have, once it has handled what arrives of its mail, is the server's players and the client's
      ghosts, and none of the ghosts is a member of the server's list. */
  lemma PlayersAgree(steps: seq<Step>, c: Connection)
    requires Possible(Start(), steps) && CleanRun(Start(), steps) && HonestRun(Start(), steps)
    ensures var g := After(Start(), steps);
            c in g.sites && g.sites[c].joined ==>
              && c in g.lobby.mails && g.sites[c].heard <= |Inbox(g, c)| && EndState(g, c).Some?
              && EndState(g, c).value.players.Keys == g.lobby.players.Keys + Ghosts(g, c)
              && Ghosts(g, c) !! Ids(g.lobby)
  {
    hide Possible, After, CleanRun, HonestRun, PresenceOk;
    StartPresence();
    RunPresence(Start(), steps);
    AgreeAt(After(Start(), steps), c);
  }

  lemma AgreeAt(g: Game, c: Connection)
    requires PresenceOk(g)
    ensures c in g.sites && g.sites[c].joined ==>
              && c in g.lobby.mails && g.sites[c].heard <= |Inbox(g, c)| && EndState(g, c).Some?
              && EndState(g, c).value.players.Keys == g.lobby.players.Keys + Ghosts(g, c)
              && Ghosts(g, c) !! Ids(g.lobby)
  {
    hide WellFormed, MailOk, NamesOk, AllKeysOk, SiteOk, EndKeys, Inbox, EndState, Ids;
    if c in g.sites && g.sites[c].joined {
      EndStateIs(g, c);
      KeysAt(g.lobby, g.sites, g.nextId, c);
    }
  }
}
