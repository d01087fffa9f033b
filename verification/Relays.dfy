/** When both ends read what the other end has sent. The server sends reports and start requests on as
    they came, and a request that came with the body of an earlier message is read as several frames. */
module Relays {
  import opened Common
  import opened Message
  import opened Connection
  import opened Codec
  import opened Protocol
  import opened Lobbies
  import opened Game
  import T = Transport
  import E = EndpointRuns

  /** The reader cuts the bytes of `ms` into `ms`. */
  predicate ReadsBack(ms: seq<Msg>) {
    T.ReadFrames(Wire(ms)) == (ms, [])
  }

  /** Every client can read its mail, and the server every client. */
  predicate Sound(g: Game) {
    && (forall c :: c in g.lobby.mails ==> ReadsBack(g.lobby.mails[c]))
    && forall c :: c in g.sites ==> ReadsBack(g.sites[c].up)
  }

  /** What the server sends on announces its body, or there is nobody to send it to. */
  predicate RelayedWhole(l: Lobby, c: Connection, m: Msg) {
    && (m.header.id == UPDATE_PLAYER ==> Consistent(m) || NobodyBut(l, c))
    && (m.header.id == START_GAME ==> Consistent(m) || NobodyBut(l, null))
  }

  predicate NobodyBut(l: Lobby, ignore: Connection?) {
    forall d :: d in l.mails ==> d == ignore
  }

  /** What can be checked before a step: what it sends announces its body. The server's own messages
      always do, snapshots while they are below 4 GiB. */
  ghost predicate Clean(g: Game, s: Step)
    requires Enabled(g, s)
  {
    match s
    case Handles(c, _) => RelayedWhole(g.lobby, c, Outbox(g.sites[c])[g.sites[c].taken])
    case HandlesStray(n, _) => RelayedWhole(g.lobby, g.queue[n].conn, g.queue[n].m)
    case Validates(_, _, _, snapshot, _) => Consistent(snapshot)
    case Sends(_, m) => Consistent(m)
    case _ => true
  }

  // ---------------------------------------------------------------- one broadcast

  predicate AllMail(mails: map<Connection, seq<Msg>>) {
    forall c :: c in mails ==> T.AllConsistent(mails[c])
  }

  predicate AllUp(sites: map<Connection, Site>) {
    forall c :: c in sites ==> T.AllConsistent(sites[c].up)
  }

  lemma SoundIs(g: Game)
    ensures Sound(g) <==> AllMail(g.lobby.mails) && AllUp(g.sites)
  {
    forall ms: seq<Msg>
      ensures ReadsBack(ms) <==> T.AllConsistent(ms)
    {
      T.FramingExact(ms);
    }
    hide ReadsBack, T.AllConsistent;
  }

  lemma ConsistentConcat(a: seq<Msg>, b: seq<Msg>)
    ensures T.AllConsistent(a + b) <==> T.AllConsistent(a) && T.AllConsistent(b)
  {
    if T.AllConsistent(a + b) {
      assert forall i :: 0 <= i < |a| ==> (a + b)[i] == a[i];
      assert forall i :: 0 <= i < |b| ==> (a + b)[|a| + i] == b[i];
    }
  }

  lemma ConsistentOne(m: Msg)
    ensures T.AllConsistent([m]) <==> Consistent(m)
    ensures T.AllConsistent([])
  {
    assert [m][0] == m;
  }

  /** The server's own messages announce their bodies. */
  lemma OwnConsistent(id: uint32, n: int32, p: Position)
    ensures Consistent(IntMsg(id, n)) && Consistent(CellMsg(id, p))
  {
  }

  /** The mail of one client after a broadcast. */
  lemma OneMailConsistent(l: Lobby, m: Msg, ignore: Connection?, c: Connection)
    requires Tidy(l) && c in l.mails
    ensures var mails := Broadcast(l, m, ignore).mails;
            c in mails
            && (T.AllConsistent(mails[c]) <==> T.AllConsistent(l.mails[c]) && (c == ignore || Consistent(m)))
  {
    MailAfter(l, m, ignore, c);
    var infos, j := SeenBy(l, ignore), PlaceOf(l.list, c);
    MailContents(infos, j, m);
    var own := if infos[j].ignored then [] else [m];
    ConsistentConcat(l.mails[c], Mail(infos, j, m));
    ConsistentOne(m);
    hide Broadcast, SeenBy, PlaceOf, Mail, LostAt, T.AllConsistent, Consistent;
    if LostAt(infos) < |infos| {
      var gone := RemovePlayerMsg(infos[LostAt(infos)].id);
      OwnConsistent(REMOVE_PLAYER, AsInt32(infos[LostAt(infos)].id), ORIGIN);
      ConsistentOne(gone);
      ConsistentConcat(own, [gone]);
      ConsistentConcat([gone], own);
    }
  }

  lemma BroadcastConsistent(l: Lobby, m: Msg, ignore: Connection?)
    requires Tidy(l)
    ensures AllMail(Broadcast(l, m, ignore).mails)
            <==> AllMail(l.mails) && (Consistent(m) || NobodyBut(l, ignore))
  {
    var mails := Broadcast(l, m, ignore).mails;
    assert mails.Keys == l.mails.Keys by { BroadcastShape(l, m, ignore); }
    hide Broadcast, Tidy, T.AllConsistent, Consistent;
    forall c | c in l.mails
      ensures c in mails
      ensures T.AllConsistent(mails[c]) <==> T.AllConsistent(l.mails[c]) && (c == ignore || Consistent(m))
    {
      OneMailConsistent(l, m, ignore, c);
    }
  }

  // ---------------------------------------------------------------- one handler

  lemma ReportConsistent(l: Lobby, nextId: uint32, sites: map<Connection, Site>, c: Connection, id: uint32, m: Msg)
    requires LobbyOk(l, nextId) && Seated(l, sites) && OneClosed(l)
    requires Reportable(l, c, id, m.body) && id in LeftBy(l, c)
    ensures AllMail(Reported(l, c, id, m).mails) <==> AllMail(l.mails) && (Consistent(m) || NobodyBut(l, c))
  {
    hide Tidy, Ids, Seated, Broadcast, Stored, Hit, ParseUpdate, IntMsg, OneClosed, LeftBy, HeadReadable, AllMail,
      Consistent, NobodyBut;
    StoredOk(l, nextId, sites, c, id, m);
    BroadcastConsistent(l, m, c);
    var told := Broadcast(l, m, c);
    var stored := told.(players := Stored(told.players, id, m.body));
    var named := ParseUpdate(m.body).value.id;
    BroadcastConsistent(stored, IntMsg(KILL_PLAYER, named), null);
    OwnConsistent(KILL_PLAYER, named, ORIGIN);
  }

  lemma AnswerConsistent(g: Game, c: Connection, id: uint32, m: Msg, q: Position)
    requires WellFormed(g) && Answers(g, c, id, m, q)
    ensures var after := AfterMessage(g.powerups, g.lobby, c, id, m, q);
            AllMail(after.1.mails) <==> AllMail(g.lobby.mails) && RelayedWhole(g.lobby, c, m)
  {
    hide Tidy, Ids, Seated, Broadcast, Reported, OneClosed, PowerupsOk, Reportable, CellMsg, AllMail, Consistent,
      NobodyBut;
    if m.header.id == POWERUP_EATEN {
      var p := Pop(m.body, CellKind).value.0.cell;
      BroadcastOk(g.lobby, g.nextId, g.sites, CellMsg(POWERUP_EATEN, p), c);
      BroadcastConsistent(g.lobby, CellMsg(POWERUP_EATEN, p), c);
      BroadcastConsistent(Broadcast(g.lobby, CellMsg(POWERUP_EATEN, p), c), CellMsg(NEW_POWERUP, q), null);
      OwnConsistent(POWERUP_EATEN, 0, p);
      OwnConsistent(NEW_POWERUP, 0, q);
    } else if m.header.id == UPDATE_PLAYER {
      ReportConsistent(g.lobby, g.nextId, g.sites, c, id, m);
    } else if m.header.id == START_GAME {
      BroadcastConsistent(g.lobby, m, null);
    }
  }

  lemma {:induction false} AnnouncedConsistent(l: Lobby, nextId: uint32, sites: map<Connection, Site>,
                                               qs: seq<Position>)
    requires LobbyOk(l, nextId) && Seated(l, sites) && OneClosed(l)
    ensures AllMail(Announced(l, qs).mails) <==> AllMail(l.mails)
    decreases |qs|
  {
    hide Tidy, Ids, Seated, Broadcast, OneClosed, CellMsg, AllMail, Consistent, NobodyBut;
    if qs != [] {
      var front, q := qs[..|qs| - 1], qs[|qs| - 1];
      AnnouncedOk(l, nextId, sites, front);
      AnnouncedConsistent(l, nextId, sites, front);
      BroadcastConsistent(Announced(l, front), CellMsg(NEW_POWERUP, q), null);
      OwnConsistent(NEW_POWERUP, 0, q);
    }
  }

  lemma PlayerMsgConsistent(id: uint32, spawn: Position, color: uint32)
    ensures Consistent(PlayerMsg(id, NewPlayer(spawn, color)))
  {
    var body := PushPlayer([], id, color, [spawn]);
    var cells := PushCells([], [spawn]);
    PushCellsSnoc([], [], spawn);
    assert [] + [spawn] == [spawn];
    assert cells == Push([], Cell(spawn));
    assert |body| == |cells| + 16;
  }

  lemma SentOneConsistent(l: Lobby, c: Connection, m: Msg)
    requires c in l.mails
    ensures AllMail(SentOne(l, c, m).mails) <==> AllMail(l.mails) && Consistent(m)
  {
    var mails := SentOne(l, c, m).mails;
    ConsistentConcat(l.mails[c], [m]);
    ConsistentOne(m);
    hide T.AllConsistent, Consistent;
    assert c in mails && mails[c] == l.mails[c] + [m];
    assert forall d :: d in l.mails && d != c ==> d in mails && mails[d] == l.mails[d];
    if AllMail(mails) {
      forall d | d in l.mails
        ensures T.AllConsistent(l.mails[d])
      {
        assert d in mails && T.AllConsistent(mails[d]);
      }
    }
  }

  lemma WelcomeConsistent(g: Game, s: Step)
    requires WellFormed(g) && s.Validates? && s.c in g.sites && s.c in g.lobby.mails && OneClosed(g.lobby)
    ensures var l := Welcomed(g.lobby, s.c, g.sites[s.c].id, NewPlayer(s.spawn, s.color), s.snapshot, s.added);
            AllMail(l.mails) <==> AllMail(g.lobby.mails) && Consistent(s.snapshot)
  {
    var id, p := g.sites[s.c].id, NewPlayer(s.spawn, s.color);
    NewcomerOk(g, s);
    BroadcastOk(WithNewcomer(g, s), g.nextId, g.sites, PlayerMsg(id, p), s.c);
    PlayerMsgConsistent(id, s.spawn, s.color);
    SentOneConsistent(g.lobby.(players := g.lobby.players[id := p]), s.c, s.snapshot);
    hide WellFormed, Seated, Tidy, Ids, Broadcast, OneClosed, AllOpen, PlayerMsg, Announced, AllMail, Consistent,
      SentOne;
    BroadcastConsistent(WithNewcomer(g, s), PlayerMsg(id, p), s.c);
    AnnouncedConsistent(Introduced(g.lobby, s.c, id, p, s.snapshot), g.nextId, g.sites, s.added);
  }

  lemma UpChanged(sites: map<Connection, Site>, c: Connection, site: Site)
    requires c in sites
    ensures site.up == sites[c].up ==> (AllUp(sites[c := site]) <==> AllUp(sites))
    ensures forall m :: site.up == sites[c].up + [m] ==> (AllUp(sites[c := site]) <==> AllUp(sites) && Consistent(m))
  {
    var sites' := sites[c := site];
    forall m | site.up == sites[c].up + [m]
      ensures T.AllConsistent(site.up) <==> T.AllConsistent(sites[c].up) && Consistent(m)
    {
      ConsistentConcat(sites[c].up, [m]);
      ConsistentOne(m);
    }
    hide T.AllConsistent;
    assert forall d :: d in sites && d != c ==> sites'[d] == sites[d];
    assert sites'[c] == site;
  }

  lemma HandledSound(g: Game, s: Step)
    requires WellFormed(g) && Enabled(g, s) && AllMail(g.lobby.mails) && AllUp(g.sites)
    requires s.Handles? || s.HandlesStray? || s.Validates?
    ensures AllMail(Next(g, s).lobby.mails) && AllUp(Next(g, s).sites) <==> Clean(g, s)
  {
    hide WellFormed, Answers, AllMail, AllUp, RelayedWhole, AfterMessage, Welcomed, Introduced, Consistent, Outbox;
    match s
    case Handles(c, q) =>
      AnswerConsistent(g, c, g.sites[c].id, Outbox(g.sites[c])[g.sites[c].taken], q);
      UpChanged(g.sites, c, Next(g, s).sites[c]);
    case HandlesStray(n, q) => AnswerConsistent(g, g.queue[n].conn, g.queue[n].id, g.queue[n].m, q);
    case Validates(c, _, _, _, _) =>
      WelcomeConsistent(g, s);
      UpChanged(g.sites, c, Next(g, s).sites[c]);
  }

  lemma OtherSound(g: Game, s: Step)
    requires WellFormed(g) && Enabled(g, s) && AllMail(g.lobby.mails) && AllUp(g.sites)
    requires !s.Handles? && !s.HandlesStray? && !s.Validates?
    ensures AllMail(Next(g, s).lobby.mails) && AllUp(Next(g, s).sites) <==> Clean(g, s)
  {
    hide LobbyOk, PowerupsOk, Inbox, Outbox, Consistent, CellMsg;
    match s
    case Accepts(c) => EnteredConsistent(g.lobby, g.sites, c, g.nextId);
    case Hears(c) => UpChanged(g.sites, c, Next(g, s).sites[c]);
    case Moves(c, _) => UpChanged(g.sites, c, Next(g, s).sites[c]);
    case Sends(c, _) => UpChanged(g.sites, c, Next(g, s).sites[c]);
    case Eats(c, i) =>
      OwnConsistent(POWERUP_EATEN, 0, g.sites[c].client.powerups[i]);
      UpChanged(g.sites, c, Next(g, s).sites[c]);
    case Closes(_, _) =>
  }

  lemma EnteredConsistent(l: Lobby, sites: map<Connection, Site>, c: Connection, id: uint32)
    requires AllMail(l.mails) && AllUp(sites)
    ensures AllMail(Entered(l, c, id, []).mails) && AllUp(sites[c := Site(id, false, 0, 0, NEW_CLIENT, [], 0)])
  {
  }

  /** A step after which everyone can still read everything is a clean one, and the other way round. */
  lemma StepSoundIff(g: Game, s: Step)
    requires WellFormed(g) && Enabled(g, s) && Sound(g)
    ensures Sound(Next(g, s)) <==> Clean(g, s)
  {
    SoundIs(g);
    SoundIs(Next(g, s));
    hide Sound, AllMail, AllUp, WellFormed, Enabled, Next, Clean;
    if s.Handles? || s.HandlesStray? || s.Validates? {
      HandledSound(g, s);
    } else {
      OtherSound(g, s);
    }
  }

  // ---------------------------------------------------------------- whole runs

  ghost predicate AlwaysSound(g: Game, steps: seq<Step>)
    requires Possible(g, steps)
    decreases |steps|
  {
    Sound(g) && (steps == [] || AlwaysSound(Next(g, steps[0]), steps[1..]))
  }

  ghost predicate CleanRun(g: Game, steps: seq<Step>)
    requires Possible(g, steps)
    decreases |steps|
  {
    steps == [] || (Clean(g, steps[0]) && CleanRun(Next(g, steps[0]), steps[1..]))
  }

  lemma {:induction false} RunSoundIff(g: Game, steps: seq<Step>)
    requires WellFormed(g) && Possible(g, steps) && Sound(g)
    ensures AlwaysSound(g, steps) <==> CleanRun(g, steps)
    decreases |steps|
  {
    hide WellFormed, Enabled, Next, Sound, Clean;
    if steps != [] {
      StepSoundIff(g, steps[0]);
      NextWellFormed(g, steps[0]);
      if Clean(g, steps[0]) {
        RunSoundIff(Next(g, steps[0]), steps[1..]);
      }
    }
  }

  /** Exactly when every client reads its mail as the messages it was sent, and the server what the
      clients have sent, at every moment of a run: whatever is sent in it announces its body, or there is
      nobody to send it to. */
  lemma MailReadIff(steps: seq<Step>)
    requires Possible(Start(), steps)
    ensures AlwaysSound(Start(), steps) <==> CleanRun(Start(), steps)
  {
    hide AlwaysSound, CleanRun, Possible;
    StartIsOk();
    RunSoundIff(Start(), steps);
  }

  /** What the server gets from a client announces its body exactly when it was sent with one, or no
      message that the client sent before it had one. */
  lemma RelayWholeIff(s: Site, k: nat)
    requires ReadsBack(s.up) && k < |s.up|
    ensures k < |Outbox(s)| && Outbox(s)[k].header == s.up[k].header
    ensures Consistent(Outbox(s)[k])
            <==> s.up[k].header.bodySize > 0 || forall j :: 0 <= j < k ==> s.up[j].header.bodySize == 0
  {
    T.FramingExact(s.up);
    T.ArrivedConsistent(s.up);
    E.RedeliveredAt(s.up, k);
    hide ReadsBack, T.Arrived, E.Redelivered;
    E.LastBodyEmpty(s.up[..k]);
    assert forall j :: 0 <= j < k ==> s.up[..k][j] == s.up[j];
  }
}
