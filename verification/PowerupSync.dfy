/** The powerups in the system of the server and its clients: every clean run of the handlers is a run
    of `Replica`. */
module PowerupSync {
  import opened Common
  import opened Message
  import opened Connection
  import opened Codec
  import opened Protocol
  import opened FreeGrid
  import opened Lobbies
  import opened Game
  import opened Relays
  import opened Mailboxes
  import R = Replica
  import T = Transport
  import E = EndpointRuns
  import Client

  // ---------------------------------------------------------------- notes and eats in messages

  /** The notes in the mail of one client. */
  function MailNotes(ms: seq<Msg>): seq<R.Note> {
    if ms == [] then [] else Client.NotesOf(ms[0]) + MailNotes(ms[1..])
  }

  /** What one message of a client says it ate. */
  function EatIn(m: Msg): seq<Position> {
    if m.header.id == POWERUP_EATEN && Pop(m.body, CellKind).Some? then [Pop(m.body, CellKind).value.0.cell] else []
  }

  function EatsIn(ms: seq<Msg>): seq<Position> {
    if ms == [] then [] else EatIn(ms[0]) + EatsIn(ms[1..])
  }

  lemma {:induction false} MailNotesConcat(a: seq<Msg>, b: seq<Msg>)
    ensures MailNotes(a + b) == MailNotes(a) + MailNotes(b)
  {
    hide Client.NotesOf;
    if a == [] {
      assert a + b == b;
    } else {
      MailNotesConcat(a[1..], b);
      assert (a + b)[1..] == a[1..] + b;
      var first, rest := Client.NotesOf(a[0]), MailNotes(a[1..]);
      assert MailNotes(a + b) == first + MailNotes(a[1..] + b) && MailNotes(a) == first + rest;
      hide MailNotes;
      Assoc(first, rest, MailNotes(b));
    }
  }

  lemma MailNotesOne(m: Msg)
    ensures MailNotes([m]) == Client.NotesOf(m)
  {
    assert [m][1..] == [];
    hide Client.NotesOf;
  }

  lemma {:induction false} EatsInConcat(a: seq<Msg>, b: seq<Msg>)
    ensures EatsIn(a + b) == EatsIn(a) + EatsIn(b)
  {
    hide EatIn;
    if a == [] {
      assert a + b == b;
    } else {
      EatsInConcat(a[1..], b);
      assert (a + b)[1..] == a[1..] + b;
      var first, rest := EatIn(a[0]), EatsIn(a[1..]);
      assert EatsIn(a + b) == first + EatsIn(a[1..] + b) && EatsIn(a) == first + rest;
      hide EatsIn;
      Assoc(first, rest, EatsIn(b));
    }
  }

  lemma EatsInOne(m: Msg)
    ensures EatsIn([m]) == EatIn(m)
  {
    assert [m][1..] == [];
    hide EatIn;
  }

  lemma {:induction false} EatsSame(a: seq<Msg>, b: seq<Msg>)
    requires |a| == |b| && forall k :: 0 <= k < |a| ==> EatIn(a[k]) == EatIn(b[k])
    ensures EatsIn(a) == EatsIn(b)
  {
    hide EatIn;
    if a != [] {
      EatsSame(a[1..], b[1..]);
    }
  }

  /** What the server gets from a client says of powerups what the client sent. */
  lemma EatAsSent(s: Site, mail: seq<Msg>, k: nat)
    requires SiteOk(s, mail) && k < |s.up|
    ensures |Outbox(s)| == |s.up| && EatIn(Outbox(s)[k]) == EatIn(s.up[k])
  {
    UpConsistent(s, mail);
    E.RedeliveredAt(s.up, k);
    assert UpOk(s.up[k]);
    hide SiteOk, E.Redelivered, E.LastBody, Pop, Outbox;
  }

  // ---------------------------------------------------------------- the abstraction

  /** What `Replica` sees of a client. */
  function PeerOf(s: Site, mail: seq<Msg>): R.Peer
    requires s.heard <= |mail| && s.taken <= |s.up|
  {
    R.Peer(s.joined, s.defaults, MailNotes(mail[s.heard..]), s.client.powerups, EatsIn(s.up[s.taken..]))
  }

  ghost function Peers(sites: map<Connection, Site>, mails: map<Connection, seq<Msg>>): map<Connection, R.Peer>
    requires MailOk(sites, mails)
  {
    map c | c in sites :: PeerOf(sites[c], mails[c])
  }

  function Messages(queue: seq<Stray>): seq<Msg> {
    seq(|queue|, i requires 0 <= i < |queue| => queue[i].m)
  }

  /** What `Replica` sees of the system. */
  ghost function Abs(g: Game): R.World<Connection>
    requires GameOk(g)
  {
    R.World(g.powerups, Peers(g.sites, g.lobby.mails), EatsIn(Messages(g.queue)))
  }

  function GenerateAll(qs: seq<Position>): seq<R.Step<Connection>> {
    seq(|qs|, i requires 0 <= i < |qs| => R.Generate(qs[i]))
  }

  /** The steps of `Replica` that a step of the system is. */
  ghost function Steps(g: Game, s: Step): seq<R.Step<Connection>>
    requires Enabled(g, s)
  {
    match s
    case Accepts(c) => [R.Connect(c)]
    case Validates(c, _, _, _, added) => [R.Validate(c)] + GenerateAll(added)
    case Handles(c, q) =>
      if EatIn(Outbox(g.sites[c])[g.sites[c].taken]) == [] then [] else [R.HandleEat(c), R.Generate(q)]
    case HandlesStray(n, q) =>
      if EatIn(g.queue[n].m) == [] then []
      else [R.HandleStray(|EatsIn(Messages(g.queue)[..n])|), R.Generate(q)]
    case Hears(c) => if Client.NotesOf(Inbox(g, c)[g.sites[c].heard]) == [] then [] else [R.Deliver(c)]
    case Eats(c, i) => [R.Eat(c, i)]
    case Closes(c, n) => [R.Disconnect(c, |EatsIn(Outbox(g.sites[c])[g.sites[c].taken..n])|)]
    case _ => []
  }

  // ---------------------------------------------------------------- one broadcast

  /** The notes in a client's new mail: announcements that a player is gone have none. */
  lemma NotesOfMail(infos: seq<Info>, j: nat, m: Msg)
    requires j < |infos| && infos[j].open
    ensures MailNotes(Mail(infos, j, m)) == if infos[j].ignored then [] else Client.NotesOf(m)
  {
    MailContents(infos, j, m);
    var own := if infos[j].ignored then [] else [m];
    MailNotesOne(m);
    hide Client.NotesOf, LostAt, Mail, RemovePlayerMsg;
    if LostAt(infos) < |infos| {
      var gone := RemovePlayerMsg(infos[LostAt(infos)].id);
      NoNotesInRemoval(infos[LostAt(infos)].id);
      MailNotesOne(gone);
      MailNotesConcat(own, [gone]);
      MailNotesConcat([gone], own);
    }
  }

  lemma NoNotesInRemoval(id: uint32)
    ensures Client.NotesOf(RemovePlayerMsg(id)) == []
  {
  }

  lemma KillNotes(n: int32)
    ensures Client.NotesOf(IntMsg(KILL_PLAYER, n)) == []
  {
  }

  lemma PeerMore(s: Site, mail: seq<Msg>, more: seq<Msg>)
    requires s.heard <= |mail| && s.taken <= |s.up|
    ensures PeerOf(s, mail + more) == PeerOf(s, mail).(inbox := PeerOf(s, mail).inbox + MailNotes(more))
  {
    assert (mail + more)[s.heard..] == mail[s.heard..] + more;
    MailNotesConcat(mail[s.heard..], more);
    hide MailNotes, EatsIn;
  }

  function Ignoring(ignore: Connection?): Option<Connection> {
    if ignore == null then None else Some(ignore)
  }

  lemma PeersAt(sites: map<Connection, Site>, mails: map<Connection, seq<Msg>>, c: Connection)
    requires MailOk(sites, mails) && c in sites
    ensures c in mails && sites[c].heard <= |mails[c]| && sites[c].taken <= |sites[c].up|
    ensures c in Peers(sites, mails) && Peers(sites, mails)[c] == PeerOf(sites[c], mails[c])
  {
    OkAt(sites, mails, c);
    ItemsAt(sites[c], mails[c]);
    hide PeerOf, SiteOk;
  }

  lemma PeersKeys(sites: map<Connection, Site>, mails: map<Connection, seq<Msg>>)
    requires MailOk(sites, mails)
    ensures Peers(sites, mails).Keys == sites.Keys
  {
    hide PeerOf;
  }

  lemma PeerAfter(l: Lobby, sites: map<Connection, Site>, m: Msg, ignore: Connection?, c: Connection)
    requires Tidy(l) && Seated(l, sites) && MailOk(sites, l.mails) && c in sites && (c == ignore || Plain(m))
    requires MailOk(sites, Broadcast(l, m, ignore).mails)
    ensures c in Peers(sites, l.mails) && c in Peers(sites, Broadcast(l, m, ignore).mails)
    ensures var p := Peers(sites, l.mails)[c];
            Peers(sites, Broadcast(l, m, ignore).mails)[c]
            == p.(inbox := p.inbox + if c == ignore then [] else Client.NotesOf(m))
  {
    PeersAt(sites, l.mails, c);
    PeersAt(sites, Broadcast(l, m, ignore).mails, c);
    hide MailOk, Peers, PeerOf, Plain, Client.NotesOf, MailNotes, SeenBy;
    MailAfter(l, m, ignore, c);
    var infos, j := SeenBy(l, ignore), PlaceOf(l.list, c);
    NotesOfMail(infos, j, m);
    PeerMore(sites[c], l.mails[c], Mail(infos, j, m));
  }

  lemma PeersToldIs(before: map<Connection, R.Peer>, after: map<Connection, R.Peer>, n: R.Note, ignore: Connection?)
    requires before.Keys == after.Keys
    requires forall c :: c in before ==>
               after[c] == before[c].(inbox := before[c].inbox + if c == ignore then [] else [n])
    ensures after == R.Broadcast(before, n, Ignoring(ignore))
  {
    forall c | c in before && c == ignore
      ensures after[c] == before[c]
    {
      assert before[c].inbox + [] == before[c].inbox;
    }
  }

  lemma NoteSent(l: Lobby, sites: map<Connection, Site>, m: Msg, n: R.Note, ignore: Connection?)
    requires Tidy(l) && Seated(l, sites) && MailOk(sites, l.mails) && Plain(m) && Client.NotesOf(m) == [n]
    ensures MailOk(sites, Broadcast(l, m, ignore).mails)
    ensures Peers(sites, Broadcast(l, m, ignore).mails) == R.Broadcast(Peers(sites, l.mails), n, Ignoring(ignore))
  {
    hide Tidy, Seated, MailOk, Peers, Plain, Client.NotesOf, Broadcast, R.Broadcast;
    BroadcastFits(l, sites, m, ignore);
    var mails := Broadcast(l, m, ignore).mails;
    PeersKeys(sites, l.mails);
    PeersKeys(sites, mails);
    forall c | c in sites
      ensures c in Peers(sites, mails) && c in Peers(sites, l.mails)
      ensures var p := Peers(sites, l.mails)[c];
              Peers(sites, mails)[c] == p.(inbox := p.inbox + if c == ignore then [] else [n])
    {
      PeerAfter(l, sites, m, ignore, c);
    }
    PeersToldIs(Peers(sites, l.mails), Peers(sites, mails), n, ignore);
  }

  lemma PeersQuietIs(before: map<Connection, R.Peer>, after: map<Connection, R.Peer>, ns: seq<R.Note>,
                     ignore: Connection?)
    requires before.Keys == after.Keys && (ns == [] || forall c :: c in before ==> c == ignore)
    requires forall c :: c in before ==>
               after[c] == before[c].(inbox := before[c].inbox + if c == ignore then [] else ns)
    ensures after == before
  {
    forall c | c in before
      ensures after[c] == before[c]
    {
      assert before[c].inbox + [] == before[c].inbox;
    }
  }

  lemma QuietSent(l: Lobby, sites: map<Connection, Site>, m: Msg, ignore: Connection?)
    requires Tidy(l) && Seated(l, sites) && MailOk(sites, l.mails)
    requires (Plain(m) && Client.NotesOf(m) == []) || NobodyBut(l, ignore)
    ensures MailOk(sites, Broadcast(l, m, ignore).mails)
    ensures Peers(sites, Broadcast(l, m, ignore).mails) == Peers(sites, l.mails)
  {
    assert NobodyBut(l, ignore) ==> forall c :: c in sites ==> c == ignore;
    hide Tidy, Seated, MailOk, Peers, Plain, Client.NotesOf, Broadcast, NobodyBut;
    BroadcastFits(l, sites, m, ignore);
    var mails := Broadcast(l, m, ignore).mails;
    PeersKeys(sites, l.mails);
    PeersKeys(sites, mails);
    forall c | c in sites
      ensures c in Peers(sites, mails) && c in Peers(sites, l.mails)
      ensures var p := Peers(sites, l.mails)[c];
              Peers(sites, mails)[c] == p.(inbox := p.inbox + if c == ignore then [] else Client.NotesOf(m))
    {
      PeerAfter(l, sites, m, ignore, c);
    }
    PeersQuietIs(Peers(sites, l.mails), Peers(sites, mails), Client.NotesOf(m), ignore);
  }

  /** A cell message and what a client makes of it. */
  lemma CellNotes(p: Position)
    ensures Client.NotesOf(CellMsg(NEW_POWERUP, p)) == [R.New(p)]
    ensures Client.NotesOf(CellMsg(POWERUP_EATEN, p)) == [R.Eaten(p)]
    ensures EatIn(CellMsg(POWERUP_EATEN, p)) == [p]
  {
    hide Push, Pop;
    PopPush([], Cell(p));
  }

  lemma GenerateIs(powerups: seq<Position>, l: Lobby, sites: map<Connection, Site>, strays: seq<Position>, q: Position)
    requires Tidy(l) && Seated(l, sites) && MailOk(sites, l.mails)
    ensures var mails := Broadcast(l, CellMsg(NEW_POWERUP, q), null).mails;
            && MailOk(sites, mails)
            && R.Leads(R.World(powerups, Peers(sites, l.mails), strays), R.Generate(q),
                       R.World(powerups + [q], Peers(sites, mails), strays))
  {
    CellNotes(q);
    CellIsPlain(NEW_POWERUP, q);
    hide Tidy, Seated, MailOk, Peers, Plain, Client.NotesOf, CellMsg, R.Leads, R.Broadcast, Broadcast;
    NoteSent(l, sites, CellMsg(NEW_POWERUP, q), R.New(q), null);
    GenerateLeads(R.World(powerups, Peers(sites, l.mails), strays), q);
  }

  lemma GenerateLeads(w: R.World<Connection>, q: Position)
    ensures R.Leads(w, R.Generate(q), R.World(w.server + [q], R.Broadcast(w.peers, R.New(q), None), w.strays))
  {
    hide R.Broadcast;
  }

  // ---------------------------------------------------------------- single steps of Replica

  lemma OneRun(w: R.World<Connection>, s: R.Step<Connection>, w': R.World<Connection>)
    requires R.Leads(w, s, w')
    ensures R.RunsTo(w, [s], w')
  {
    R.NoRun(w');
    R.LeadsOn(w, s, w', [], w');
    assert [s] + [] == [s];
  }

  lemma TwoRun(w: R.World<Connection>, s: R.Step<Connection>, w1: R.World<Connection>, t: R.Step<Connection>,
               w2: R.World<Connection>)
    requires R.Leads(w, s, w1) && R.Leads(w1, t, w2)
    ensures R.RunsTo(w, [s, t], w2)
  {
    OneRun(w1, t, w2);
    R.LeadsOn(w, s, w1, [t], w2);
    assert [s] + [t] == [s, t];
  }

  lemma ConnectLeads(w: R.World<Connection>, c: Connection)
    requires c !in w.peers
    ensures R.Leads(w, R.Connect(c), w.(peers := w.peers[c := R.NEWCOMER]))
  {
  }

  lemma HandleEatLeads(w: R.World<Connection>, c: Connection, peers: map<Connection, R.Peer>, e: Position)
    requires c in w.peers && w.peers[c].outbox != [] && w.peers[c].outbox[0] == e
    requires peers == w.peers[c := w.peers[c].(outbox := w.peers[c].outbox[1..])]
    ensures R.Leads(w, R.HandleEat(c), R.World(RemoveFirst(w.server, e), R.Broadcast(peers, R.Eaten(e), Some(c)),
      w.strays))
  {
    hide R.Broadcast;
  }

  lemma HandleStrayLeads(w: R.World<Connection>, k: nat)
    requires k < |w.strays|
    ensures var e := w.strays[k];
            R.Leads(w, R.HandleStray(k),
                    R.World(RemoveFirst(w.server, e), R.Broadcast(w.peers, R.Eaten(e), None), Without(w.strays, k)))
  {
    hide R.Broadcast;
  }

  lemma EatLeads(w: R.World<Connection>, c: Connection, i: nat)
    requires c in w.peers && R.Playing(w.peers[c]) && i < |w.peers[c].list|
    ensures R.Leads(w, R.Eat(c, i), w.(peers := w.peers[c := R.WithEaten(w.peers[c], i)]))
  {
    hide R.Playing, R.WithEaten;
  }

  lemma DeliverLeads(w: R.World<Connection>, c: Connection)
    requires c in w.peers && w.peers[c].inbox != []
    ensures var p := w.peers[c];
            R.Leads(w, R.Deliver(c), w.(peers := w.peers[c := p.(list := R.Apply(p.list, p.inbox[0]),
              inbox := p.inbox[1..])]))
  {
    hide R.Apply;
  }

  lemma DisconnectLeads(w: R.World<Connection>, c: Connection, k: nat)
    requires c in w.peers && k <= |w.peers[c].outbox|
    ensures R.Leads(w, R.Disconnect(c, k), R.World(w.server, w.peers - {c}, w.strays + w.peers[c].outbox[..k]))
  {
  }

  lemma ValidateLeads(w: R.World<Connection>, c: Connection)
    requires c in w.peers && !w.peers[c].joined
    ensures var p := w.peers[c];
            R.Leads(w, R.Validate(c),
                    w.(peers := w.peers[c := p.(joined := true, defaults := |w.server|,
                      inbox := p.inbox + [R.Snap(w.server)])]))
  {
  }

  // ---------------------------------------------------------------- each handler is some steps of Replica

  /** Two systems that differ in client `c`. */
  lemma PeersApart(sites: map<Connection, Site>, mails: map<Connection, seq<Msg>>, sites': map<Connection, Site>,
                   mails': map<Connection, seq<Msg>>, c: Connection)
    requires MailOk(sites, mails) && MailOk(sites', mails') && c in sites && sites'.Keys == sites.Keys
    requires forall d :: d in sites && d != c ==>
               d in mails && d in mails' && sites'[d] == sites[d] && mails'[d] == mails[d]
    ensures c in mails' && sites'[c].heard <= |mails'[c]| && sites'[c].taken <= |sites'[c].up|
    ensures Peers(sites', mails') == Peers(sites, mails)[c := PeerOf(sites'[c], mails'[c])]
  {
    hide PeerOf, MailOk, Peers;
    PeersAt(sites', mails', c);
    PeersKeys(sites, mails);
    PeersKeys(sites', mails');
    forall d | d in sites && d != c
      ensures d in Peers(sites, mails) && d in Peers(sites', mails')
      ensures Peers(sites', mails')[d] == Peers(sites, mails)[d]
    {
      PeersAt(sites, mails, d);
      PeersAt(sites', mails', d);
    }
  }

  lemma PeersChanged(sites: map<Connection, Site>, mails: map<Connection, seq<Msg>>, c: Connection, site: Site)
    requires MailOk(sites, mails) && c in sites && c in mails && SiteOk(site, mails[c])
    ensures MailOk(sites[c := site], mails) && site.heard <= |mails[c]| && site.taken <= |site.up|
    ensures Peers(sites[c := site], mails) == Peers(sites, mails)[c := PeerOf(site, mails[c])]
  {
    hide PeerOf, SiteOk, Peers;
    SiteChanged(sites, mails, c, site);
    ItemsAt(site, mails[c]);
    PeersApart(sites, mails, sites[c := site], mails, c);
  }

  /** A change of a client that `Replica` does not see. */
  lemma PeersSame(sites: map<Connection, Site>, mails: map<Connection, seq<Msg>>, c: Connection, site: Site)
    requires MailOk(sites, mails) && c in sites && c in mails && SiteOk(site, mails[c])
    requires site.heard <= |mails[c]| && site.taken <= |site.up|
    requires sites[c].heard <= |mails[c]| && sites[c].taken <= |sites[c].up|
    requires PeerOf(site, mails[c]) == PeerOf(sites[c], mails[c])
    ensures MailOk(sites[c := site], mails) && Peers(sites[c := site], mails) == Peers(sites, mails)
  {
    hide PeerOf, MailOk, SiteOk, Peers;
    PeersChanged(sites, mails, c, site);
    PeersAt(sites, mails, c);
    var peers := Peers(sites, mails);
    assert peers[c := peers[c]] == peers;
  }

  lemma EatFirst(up: seq<Msg>)
    requires up != []
    ensures EatsIn(up) == EatIn(up[0]) + EatsIn(up[1..])
    ensures EatIn(up[0]) != [] ==>
              EatsIn(up) != [] && EatsIn(up)[0] == EatIn(up[0])[0] && EatsIn(up)[1..] == EatsIn(up[1..])
    ensures EatIn(up[0]) == [] ==> EatsIn(up) == EatsIn(up[1..])
  {
    assert |EatIn(up[0])| <= 1;
    hide EatIn;
  }

  /** The oldest message of a client is off its way. */
  lemma TakenIs(s: Site, mail: seq<Msg>)
    requires SiteOk(s, mail) && s.taken < |s.up|
    ensures s.heard <= |mail| && SiteOk(s.(taken := s.taken + 1), mail)
    ensures var s', peer, eaten := s.(taken := s.taken + 1), PeerOf(s, mail), EatIn(s.up[s.taken]);
            if eaten == [] then PeerOf(s', mail) == peer
            else peer.outbox != [] && peer.outbox[0] == eaten[0]
                 && PeerOf(s', mail) == peer.(outbox := peer.outbox[1..])
  {
    TakenOk(s, mail);
    ItemsAt(s, mail);
    var rest := s.up[s.taken..];
    assert rest[0] == s.up[s.taken] && rest[1..] == s.up[s.taken + 1..];
    EatFirst(rest);
    hide EatIn, EatsIn, MailNotes, SiteOk;
  }

  /** An eat of a client, then the new powerup. */
  lemma HandlesEatIs(powerups: seq<Position>, l: Lobby, nextId: uint32, sites: map<Connection, Site>,
                     strays: seq<Position>, c: Connection, q: Position)
    requires LobbyOk(l, nextId) && Seated(l, sites) && MailOk(sites, l.mails) && OneClosed(l)
    requires c in sites && sites[c].taken < |sites[c].up| && EatIn(sites[c].up[sites[c].taken]) != []
    ensures var p := EatIn(sites[c].up[sites[c].taken])[0];
            var sites', l' := sites[c := sites[c].(taken := sites[c].taken + 1)], Replaced(l, c, p, q);
            && MailOk(sites', l'.mails)
            && R.RunsTo(R.World(powerups, Peers(sites, l.mails), strays), [R.HandleEat(c), R.Generate(q)],
                        R.World(RemoveFirst(powerups, p) + [q], Peers(sites', l'.mails), strays))
  {
    hide LobbyOk, Seated, Tidy, OneClosed, SiteOk, MailOk, Peers, PeerOf, EatIn, Client.NotesOf, Plain, CellMsg,
      Broadcast, R.Broadcast, R.Leads, R.RunsTo;
    var site, p := sites[c], EatIn(sites[c].up[sites[c].taken])[0];
    var site', eaten := site.(taken := site.taken + 1), CellMsg(POWERUP_EATEN, p);
    var sites', w := sites[c := site'], R.World(powerups, Peers(sites, l.mails), strays);
    CellNotes(p);
    CellIsPlain(POWERUP_EATEN, p);
    JoinedSeated(l, sites, c, site');
    OkAt(sites, l.mails, c);
    PeersAt(sites, l.mails, c);
    TidyOf(l, nextId);
    TakenIs(site, l.mails[c]);
    PeersChanged(sites, l.mails, c, site');
    NoteSent(l, sites', eaten, R.Eaten(p), c);
    HandleEatLeads(w, c, Peers(sites', l.mails), p);
    var l1 := Broadcast(l, eaten, c);
    BroadcastOk(l, nextId, sites', eaten, c);
    TidyOf(l1, nextId);
    var w1 := R.World(RemoveFirst(powerups, p), Peers(sites', l1.mails), strays);
    GenerateIs(RemoveFirst(powerups, p), l1, sites', strays, q);
    TwoRun(w, R.HandleEat(c), w1, R.Generate(q),
           R.World(RemoveFirst(powerups, p) + [q], Peers(sites', Replaced(l, c, p, q).mails), strays));
  }

  lemma EatsAround(a: seq<Msg>, m: Msg, b: seq<Msg>)
    ensures EatsIn(a + ([m] + b)) == EatsIn(a) + (EatIn(m) + EatsIn(b))
    ensures EatsIn(a + b) == EatsIn(a) + EatsIn(b)
  {
    EatsInConcat(a, [m] + b);
    EatsInConcat([m], b);
    EatsInOne(m);
    EatsInConcat(a, b);
    hide EatIn, EatsIn;
  }

  lemma SplitAt<T>(s: seq<T>, n: nat)
    requires n < |s|
    ensures s == s[..n] + ([s[n]] + s[n + 1..])
  {
  }

  lemma EatParts(queue: seq<Msg>, n: nat)
    requires n < |queue|
    ensures EatsIn(queue) == EatsIn(queue[..n]) + (EatIn(queue[n]) + EatsIn(queue[n + 1..]))
    ensures EatsIn(Without(queue, n)) == EatsIn(queue[..n]) + EatsIn(queue[n + 1..])
  {
    hide EatIn, EatsIn;
    SplitAt(queue, n);
    EatsAround(queue[..n], queue[n], queue[n + 1..]);
  }

  lemma MiddleTaken<T>(x: seq<T>, e: seq<T>, y: seq<T>)
    requires |e| == 1
    ensures (x + (e + y))[|x|] == e[0] && x + y == Without(x + (e + y), |x|)
  {
    assert (x + (e + y))[..|x|] == x && (x + (e + y))[|x| + 1..] == y;
  }

  lemma EatAt(queue: seq<Msg>, n: nat)
    requires n < |queue|
    ensures EatIn(queue[n]) == [] ==> EatsIn(Without(queue, n)) == EatsIn(queue)
    ensures EatIn(queue[n]) != [] ==>
              var k := |EatsIn(queue[..n])|;
              && k < |EatsIn(queue)| && EatsIn(queue)[k] == EatIn(queue[n])[0]
              && EatsIn(Without(queue, n)) == Without(EatsIn(queue), k)
  {
    assert |EatIn(queue[n])| <= 1;
    hide EatIn, EatsIn;
    EatParts(queue, n);
    hide Without;
    if EatIn(queue[n]) == [] {
      assert EatIn(queue[n]) + EatsIn(queue[n + 1..]) == EatsIn(queue[n + 1..]);
    } else {
      MiddleTaken(EatsIn(queue[..n]), EatIn(queue[n]), EatsIn(queue[n + 1..]));
    }
  }

  /** An eat whose sender is gone, then the new powerup. */
  lemma HandlesStrayEatIs(powerups: seq<Position>, l: Lobby, nextId: uint32, sites: map<Connection, Site>,
                          strays: seq<Position>, k: nat, c: Connection, q: Position)
    requires LobbyOk(l, nextId) && Seated(l, sites) && MailOk(sites, l.mails) && OneClosed(l)
    requires c !in sites && k < |strays|
    ensures var p := strays[k]; var l' := Replaced(l, c, p, q);
            && MailOk(sites, l'.mails)
            && R.RunsTo(R.World(powerups, Peers(sites, l.mails), strays), [R.HandleStray(k), R.Generate(q)],
                        R.World(RemoveFirst(powerups, p) + [q], Peers(sites, l'.mails), Without(strays, k)))
  {
    var p, w := strays[k], R.World(powerups, Peers(sites, l.mails), strays);
    var eaten, rest := CellMsg(POWERUP_EATEN, p), Without(strays, k);
    CellNotes(p);
    CellIsPlain(POWERUP_EATEN, p);
    TidyOf(l, nextId);
    PeersKeys(sites, l.mails);
    IgnoredStranger(Peers(sites, l.mails), R.Eaten(p), c);
    hide LobbyOk, Seated, Tidy, OneClosed, MailOk, Peers, Client.NotesOf, Plain, CellMsg, Broadcast, R.Broadcast,
      R.Leads, R.RunsTo, Without;
    NoteSent(l, sites, eaten, R.Eaten(p), c);
    HandleStrayLeads(w, k);
    var l1 := Broadcast(l, eaten, c);
    BroadcastOk(l, nextId, sites, eaten, c);
    TidyOf(l1, nextId);
    GenerateIs(RemoveFirst(powerups, p), l1, sites, rest, q);
    TwoRun(w, R.HandleStray(k), R.World(RemoveFirst(powerups, p), Peers(sites, l1.mails), rest), R.Generate(q),
           R.World(RemoveFirst(powerups, p) + [q], Peers(sites, Replaced(l, c, p, q).mails), rest));
  }

  /** Somebody who is not connected need not be ignored. */
  lemma IgnoredStranger(peers: map<Connection, R.Peer>, n: R.Note, c: Connection)
    requires c !in peers
    ensures R.Broadcast(peers, n, Some(c)) == R.Broadcast(peers, n, None)
  {
  }

  /** A report or a request to start leaves the peers alone. */
  lemma OtherAnswerIs(g: Game, c: Connection, id: uint32, m: Msg, q: Position)
    requires GameOk(g) && Answers(g, c, id, m, q) && RelayedWhole(g.lobby, c, m) && EatIn(m) == []
    ensures var after := AfterMessage(g.powerups, g.lobby, c, id, m, q);
            after.0 == g.powerups && MailOk(g.sites, after.1.mails)
            && Peers(g.sites, after.1.mails) == Peers(g.sites, g.lobby.mails)
  {
    AnswerFits(g, c, id, m, q);
    NoNotes(m);
    hide Tidy, Ids, Seated, Broadcast, Reported, OneClosed, PowerupsOk, Reportable, MailOk, Peers, Plain, Consistent,
      NobodyBut, Client.NotesOf;
    if m.header.id == UPDATE_PLAYER {
      ReportIs(g.lobby, g.nextId, g.sites, c, id, m);
    } else if m.header.id == START_GAME {
      QuietSent(g.lobby, g.sites, m, null);
    }
  }

  lemma NoNotes(m: Msg)
    ensures m.header.id == START_GAME || m.header.id == UPDATE_PLAYER ==> Client.NotesOf(m) == []
    ensures m.header.id == START_GAME && Consistent(m) ==> Plain(m)
    ensures m.header.id == UPDATE_PLAYER && Consistent(m) && ParseUpdate(m.body).Some? ==> Plain(m)
  {
    if m.header.id == UPDATE_PLAYER && Consistent(m) && ParseUpdate(m.body).Some? {
      ReportIsPlain(m);
    }
    hide ParseUpdate;
  }

  lemma ReportIs(l: Lobby, nextId: uint32, sites: map<Connection, Site>, c: Connection, id: uint32, m: Msg)
    requires LobbyOk(l, nextId) && Seated(l, sites) && OneClosed(l) && MailOk(sites, l.mails)
    requires m.header.id == UPDATE_PLAYER && Reportable(l, c, id, m.body) && id in LeftBy(l, c)
    requires Consistent(m) || NobodyBut(l, c)
    ensures MailOk(sites, Reported(l, c, id, m).mails)
    ensures Peers(sites, Reported(l, c, id, m).mails) == Peers(sites, l.mails)
  {
    hide LobbyOk, Tidy, Ids, Seated, Broadcast, Stored, Hit, ParseUpdate, IntMsg, OneClosed, LeftBy, HeadReadable,
      MailOk, Peers, Plain, Consistent, NobodyBut, Client.NotesOf;
    StoredOk(l, nextId, sites, c, id, m);
    NoNotes(m);
    var told := Broadcast(l, m, c);
    var stored := told.(players := Stored(told.players, id, m.body));
    var named := ParseUpdate(m.body).value.id;
    KillIsPlain(named);
    KillNotes(named);
    TidyOf(l, nextId);
    TidyOf(stored, nextId);
    QuietSent(l, sites, m, c);
    QuietSent(stored, sites, IntMsg(KILL_PLAYER, named), null);
  }

  lemma FedIs(s: Site, mail: seq<Msg>, i: nat)
    requires SiteOk(s, mail) && s.client.clientID >= 0 && i < |s.client.powerups|
    ensures s.heard <= |mail| && s.taken <= |s.up| && PeerOf(s, mail).list == s.client.powerups
    ensures SiteOk(Fed(s, i), mail) && R.Playing(PeerOf(s, mail))
      && PeerOf(Fed(s, i), mail) == R.WithEaten(PeerOf(s, mail), i)
  {
    hide SiteOk, R.Playing, EatIn, EatsIn, MailNotes, CellMsg;
    FedOk(s, mail, i);
    ItemsAt(s, mail);
    FedPlays(s, mail);
    var m := CellMsg(POWERUP_EATEN, s.client.powerups[i]);
    CellNotes(s.client.powerups[i]);
    assert (s.up + [m])[s.taken..] == s.up[s.taken..] + [m];
    EatsInConcat(s.up[s.taken..], [m]);
    EatsInOne(m);
  }

  lemma FedPlays(s: Site, mail: seq<Msg>)
    requires SiteOk(s, mail) && s.client.clientID >= 0
    ensures s.heard <= |mail| && s.taken <= |s.up| && R.Playing(PeerOf(s, mail))
  {
    NoSnaps(mail[s.heard..]);
    hide EatsIn, MailNotes, ItemOk, IsSnapshotMsg, UpOk;
  }

  lemma {:induction false} NoSnaps(ms: seq<Msg>)
    requires NoSnapshot(ms)
    ensures forall k :: 0 <= k < |MailNotes(ms)| ==> !MailNotes(ms)[k].Snap?
  {
    if ms != [] {
      NoSnaps(ms[1..]);
      assert forall k :: 0 <= k < |Client.NotesOf(ms[0])| ==> !Client.NotesOf(ms[0])[k].Snap?;
      hide Client.NotesOf;
    }
  }

  lemma FewNotes(m: Msg)
    ensures |Client.NotesOf(m)| <= 1
  {
    hide Pop, PopPowerupList;
  }

  lemma ApplyOne(list: seq<Position>, n: R.Note)
    ensures R.ApplyAll(list, [n]) == R.Apply(list, n)
  {
    hide R.Apply;
    assert [n][1..] == [];
  }

  lemma HeardIs(s: Site, mail: seq<Msg>)
    requires SiteOk(s, mail) && s.heard < |mail|
    ensures s.taken <= |s.up| && Client.Handled(s.client, mail[s.heard]).Some?
    ensures SiteOk(Heard(s, mail[s.heard]), mail)
    ensures var notes, peer := Client.NotesOf(mail[s.heard]), PeerOf(s, mail);
            var peer' := PeerOf(Heard(s, mail[s.heard]), mail);
            if notes == [] then peer' == peer
            else peer.inbox != [] && peer' == peer.(list := R.Apply(peer.list, peer.inbox[0]), inbox := peer.inbox[1..])
  {
    var m := mail[s.heard];
    HeardOk(s, mail);
    ItemsAt(s, mail);
    assert |Client.NotesOf(m)| <= 1 by { FewNotes(m); }
    Client.NotesOfOne(s.client, m);
    hide Client.Handled, Client.NotesOf, EatsIn, R.Apply, SiteOk;
    assert mail[s.heard..][1..] == mail[s.heard + 1..];
    var notes := Client.NotesOf(m);
    assert MailNotes(mail[s.heard..]) == notes + MailNotes(mail[s.heard + 1..]);
    hide MailNotes;
    if notes != [] {
      assert notes == [notes[0]] && notes[1..] == [];
      ApplyOne(s.client.powerups, notes[0]);
    } else {
      assert R.ApplyAll(s.client.powerups, []) == s.client.powerups;
    }
  }

  lemma UnseenIs(s: Site, mail: seq<Msg>, m: Msg, known: map<uint32, ClientPlayer>)
    requires SiteOk(s, mail)
    ensures s.heard <= |mail| && s.taken <= |s.up|
    ensures PeerOf(s.(client := s.client.(players := known)), mail) == PeerOf(s, mail)
    ensures EatIn(m) == [] ==> PeerOf(s.(up := s.up + [m]), mail) == PeerOf(s, mail)
  {
    ItemsAt(s, mail);
    hide SiteOk;
    assert (s.up + [m])[s.taken..] == s.up[s.taken..] + [m];
    EatsInConcat(s.up[s.taken..], [m]);
    EatsInOne(m);
    hide EatsIn, MailNotes, EatIn;
  }

  /** What the server gets of some of a client's messages says of powerups what they said. */
  lemma EatsArrived(s: Site, mail: seq<Msg>, n: nat)
    requires SiteOk(s, mail) && s.taken <= n <= |s.up|
    ensures n <= |Outbox(s)| && EatsIn(Outbox(s)[s.taken..n]) == EatsIn(s.up[s.taken..n])
  {
    UpConsistent(s, mail);
    var arrived, sent := Outbox(s)[s.taken..n], s.up[s.taken..n];
    hide Outbox, EatIn;
    forall k | 0 <= k < |arrived|
      ensures EatIn(arrived[k]) == EatIn(sent[k])
    {
      EatAsSent(s, mail, s.taken + k);
    }
    hide SiteOk;
    EatsSame(arrived, sent);
  }

  lemma EatsSplit(up: seq<Msg>, taken: nat, n: nat)
    requires taken <= n <= |up|
    ensures var k := |EatsIn(up[taken..n])|;
            k <= |EatsIn(up[taken..])| && EatsIn(up[taken..])[..k] == EatsIn(up[taken..n])
  {
    hide EatsIn;
    assert up[taken..] == up[taken..n] + up[n..];
    EatsInConcat(up[taken..n], up[n..]);
    assert (EatsIn(up[taken..n]) + EatsIn(up[n..]))[..|EatsIn(up[taken..n])|] == EatsIn(up[taken..n]);
  }

  lemma QueuedEats(queue: seq<Stray>, c: Connection, id: uint32, arrived: seq<Msg>)
    ensures EatsIn(Messages(queue + StraysOf(c, id, arrived))) == EatsIn(Messages(queue)) + EatsIn(arrived)
  {
    hide EatsIn;
    assert Messages(queue + StraysOf(c, id, arrived)) == Messages(queue) + arrived;
    EatsInConcat(Messages(queue), arrived);
  }

  /** What is left in the server's queue of a client that is gone. */
  lemma ArrivedEats(s: Site, mail: seq<Msg>, queue: seq<Stray>, c: Connection, n: nat)
    requires SiteOk(s, mail) && s.taken <= n <= |s.up|
    ensures n <= |Outbox(s)| && s.heard <= |mail| && s.taken <= |s.up|
    ensures var arrived := Outbox(s)[s.taken..n];
            var k := |EatsIn(arrived)|;
            k <= |PeerOf(s, mail).outbox|
            && EatsIn(Messages(queue + StraysOf(c, s.id, arrived)))
               == EatsIn(Messages(queue)) + PeerOf(s, mail).outbox[..k]
  {
    ItemsAt(s, mail);
    EatsArrived(s, mail, n);
    hide SiteOk, Outbox, EatsIn, MailNotes, Messages, StraysOf;
    EatsSplit(s.up, s.taken, n);
    QueuedEats(queue, c, s.id, Outbox(s)[s.taken..n]);
  }

  lemma PeersGone(sites: map<Connection, Site>, mails: map<Connection, seq<Msg>>, c: Connection)
    requires MailOk(sites, mails) && c in sites
    ensures MailOk(sites - {c}, mails - {c}) && Peers(sites - {c}, mails - {c}) == Peers(sites, mails) - {c}
  {
    hide PeerOf, SiteOk;
    SiteGone(sites, mails, c);
  }

  // ---------------------------------------------------------------- joining

  lemma JoinedIs(s: Site, mail: seq<Msg>, m: Msg, powerups: seq<Position>)
    requires SiteOk(s, mail) && Client.NotesOf(m) == [R.Snap(powerups)]
    ensures s.heard <= |mail| && s.taken <= |s.up|
    ensures var peer := PeerOf(s, mail);
            PeerOf(Joined(s, |powerups|), mail + [m])
            == peer.(joined := true, defaults := |powerups|, inbox := peer.inbox + [R.Snap(powerups)])
  {
    ItemsAt(s, mail);
    PeerMore(s, mail, [m]);
    MailNotesOne(m);
    hide SiteOk, Client.NotesOf, MailNotes, EatsIn;
    assert (mail + [m])[s.heard..] == mail[s.heard..] + [m];
  }

  lemma SnapshotSent(sites: map<Connection, Site>, mails: map<Connection, seq<Msg>>, c: Connection, m: Msg,
                     powerups: seq<Position>)
    requires MailOk(sites, mails) && c in sites && c in mails && !sites[c].joined
    requires IsSnapshotMsg(m) && ItemOk(sites[c].id, m) && Client.NotesOf(m) == [R.Snap(powerups)]
    ensures var sites', mails' := sites[c := Joined(sites[c], |powerups|)], mails[c := mails[c] + [m]];
            var peers := Peers(sites, mails);
            && MailOk(sites', mails') && c in peers
            && var p := peers[c];
               Peers(sites', mails') == peers[c := p.(joined := true, defaults := |powerups|,
                 inbox := p.inbox + [R.Snap(powerups)])]
  {
    hide PeerOf, Client.NotesOf, IsSnapshotMsg, ItemOk, SiteOk, Joined;
    OkAt(sites, mails, c);
    JoinedIs(sites[c], mails[c], m, powerups);
    PeersAt(sites, mails, c);
    SnapshotFits(sites, mails, c, m, |powerups|);
    var sites', mails' := sites[c := Joined(sites[c], |powerups|)], mails[c := mails[c] + [m]];
    PeersAt(sites', mails', c);
    PeersApart(sites, mails, sites', mails', c);
  }

  lemma GenerateLast(front: seq<Position>, q: Position)
    ensures GenerateAll(front + [q]) == GenerateAll(front) + [R.Generate(q)]
  {
  }

  lemma GenerateNone()
    ensures GenerateAll([]) == []
  {
  }

  lemma RunsOn(w: R.World<Connection>, steps: seq<R.Step<Connection>>, w1: R.World<Connection>, s: R.Step<Connection>,
               w2: R.World<Connection>)
    requires R.RunsTo(w, steps, w1) && R.Leads(w1, s, w2)
    ensures R.RunsTo(w, steps + [s], w2)
  {
    OneRun(w1, s, w2);
    R.AfterConcat(w, steps, [s]);
    hide R.Leads;
  }

  /** The powerups that are added when a client joins. */
  lemma {:induction false} AllGenerated(powerups: seq<Position>, l: Lobby, nextId: uint32, sites: map<Connection, Site>,
                                        strays: seq<Position>, qs: seq<Position>)
    requires LobbyOk(l, nextId) && Seated(l, sites) && OneClosed(l) && MailOk(sites, l.mails)
    ensures var mails := Announced(l, qs).mails;
            && MailOk(sites, mails)
            && R.RunsTo(R.World(powerups, Peers(sites, l.mails), strays), GenerateAll(qs),
                        R.World(powerups + qs, Peers(sites, mails), strays))
    decreases |qs|
  {
    hide LobbyOk, Seated, OneClosed, MailOk, Peers, R.RunsTo, R.Leads, Broadcast, GenerateAll, Announced, CellMsg;
    var w := R.World(powerups, Peers(sites, l.mails), strays);
    AnnouncedFits(l, nextId, sites, qs);
    if qs == [] {
      assert powerups + qs == powerups;
      R.NoRun(w);
      GenerateNone();
      AnnouncedNone(l);
    } else {
      var front, q := qs[..|qs| - 1], qs[|qs| - 1];
      assert qs == front + [q];
      AllGenerated(powerups, l, nextId, sites, strays, front);
      AnnouncedOk(l, nextId, sites, front);
      GenerateLast(front, q);
      AnnouncedLast(l, front, q);
      var l1 := Announced(l, front);
      TidyOf(l1, nextId);
      GenerateIs(powerups + front, l1, sites, strays, q);
      assert powerups + front + [q] == powerups + qs;
      RunsOn(w, GenerateAll(front), R.World(powerups + front, Peers(sites, l1.mails), strays), R.Generate(q),
             R.World(powerups + qs, Peers(sites, Announced(l, qs).mails), strays));
    }
  }

  // ---------------------------------------------------------------- every step, every run

  /** The step `s` of the system is a run of `Replica`, and keeps what every clean run keeps. */
  ghost predicate Refines(g: Game, s: Step)
    requires GameOk(g) && Enabled(g, s)
  {
    GameOk(Next(g, s)) && R.RunsTo(Abs(g), Steps(g, s), Abs(Next(g, s)))
  }

  lemma AcceptRefines(g: Game, c: Connection)
    requires GameOk(g) && Enabled(g, Accepts(c))
    ensures Refines(g, Accepts(c))
  {
    hide WellFormed, MailOk, R.Leads, R.RunsTo, Peers, EatsIn;
    NextFits(g, Accepts(c));
    PeersEntered(g.sites, g.lobby.mails, c, g.nextId);
    PeersKeys(g.sites, g.lobby.mails);
    ConnectLeads(Abs(g), c);
    OneRun(Abs(g), R.Connect(c), Abs(Next(g, Accepts(c))));
  }

  lemma PeersEntered(sites: map<Connection, Site>, mails: map<Connection, seq<Msg>>, c: Connection, id: uint32)
    requires MailOk(sites, mails) && c !in sites
    ensures var sites', mails' := sites[c := Site(id, false, 0, 0, NEW_CLIENT, [], 0)], mails[c := []];
            MailOk(sites', mails') && Peers(sites', mails') == Peers(sites, mails)[c := R.NEWCOMER]
  {
    AcceptsFits(sites, mails, c, id);
    assert PeerOf(Site(id, false, 0, 0, NEW_CLIENT, [], 0), []) == R.NEWCOMER;
    hide SiteOk, PeerOf;
  }

  /** The snapshot. */
  lemma NewcomerIs(g: Game, s: Step, strays: seq<Position>)
    requires GameOk(g) && s.Validates? && s.c in g.sites && !g.sites[s.c].joined && OneClosed(g.lobby)
    requires Consistent(s.snapshot)
    requires IsSnapshot(s.snapshot, g.lobby.players[g.sites[s.c].id := NewPlayer(s.spawn, s.color)], g.powerups,
                        g.sites[s.c].id)
    ensures var l, sites := WithNewcomer(g, s), WithJoined(g, s.c);
            && LobbyOk(l, g.nextId) && Seated(l, sites) && OneClosed(l) && MailOk(sites, l.mails)
            && R.Leads(R.World(g.powerups, Peers(g.sites, g.lobby.mails), strays), R.Validate(s.c),
                       R.World(g.powerups, Peers(sites, l.mails), strays))
  {
    var id, p := g.sites[s.c].id, NewPlayer(s.spawn, s.color);
    NewcomerFits(g, s);
    hide WellFormed, LobbyOk, Seated, OneClosed, MailOk, IsSnapshot, Consistent, Peers, Client.NotesOf, IsSnapshotMsg,
      ItemOk, Readable, Welcomes, R.Leads, Joined;
    SnapshotFacts(s.snapshot, g.lobby.players[id := p], g.powerups, id);
    SnapshotIsOk(s.snapshot, g.lobby.players[id := p], g.powerups, id);
    SnapshotSent(g.sites, g.lobby.mails, s.c, s.snapshot, g.powerups);
    PeersAt(g.sites, g.lobby.mails, s.c);
    ValidateLeads(R.World(g.powerups, Peers(g.sites, g.lobby.mails), strays), s.c);
  }

  lemma AnnouncementNotes(id: uint32, p: PlayerData)
    requires Countable(p.tail)
    ensures Client.NotesOf(PlayerMsg(id, p)) == []
  {
    hide PushPlayer;
  }

  /** The announcement of a new player has no notes. */
  lemma NewPlayerSent(l: Lobby, nextId: uint32, sites: map<Connection, Site>, c: Connection, id: uint32,
                      spawn: Position, color: uint32)
    requires LobbyOk(l, nextId) && Seated(l, sites) && OneClosed(l) && MailOk(sites, l.mails)
    ensures var l' := Broadcast(l, PlayerMsg(id, NewPlayer(spawn, color)), c);
            && LobbyOk(l', nextId) && Seated(l', sites) && OneClosed(l') && MailOk(sites, l'.mails)
            && Peers(sites, l'.mails) == Peers(sites, l.mails)
  {
    var m := PlayerMsg(id, NewPlayer(spawn, color));
    hide LobbyOk, Seated, OneClosed, MailOk, Peers, Plain, PlayerMsg, Broadcast, Client.NotesOf, Tidy;
    AnnouncementIsPlain(id, spawn, color);
    AnnouncementNotes(id, NewPlayer(spawn, color));
    TidyOf(l, nextId);
    BroadcastOk(l, nextId, sites, m, c);
    QuietSent(l, sites, m, c);
  }

  lemma ValidatesRefines(g: Game, s: Step)
    requires GameOk(g) && Enabled(g, s) && s.Validates? && Clean(g, s)
    ensures Refines(g, s)
  {
    hide WellFormed, LobbyOk, Seated, OneClosed, MailOk, Peers, R.RunsTo, R.Leads, GenerateAll, EatsIn, Announced,
      Broadcast, PlayerMsg, IsSnapshot, AllDrawn, Filled, Consistent;
    NextFits(g, s);
    var strays := EatsIn(Messages(g.queue));
    NewcomerIs(g, s, strays);
    NewPlayerSent(WithNewcomer(g, s), g.nextId, WithJoined(g, s.c), s.c, g.sites[s.c].id, s.spawn, s.color);
    var l := Introduced(g.lobby, s.c, g.sites[s.c].id, NewPlayer(s.spawn, s.color), s.snapshot);
    AllGenerated(g.powerups, l, g.nextId, WithJoined(g, s.c), strays, s.added);
    R.LeadsOn(Abs(g), R.Validate(s.c), R.World(g.powerups, Peers(WithJoined(g, s.c), l.mails), strays),
              GenerateAll(s.added), Abs(Next(g, s)));
  }

  lemma EatIs(m: Msg)
    ensures EatIn(m) != [] ==> m.header.id == POWERUP_EATEN && Pop(m.body, CellKind).Some?
                               && EatIn(m)[0] == Pop(m.body, CellKind).value.0.cell
    ensures EatIn(m) == [] && Pop(m.body, CellKind).Some? ==> m.header.id != POWERUP_EATEN
  {
    hide Pop;
  }

  /** A message about something else is off its way. */
  lemma TakenSame(sites: map<Connection, Site>, mails: map<Connection, seq<Msg>>, c: Connection)
    requires MailOk(sites, mails) && c in sites && sites[c].taken < |sites[c].up|
    requires EatIn(sites[c].up[sites[c].taken]) == []
    ensures var sites' := sites[c := sites[c].(taken := sites[c].taken + 1)];
            MailOk(sites', mails) && Peers(sites', mails) == Peers(sites, mails)
  {
    OkAt(sites, mails, c);
    ItemsAt(sites[c], mails[c]);
    hide MailOk, SiteOk, Peers, EatIn, PeerOf;
    TakenIs(sites[c], mails[c]);
    PeersSame(sites, mails, c, sites[c].(taken := sites[c].taken + 1));
  }

  /** The next message of a client, as it came and as it was sent. */
  lemma NextMessage(g: Game, c: Connection)
    requires GameOk(g) && c in g.sites && g.sites[c].taken < |Outbox(g.sites[c])|
    ensures var s := g.sites[c]; s.taken < |s.up| && EatIn(Outbox(s)[s.taken]) == EatIn(s.up[s.taken])
  {
    OkAt(g.sites, g.lobby.mails, c);
    hide WellFormed, MailOk, SiteOk, Outbox, EatIn;
    UpConsistent(g.sites[c], g.lobby.mails[c]);
    EatAsSent(g.sites[c], g.lobby.mails[c], g.sites[c].taken);
  }

  lemma EatAnswer(g: Game, c: Connection, id: uint32, m: Msg, q: Position)
    requires Answers(g, c, id, m, q) && EatIn(m) != []
    ensures var p := EatIn(m)[0];
            && OneClosed(g.lobby)
            && AfterMessage(g.powerups, g.lobby, c, id, m, q)
               == (RemoveFirst(g.powerups, p) + [q], Replaced(g.lobby, c, p, q))
  {
    EatIs(m);
    hide EatIn, Pop, Replaced, OneClosed, Drawn, RemoveFirst;
  }

  /** The state after a client's eat. */
  lemma AfterEat(g: Game, c: Connection, q: Position)
    requires Enabled(g, Handles(c, q)) && EatIn(Outbox(g.sites[c])[g.sites[c].taken]) != []
    ensures OneClosed(g.lobby)
    ensures var site := g.sites[c];
            var p := EatIn(Outbox(site)[site.taken])[0];
            Next(g, Handles(c, q))
            == g.(powerups := RemoveFirst(g.powerups, p) + [q], lobby := Replaced(g.lobby, c, p, q),
                  sites := g.sites[c := site.(taken := site.taken + 1)])
  {
    var site := g.sites[c];
    EatAnswer(g, c, site.id, Outbox(site)[site.taken], q);
    hide EatIn, Outbox, Replaced, Answers, AfterMessage, RemoveFirst, OneClosed;
  }

  lemma HandlesEatRefines(g: Game, c: Connection, q: Position)
    requires GameOk(g) && Enabled(g, Handles(c, q)) && EatIn(Outbox(g.sites[c])[g.sites[c].taken]) != []
    requires GameOk(Next(g, Handles(c, q)))
    ensures Refines(g, Handles(c, q))
  {
    hide LobbyOk, Seated, OneClosed, PowerupsOk, StraysOk, MailOk, Peers, R.RunsTo, EatIn, EatsIn, Outbox, Replaced,
      Messages, Answers, RemoveFirst;
    NextMessage(g, c);
    AfterEat(g, c, q);
    hide Next;
    HandlesEatIs(g.powerups, g.lobby, g.nextId, g.sites, EatsIn(Messages(g.queue)), c, q);
  }

  lemma HandlesOtherRefines(g: Game, c: Connection, q: Position)
    requires GameOk(g) && Enabled(g, Handles(c, q)) && Clean(g, Handles(c, q))
    requires EatIn(Outbox(g.sites[c])[g.sites[c].taken]) == [] && GameOk(Next(g, Handles(c, q)))
    ensures Refines(g, Handles(c, q))
  {
    hide WellFormed, MailOk, Peers, R.RunsTo, EatIn, EatsIn, Outbox, RelayedWhole, Messages, Answers, AfterMessage;
    NextMessage(g, c);
    var site := g.sites[c];
    OtherAnswerIs(g, c, site.id, Outbox(site)[site.taken], q);
    TakenSame(g.sites, Next(g, Handles(c, q)).lobby.mails, c);
    R.NoRun(Abs(g));
  }

  lemma HandlesRefines(g: Game, c: Connection, q: Position)
    requires GameOk(g) && Enabled(g, Handles(c, q)) && Clean(g, Handles(c, q))
    ensures Refines(g, Handles(c, q))
  {
    hide Refines, GameOk, EatIn, Answers, RelayedWhole, Next, Outbox;
    NextFits(g, Handles(c, q));
    if EatIn(Outbox(g.sites[c])[g.sites[c].taken]) != [] {
      HandlesEatRefines(g, c, q);
    } else {
      HandlesOtherRefines(g, c, q);
    }
  }

  lemma AfterStrayEat(g: Game, n: nat, q: Position)
    requires Enabled(g, HandlesStray(n, q)) && EatIn(g.queue[n].m) != []
    ensures OneClosed(g.lobby)
    ensures var p := EatIn(g.queue[n].m)[0];
            Next(g, HandlesStray(n, q)) == g.(powerups := RemoveFirst(g.powerups, p) + [q],
                                              lobby := Replaced(g.lobby, g.queue[n].conn, p, q),
                                              queue := Without(g.queue, n))
  {
    EatAnswer(g, g.queue[n].conn, g.queue[n].id, g.queue[n].m, q);
    hide EatIn, Replaced, Answers, AfterMessage, RemoveFirst, OneClosed;
  }

  /** The eats in the queue once message `n` is out of it. */
  lemma QueueWithout(queue: seq<Stray>, n: nat)
    requires n < |queue|
    ensures |Messages(queue)| == |queue| && Messages(queue)[n] == queue[n].m
    ensures Messages(Without(queue, n)) == Without(Messages(queue), n)
    ensures EatIn(queue[n].m) == [] ==> EatsIn(Messages(Without(queue, n))) == EatsIn(Messages(queue))
    ensures EatIn(queue[n].m) != [] ==>
              var k, strays := |EatsIn(Messages(queue)[..n])|, EatsIn(Messages(queue));
              && k < |strays| && strays[k] == EatIn(queue[n].m)[0]
              && EatsIn(Messages(Without(queue, n))) == Without(strays, k)
  {
    assert Messages(Without(queue, n)) == Without(Messages(queue), n);
    EatAt(Messages(queue), n);
    hide EatsIn, EatIn;
  }

  lemma StrayEatRefines(g: Game, n: nat, q: Position)
    requires GameOk(g) && Enabled(g, HandlesStray(n, q)) && EatIn(g.queue[n].m) != []
    requires GameOk(Next(g, HandlesStray(n, q)))
    ensures Refines(g, HandlesStray(n, q))
  {
    hide LobbyOk, Seated, OneClosed, PowerupsOk, MailOk, Peers, R.RunsTo, EatIn, EatsIn, Replaced, Without, Messages,
      Answers, RemoveFirst;
    QueueWithout(g.queue, n);
    AfterStrayEat(g, n, q);
    assert g.queue[n].conn !in g.sites;
    hide Next;
    HandlesStrayEatIs(g.powerups, g.lobby, g.nextId, g.sites, EatsIn(Messages(g.queue)),
                      |EatsIn(Messages(g.queue)[..n])|, g.queue[n].conn, q);
  }

  lemma StrayOtherRefines(g: Game, n: nat, q: Position)
    requires GameOk(g) && Enabled(g, HandlesStray(n, q)) && Clean(g, HandlesStray(n, q)) && EatIn(g.queue[n].m) == []
    requires GameOk(Next(g, HandlesStray(n, q)))
    ensures Refines(g, HandlesStray(n, q))
  {
    hide WellFormed, MailOk, Peers, R.RunsTo, EatIn, EatsIn, RelayedWhole, Without, Messages, Answers, AfterMessage;
    var stray := g.queue[n];
    QueueWithout(g.queue, n);
    OtherAnswerIs(g, stray.conn, stray.id, stray.m, q);
    R.NoRun(Abs(g));
  }

  lemma StrayRefines(g: Game, n: nat, q: Position)
    requires GameOk(g) && Enabled(g, HandlesStray(n, q)) && Clean(g, HandlesStray(n, q))
    ensures Refines(g, HandlesStray(n, q))
  {
    NextFits(g, HandlesStray(n, q));
    hide Refines, GameOk, EatIn, Answers, RelayedWhole, Next;
    if EatIn(g.queue[n].m) != [] {
      StrayEatRefines(g, n, q);
    } else {
      StrayOtherRefines(g, n, q);
    }
  }

  lemma EatsRefines(g: Game, c: Connection, i: nat)
    requires GameOk(g) && Enabled(g, Eats(c, i))
    ensures Refines(g, Eats(c, i))
  {
    hide WellFormed, MailOk, Peers, PeerOf, SiteOk, R.RunsTo, R.Leads, R.Playing, R.WithEaten, Fed, EatsIn;
    NextFits(g, Eats(c, i));
    OkAt(g.sites, g.lobby.mails, c);
    FedIs(g.sites[c], g.lobby.mails[c], i);
    PeersAt(g.sites, g.lobby.mails, c);
    PeersChanged(g.sites, g.lobby.mails, c, Fed(g.sites[c], i));
    EatLeads(Abs(g), c, i);
    OneRun(Abs(g), R.Eat(c, i), Abs(Next(g, Eats(c, i))));
  }

  lemma UnseenRefines(g: Game, s: Step)
    requires GameOk(g) && Enabled(g, s) && Clean(g, s) && (s.Sends? || s.Moves?)
    ensures Refines(g, s)
  {
    hide WellFormed, MailOk, Peers, PeerOf, SiteOk, R.RunsTo, EatsIn;
    NextFits(g, s);
    OkAt(g.sites, g.lobby.mails, s.c);
    var site, mail := g.sites[s.c], g.lobby.mails[s.c];
    if s.Sends? {
      UnseenIs(site, mail, s.m, map[]);
      SentOk(site, mail, s.m);
    } else {
      UnseenIs(site, mail, EMPTY_MESSAGE, s.known);
      MovedOk(site, mail, s.known);
    }
    ItemsAt(Next(g, s).sites[s.c], mail);
    PeersSame(g.sites, g.lobby.mails, s.c, Next(g, s).sites[s.c]);
    R.NoRun(Abs(g));
  }

  lemma HearsRefines(g: Game, c: Connection)
    requires GameOk(g) && Enabled(g, Hears(c))
    ensures Refines(g, Hears(c))
  {
    hide WellFormed, MailOk, Peers, PeerOf, SiteOk, R.RunsTo, R.Leads, EatsIn, Heard, Client.NotesOf, R.Apply, Inbox,
      T.Arrived;
    NextFits(g, Hears(c));
    InboxIs(g, c);
    OkAt(g.sites, g.lobby.mails, c);
    var site, mail := g.sites[c], g.lobby.mails[c];
    HeardIs(site, mail);
    HeardSame(site, mail);
    NotesSame(site, mail);
    PeersAt(g.sites, g.lobby.mails, c);
    var site' := Heard(site, mail[site.heard]);
    ItemsAt(site', mail);
    if Client.NotesOf(mail[site.heard]) == [] {
      PeersSame(g.sites, g.lobby.mails, c, site');
      R.NoRun(Abs(g));
    } else {
      PeersChanged(g.sites, g.lobby.mails, c, site');
      DeliverLeads(Abs(g), c);
      OneRun(Abs(g), R.Deliver(c), Abs(Next(g, Hears(c))));
    }
  }

  lemma NotesSame(s: Site, mail: seq<Msg>)
    requires SiteOk(s, mail) && s.heard < |mail|
    ensures s.heard < |T.Arrived(mail)|
    ensures Client.NotesOf(T.Arrived(mail)[s.heard]) == Client.NotesOf(mail[s.heard])
  {
    ItemsAt(s, mail);
    HeardAsSent(s.client, s.id, mail, s.heard);
    hide SiteOk, AllItems, T.Arrived, Client.NotesOf;
  }

  lemma ClosesRefines(g: Game, c: Connection, n: nat)
    requires GameOk(g) && Enabled(g, Closes(c, n))
    ensures Refines(g, Closes(c, n))
  {
    hide WellFormed, SiteOk, MailOk, Peers, PeerOf, R.RunsTo, R.Leads, EatsIn, Outbox, StraysOf, Messages;
    NextFits(g, Closes(c, n));
    OkAt(g.sites, g.lobby.mails, c);
    UpConsistent(g.sites[c], g.lobby.mails[c]);
    ArrivedEats(g.sites[c], g.lobby.mails[c], g.queue, c, n);
    PeersAt(g.sites, g.lobby.mails, c);
    PeersGone(g.sites, g.lobby.mails, c);
    var k := |EatsIn(Outbox(g.sites[c])[g.sites[c].taken..n])|;
    DisconnectLeads(Abs(g), c, k);
    OneRun(Abs(g), R.Disconnect(c, k), Abs(Next(g, Closes(c, n))));
  }

  /** Every handler is some steps of `Replica`. */
  lemma StepRefines(g: Game, s: Step)
    requires GameOk(g) && Enabled(g, s) && Clean(g, s)
    ensures Refines(g, s)
  {
    hide GameOk, Enabled, Refines, Clean;
    match s
    case Accepts(c) => AcceptRefines(g, c);
    case Validates(_, _, _, _, _) => ValidatesRefines(g, s);
    case Handles(c, q) => HandlesRefines(g, c, q);
    case HandlesStray(n, q) => StrayRefines(g, n, q);
    case Hears(c) => HearsRefines(g, c);
    case Moves(_, _) => UnseenRefines(g, s);
    case Eats(c, i) => EatsRefines(g, c, i);
    case Sends(_, _) => UnseenRefines(g, s);
    case Closes(c, n) => ClosesRefines(g, c, n);
  }

  ghost function AllSteps(g: Game, steps: seq<Step>): seq<R.Step<Connection>>
    requires Possible(g, steps)
    decreases |steps|
  {
    if steps == [] then [] else Steps(g, steps[0]) + AllSteps(Next(g, steps[0]), steps[1..])
  }

  /** Every clean run of the server's and the clients' handlers together is a run of `Replica`. */
  lemma {:induction false} RunRefines(g: Game, steps: seq<Step>)
    requires GameOk(g) && Possible(g, steps) && CleanRun(g, steps)
    ensures GameOk(After(g, steps)) && R.RunsTo(Abs(g), AllSteps(g, steps), Abs(After(g, steps)))
    decreases |steps|
  {
    hide GameOk, Enabled, Next, Steps, Abs, R.RunsTo, Clean;
    if steps == [] {
      R.NoRun(Abs(g));
    } else {
      StepRefines(g, steps[0]);
      RunRefines(Next(g, steps[0]), steps[1..]);
      RunsConcat(Abs(g), Steps(g, steps[0]), Abs(Next(g, steps[0])), AllSteps(Next(g, steps[0]), steps[1..]),
                 Abs(After(g, steps)));
    }
  }

  lemma RunsConcat(w: R.World<Connection>, a: seq<R.Step<Connection>>, w1: R.World<Connection>,
                   b: seq<R.Step<Connection>>, w2: R.World<Connection>)
    requires R.RunsTo(w, a, w1) && R.RunsTo(w1, b, w2)
    ensures R.RunsTo(w, a + b, w2)
  {
    R.AfterConcat(w, a, b);
  }

  // ---------------------------------------------------------------- runs without races

  /** What keeps two eats of one powerup apart, in terms of the system: a client eats what the server
      still has, and no other eat of it and no removal of it for this client is under way. */
  ghost predicate Fair(g: Game, s: Step)
    requires Enabled(g, s)
  {
    s.Eats? ==>
      var x := g.sites[s.c].client.powerups[s.i];
      && x in g.powerups && x !in EatsIn(Messages(g.queue))
      && s.c in g.lobby.mails && g.sites[s.c].heard <= |g.lobby.mails[s.c]|
      && R.Eaten(x) !in MailNotes(g.lobby.mails[s.c][g.sites[s.c].heard..])
      && forall d :: d in g.sites ==>
           g.sites[d].taken <= |g.sites[d].up| && x !in EatsIn(g.sites[d].up[g.sites[d].taken..])
  }

  ghost predicate FairRun(g: Game, steps: seq<Step>)
    requires Possible(g, steps)
    decreases |steps|
  {
    steps == [] || (Fair(g, steps[0]) && FairRun(Next(g, steps[0]), steps[1..]))
  }

  lemma FairOne(w: R.World<Connection>, s: R.Step<Connection>)
    requires R.Fair(w, s)
    ensures R.FairRun(w, [s])
  {
    assert [s][1..] == [];
    hide R.Next, R.Fair;
  }

  lemma FairTwo(w: R.World<Connection>, s: R.Step<Connection>, w1: R.World<Connection>, t: R.Step<Connection>)
    requires R.Fair(w, s) && R.Leads(w, s, w1) && R.Fair(w1, t)
    ensures R.FairRun(w, [s, t])
  {
    FairOne(w1, t);
    assert [s, t][1..] == [t];
    hide R.Next, R.Fair;
  }

  lemma {:induction false} FairConcat(w: R.World<Connection>, a: seq<R.Step<Connection>>, w1: R.World<Connection>,
                                      b: seq<R.Step<Connection>>)
    requires R.FairRun(w, a) && R.RunsTo(w, a, w1) && R.FairRun(w1, b)
    ensures R.FairRun(w, a + b)
    decreases |a|
  {
    hide R.Next, R.Fair, R.Enabled;
    if a == [] {
      assert a + b == b;
    } else {
      FairConcat(R.Next(w, a[0]), a[1..], w1, b);
      assert (a + b)[1..] == a[1..] + b;
    }
  }

  lemma NotAmong(players: map<uint32, PlayerData>, powerups: seq<Position>, q: Position)
    requires Free(players, powerups, q)
    ensures q !in powerups
  {
  }

  lemma EatDrawn(g: Game, c: Connection, id: uint32, m: Msg, q: Position)
    requires Answers(g, c, id, m, q) && EatIn(m) != []
    ensures q !in RemoveFirst(g.powerups, EatIn(m)[0])
  {
    EatIs(m);
    hide EatIn, Pop, OneClosed, Answerable, LeftBy, RemoveFirst, Free;
    NotAmong(LeftBy(g.lobby, c), RemoveFirst(g.powerups, EatIn(m)[0]), q);
  }

  lemma EatThenNew(w: R.World<Connection>, c: Connection, p: Position, q: Position)
    requires c in w.peers && w.peers[c].outbox != [] && w.peers[c].outbox[0] == p && q !in RemoveFirst(w.server, p)
    ensures R.FairRun(w, [R.HandleEat(c), R.Generate(q)])
  {
    hide R.Broadcast, R.FairRun;
    var peers := w.peers[c := w.peers[c].(outbox := w.peers[c].outbox[1..])];
    HandleEatLeads(w, c, peers, p);
    FairTwo(w, R.HandleEat(c), R.World(RemoveFirst(w.server, p), R.Broadcast(peers, R.Eaten(p), Some(c)), w.strays),
            R.Generate(q));
  }

  lemma StrayThenNew(w: R.World<Connection>, k: nat, q: Position)
    requires k < |w.strays| && q !in RemoveFirst(w.server, w.strays[k])
    ensures R.FairRun(w, [R.HandleStray(k), R.Generate(q)])
  {
    hide R.Broadcast, R.FairRun;
    HandleStrayLeads(w, k);
    FairTwo(w, R.HandleStray(k),
            R.World(RemoveFirst(w.server, w.strays[k]), R.Broadcast(w.peers, R.Eaten(w.strays[k]), None),
                    Without(w.strays, k)),
            R.Generate(q));
  }

  lemma HandlesEatFair(g: Game, c: Connection, q: Position)
    requires GameOk(g) && Enabled(g, Handles(c, q)) && EatIn(Outbox(g.sites[c])[g.sites[c].taken]) != []
    ensures R.FairRun(Abs(g), [R.HandleEat(c), R.Generate(q)])
  {
    hide WellFormed, MailOk, Peers, PeerOf, EatIn, Outbox, Messages, EatsIn, R.FairRun, RemoveFirst, Answers;
    var site := g.sites[c];
    EatDrawn(g, c, site.id, Outbox(site)[site.taken], q);
    OldestEat(g, c);
    EatThenNew(Abs(g), c, EatIn(Outbox(site)[site.taken])[0], q);
  }

  /** The oldest eat of a client in the abstraction. */
  lemma OldestEat(g: Game, c: Connection)
    requires GameOk(g) && c in g.sites && g.sites[c].taken < |Outbox(g.sites[c])|
    requires EatIn(Outbox(g.sites[c])[g.sites[c].taken]) != []
    ensures var w, e := Abs(g), EatIn(Outbox(g.sites[c])[g.sites[c].taken])[0];
            c in w.peers && w.peers[c].outbox != [] && w.peers[c].outbox[0] == e
  {
    NextMessage(g, c);
    hide WellFormed, MailOk, Peers, PeerOf, EatIn, Outbox, Messages, EatsIn, SiteOk;
    OkAt(g.sites, g.lobby.mails, c);
    PeersAt(g.sites, g.lobby.mails, c);
    TakenIs(g.sites[c], g.lobby.mails[c]);
  }

  lemma StrayEatFair(g: Game, n: nat, q: Position)
    requires GameOk(g) && Enabled(g, HandlesStray(n, q)) && EatIn(g.queue[n].m) != []
    ensures R.FairRun(Abs(g), Steps(g, HandlesStray(n, q)))
  {
    hide WellFormed, MailOk, Peers, EatIn, EatsIn, Messages, R.FairRun, RemoveFirst, Answers, Without;
    QueueWithout(g.queue, n);
    EatDrawn(g, g.queue[n].conn, g.queue[n].id, g.queue[n].m, q);
    StrayThenNew(Abs(g), |EatsIn(Messages(g.queue)[..n])|, q);
  }

  lemma EatsFair(g: Game, c: Connection, i: nat)
    requires GameOk(g) && Enabled(g, Eats(c, i)) && Fair(g, Eats(c, i))
    ensures R.FairRun(Abs(g), [R.Eat(c, i)])
  {
    hide WellFormed, MailOk, SiteOk, EatsIn, Messages, R.FairRun, MailNotes;
    OkAt(g.sites, g.lobby.mails, c);
    FedIs(g.sites[c], g.lobby.mails[c], i);
    PeersAt(g.sites, g.lobby.mails, c);
    hide R.Playing;
    var w, x := Abs(g), g.sites[c].client.powerups[i];
    forall d | d in w.peers
      ensures x !in w.peers[d].outbox
    {
      PeersKeys(g.sites, g.lobby.mails);
      PeersAt(g.sites, g.lobby.mails, d);
    }
    hide Peers, PeerOf;
    FairOne(w, R.Eat(c, i));
  }

  /** Each of `added` is on a cell without a powerup. */
  predicate NewEach(powerups: seq<Position>, added: seq<Position>) {
    forall k :: 0 <= k < |added| ==> added[k] !in powerups + added[..k]
  }

  lemma DrawnAreNew(players: map<uint32, PlayerData>, powerups: seq<Position>, added: seq<Position>)
    requires AllDrawn(players, powerups, added)
    ensures NewEach(powerups, added)
  {
    forall k | 0 <= k < |added|
      ensures added[k] !in powerups + added[..k]
    {
      NotAmong(players, powerups + added[..k], added[k]);
    }
  }

  lemma {:induction false} GenerateAllFair(powerups: seq<Position>, l: Lobby, nextId: uint32,
                                           sites: map<Connection, Site>, strays: seq<Position>, qs: seq<Position>)
    requires LobbyOk(l, nextId) && Seated(l, sites) && OneClosed(l) && MailOk(sites, l.mails) && NewEach(powerups, qs)
    ensures R.FairRun(R.World(powerups, Peers(sites, l.mails), strays), GenerateAll(qs))
    decreases |qs|
  {
    hide LobbyOk, Seated, OneClosed, MailOk, Peers, R.RunsTo, R.FairRun, R.Fair, R.Possible, Broadcast, GenerateAll,
      Announced, NewEach;
    var w := R.World(powerups, Peers(sites, l.mails), strays);
    if qs == [] {
      GenerateNone();
      AnnouncedNone(l);
      NothingIsFair(w);
    } else {
      var front, q := qs[..|qs| - 1], qs[|qs| - 1];
      assert qs == front + [q];
      NewLast(powerups, front, q);
      GenerateAllFair(powerups, l, nextId, sites, strays, front);
      AllGenerated(powerups, l, nextId, sites, strays, front);
      GenerateLast(front, q);
      var w1 := R.World(powerups + front, Peers(sites, Announced(l, front).mails), strays);
      NewIsFair(w1, q);
      FairOne(w1, R.Generate(q));
      FairConcat(w, GenerateAll(front), w1, [R.Generate(q)]);
    }
  }

  lemma NewLast(powerups: seq<Position>, front: seq<Position>, q: Position)
    requires NewEach(powerups, front + [q])
    ensures NewEach(powerups, front) && q !in powerups + front
  {
    var qs := front + [q];
    assert qs[..|front|] == front && qs[|front|] == q;
    assert forall k :: 0 <= k < |front| ==> qs[..k] == front[..k] && qs[k] == front[k];
  }

  lemma NewIsFair(w: R.World<Connection>, q: Position)
    requires q !in w.server
    ensures R.Fair(w, R.Generate(q))
  {
  }

  lemma NothingIsFair(w: R.World<Connection>)
    ensures R.FairRun(w, [])
  {
  }

  lemma ValidatesFair(g: Game, s: Step)
    requires GameOk(g) && Enabled(g, s) && s.Validates? && Clean(g, s)
    ensures R.FairRun(Abs(g), Steps(g, s))
  {
    hide WellFormed, LobbyOk, Seated, OneClosed, MailOk, Peers, R.Leads, R.FairRun, R.RunsTo, GenerateAll, EatsIn,
      NewEach, Broadcast, PlayerMsg, IsSnapshot, AllDrawn, Filled, Consistent, Messages;
    var l := Introduced(g.lobby, s.c, g.sites[s.c].id, NewPlayer(s.spawn, s.color), s.snapshot);
    DrawnAreNew(l.players, g.powerups, s.added);
    var w := Abs(g);
    NewcomerIs(g, s, w.strays);
    NewPlayerSent(WithNewcomer(g, s), g.nextId, WithJoined(g, s.c), s.c, g.sites[s.c].id, s.spawn, s.color);
    var w1 := R.World(g.powerups, Peers(WithJoined(g, s.c), l.mails), w.strays);
    GenerateAllFair(g.powerups, l, g.nextId, WithJoined(g, s.c), w.strays, s.added);
    ValidateIsFair(w, s.c, w1);
    OneRun(w, R.Validate(s.c), w1);
    FairConcat(w, [R.Validate(s.c)], w1, GenerateAll(s.added));
  }

  lemma ValidateIsFair(w: R.World<Connection>, c: Connection, w1: R.World<Connection>)
    requires R.Leads(w, R.Validate(c), w1)
    ensures R.FairRun(w, [R.Validate(c)])
  {
    FairOne(w, R.Validate(c));
  }

  lemma StepFair(g: Game, s: Step)
    requires GameOk(g) && Enabled(g, s) && Clean(g, s) && Fair(g, s)
    ensures R.FairRun(Abs(g), Steps(g, s))
  {
    hide GameOk, Fair, R.FairRun, Abs, EatIn, EatsIn, Outbox, Inbox, Messages, Client.NotesOf, GenerateAll, Answers,
      Clean;
    NothingIsFair(Abs(g));
    if s.Handles? && Steps(g, s) != [] {
      HandlesEatFair(g, s.c, s.q);
    } else if s.HandlesStray? && Steps(g, s) != [] {
      StrayEatFair(g, s.n, s.q);
    } else if s.Eats? {
      EatsFair(g, s.c, s.i);
    } else if s.Validates? {
      ValidatesFair(g, s);
    } else {
      hide Enabled;
      StepRefines(g, s);
      OtherFair(g, s);
    }
  }

  lemma OtherFair(g: Game, s: Step)
    requires GameOk(g) && Enabled(g, s) && Refines(g, s)
    requires !s.Eats? && !s.Validates? && (s.Handles? || s.HandlesStray? ==> Steps(g, s) == [])
    ensures R.FairRun(Abs(g), Steps(g, s))
  {
    hide GameOk, R.FairRun, Abs, EatIn, EatsIn, Outbox, Inbox, Messages, Client.NotesOf, GenerateAll, Answers,
      R.Possible;
    NothingIsFair(Abs(g));
    if Steps(g, s) != [] {
      assert Steps(g, s) == [Steps(g, s)[0]];
      AlwaysFair(Abs(g), Steps(g, s)[0]);
    }
  }

  /** Connecting, closing and handling mail take no powerup. */
  lemma AlwaysFair(w: R.World<Connection>, s: R.Step<Connection>)
    requires R.Possible(w, [s]) && (s.Connect? || s.Deliver? || s.Disconnect?)
    ensures R.FairRun(w, [s])
  {
    FairOne(w, s);
  }

  lemma {:induction false} GameFair(g: Game, steps: seq<Step>)
    requires GameOk(g) && Possible(g, steps) && CleanRun(g, steps) && FairRun(g, steps)
    ensures R.FairRun(Abs(g), AllSteps(g, steps))
    decreases |steps|
  {
    hide GameOk, Enabled, Next, Steps, Abs, R.RunsTo, R.FairRun, Clean, Fair;
    if steps == [] {
      NothingIsFair(Abs(g));
    } else {
      StepFair(g, steps[0]);
      StepRefines(g, steps[0]);
      GameFair(Next(g, steps[0]), steps[1..]);
      FairConcat(Abs(g), Steps(g, steps[0]), Abs(Next(g, steps[0])), AllSteps(Next(g, steps[0]), steps[1..]));
    }
  }

  // ---------------------------------------------------------------- agreement

  /** What the client's list will be is the server's list with the default entries of its snapshot, less
      the eats it has sent that the server has not handled. */
  predicate Agrees(g: Game, c: Connection) {
    c in g.sites && g.sites[c].joined ==>
      && c in g.lobby.mails && g.sites[c].heard <= |Inbox(g, c)| && g.sites[c].taken <= |g.sites[c].up|
      && EndState(g, c).Some?
      && multiset(EndState(g, c).value.powerups)
         == multiset(g.powerups) + R.Defaults(g.sites[c].defaults) - multiset(EatsIn(g.sites[c].up[g.sites[c].taken..]))
  }

  lemma {:induction false} NotesAsSent(mail: seq<Msg>)
    ensures Client.AllNotes(Client.FromServer(mail)) == MailNotes(mail)
  {
    hide Client.NotesOf;
    if mail != [] {
      NotesAsSent(mail[1..]);
      assert Client.FromServer(mail)[1..] == Client.FromServer(mail[1..]);
    }
  }

  /** The system in clean runs without races, from the empty server, in terms of messages: at every
      moment, what the list of any client that has been validated will be, once it has handled what
      arrives of its mail, is the server's list with the default entries of its snapshot, less the eats
      it has sent that the server has not handled. The client can take all of that mail apart. */
  lemma ClientsAgree(steps: seq<Step>, c: Connection)
    requires Possible(Start(), steps) && CleanRun(Start(), steps) && FairRun(Start(), steps)
    ensures Agrees(After(Start(), steps), c)
  {
    hide After, Possible, AllSteps, FairRun, CleanRun, R.After, R.Possible, R.FairRun, GameOk;
    StartFits();
    GameFair(Start(), steps);
    RunRefines(Start(), steps);
    assert Abs(Start()) == R.Start<Connection>();
    AgreesAtEnd(AllSteps(Start(), steps));
    var g := After(Start(), steps);
    assert Abs(g) == R.After(R.Start<Connection>(), AllSteps(Start(), steps));
    AgreesAt(g, c);
  }

  lemma AgreesAtEnd(steps: seq<R.Step<Connection>>)
    requires R.FairRun(R.Start<Connection>(), steps)
    ensures R.Possible(R.Start<Connection>(), steps) && R.Agreement(R.After(R.Start<Connection>(), steps))
  {
    hide R.Agreement, R.FairRun;
    assert R.Sane(R.Start<Connection>()) && R.Exclusive(R.Start<Connection>());
    assert R.Agreement(R.Start<Connection>()) by { NobodyDisagrees(); }
    R.FairRunsAgree(R.Start<Connection>(), steps);
  }

  lemma NobodyDisagrees()
    ensures R.Agreement(R.Start<Connection>())
  {
  }

  lemma AgreesAt(g: Game, c: Connection)
    requires GameOk(g) && R.Agreement(Abs(g))
    ensures Agrees(g, c)
  {
    if c in g.sites && g.sites[c].joined {
      PeersAt(g.sites, g.lobby.mails, c);
      InboxIs(g, c);
      OkAt(g.sites, g.lobby.mails, c);
      ItemsAt(g.sites[c], g.lobby.mails[c]);
      assert R.Agrees(g.powerups, PeerOf(g.sites[c], g.lobby.mails[c]));
      hide WellFormed, MailOk, SiteOk, Peers, PeerOf, R.Agrees, AllItems, Inbox, T.Arrived;
      SiteAgrees(g, c, g.lobby.mails[c]);
    }
  }

  lemma SiteAgrees(g: Game, c: Connection, mail: seq<Msg>)
    requires c in g.sites && c in g.lobby.mails && mail == g.lobby.mails[c] && AllItems(g.sites[c].id, mail)
    requires g.sites[c].heard <= |mail| && g.sites[c].taken <= |g.sites[c].up| && Inbox(g, c) == T.Arrived(mail)
    requires R.Agrees(g.powerups, PeerOf(g.sites[c], mail))
    ensures Agrees(g, c)
  {
    var s := g.sites[c];
    hide AllItems, Client.AllHandled, Client.AllNotes, Client.FromServer, MailNotes, EatsIn, R.ApplyAll, R.Defaults,
      T.Arrived;
    EndAsSent(s.client, s.id, mail, s.heard);
    NotesAsSent(mail[s.heard..]);
    Client.PowerupsFollowNotes(s.client, Client.FromServer(mail[s.heard..]));
  }
}
