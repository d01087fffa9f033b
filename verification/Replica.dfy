/** The list of powerups and its copies: the server's own list, and on every client a copy that is
    changed at once when the client eats and later by the server's messages. The state keeps the
    messages in flight: each client's undelivered messages from the server, in order, and its eats
    that the server has not handled. */
module Replica {
  import opened Common
  import opened Codec

  // ---------------------------------------------------------------- state and steps

  /** The server's messages about powerups. */
  datatype Note = Snap(ps: seq<Position>) | New(p: Position) | Eaten(p: Position)

  /** A connected client: whether its snapshot was sent, how many default entries that snapshot
      made, its messages under way, its list, and its eats under way. */
  datatype Peer = Peer(joined: bool, defaults: nat, inbox: seq<Note>, list: seq<Position>, outbox: seq<Position>)

  /** The server's list, the clients, and the eats in the server's queue whose senders are gone: a
      message that has arrived is handled even when its connection is closed by then. */
  datatype World<K(==)> = World(server: seq<Position>, peers: map<K, Peer>, strays: seq<Position>)

  datatype Step<K> =
    | Connect(i: K)
    | Validate(i: K)             // the snapshot is sent
    | Generate(q: Position)      // a new powerup, announced to everyone
    | Eat(i: K, c: nat)          // client i eats entry c of its list
    | HandleEat(i: K)            // the server handles the oldest eat of client i
    | HandleStray(n: nat)        // the server handles an eat of a client that is gone
    | Deliver(i: K)              // client i handles its oldest message
    | Disconnect(i: K, n: nat)   // the connection closes; the oldest n eats have arrived, the rest is lost

  /** What a client makes of one message. */
  function Apply(list: seq<Position>, m: Note): seq<Position> {
    match m
    case Snap(ps) => DefaultEntries(|ps|) + Reverse(ps)
    case New(p) => list + [p]
    case Eaten(p) => RemoveFirst(list, p)
  }

  function ApplyAll(list: seq<Position>, inbox: seq<Note>): seq<Position>
    decreases |inbox|
  {
    if inbox == [] then list else ApplyAll(Apply(list, inbox[0]), inbox[1..])
  }

  /** A client plays, and so eats, once it has handled its snapshot. */
  predicate Playing(p: Peer) {
    p.joined && forall k :: 0 <= k < |p.inbox| ==> !p.inbox[k].Snap?
  }

  predicate Enabled<K(==)>(w: World<K>, s: Step<K>) {
    match s
    case Connect(i) => i !in w.peers
    case Validate(i) => i in w.peers && !w.peers[i].joined
    case Generate(q) => true
    case Eat(i, c) => i in w.peers && Playing(w.peers[i]) && c < |w.peers[i].list|
    case HandleEat(i) => i in w.peers && w.peers[i].outbox != []
    case HandleStray(n) => n < |w.strays|
    case Deliver(i) => i in w.peers && w.peers[i].inbox != []
    case Disconnect(i, n) => i in w.peers && n <= |w.peers[i].outbox|
  }

  /** A message to every member of the connection list but one. */
  function Broadcast<K(==)>(peers: map<K, Peer>, m: Note, ignore: Option<K>): map<K, Peer> {
    map i | i in peers :: if ignore == Some(i) then peers[i] else peers[i].(inbox := peers[i].inbox + [m])
  }

  /** Entry `c` is taken from the list at once, and the server is told. */
  function WithEaten(p: Peer, c: nat): Peer
    requires c < |p.list|
  {
    p.(list := p.list[..c] + p.list[c + 1..], outbox := p.outbox + [p.list[c]])
  }

  function Next<K(==)>(w: World<K>, s: Step<K>): World<K>
    requires Enabled(w, s)
  {
    match s
    case Connect(i) => w.(peers := w.peers[i := Peer(false, 0, [], [], [])])
    case Validate(i) =>
      var p := w.peers[i];
      w.(peers := w.peers[i := p.(joined := true, defaults := |w.server|, inbox := p.inbox + [Snap(w.server)])])
    case Generate(q) => World(w.server + [q], Broadcast(w.peers, New(q), None), w.strays)
    case Eat(i, c) =>
      w.(peers := w.peers[i := WithEaten(w.peers[i], c)])
    case HandleEat(i) =>
      var p := w.peers[i];
      var eaten := p.outbox[0];
      World(RemoveFirst(w.server, eaten),
            Broadcast(w.peers[i := p.(outbox := p.outbox[1..])], Eaten(eaten), Some(i)), w.strays)
    case HandleStray(n) =>
      World(RemoveFirst(w.server, w.strays[n]), Broadcast(w.peers, Eaten(w.strays[n]), None),
            w.strays[..n] + w.strays[n + 1..])
    case Deliver(i) =>
      var p := w.peers[i];
      w.(peers := w.peers[i := p.(list := Apply(p.list, p.inbox[0]), inbox := p.inbox[1..])])
    case Disconnect(i, n) => w.(peers := w.peers - {i}, strays := w.strays + w.peers[i].outbox[..n])
  }

  // ---------------------------------------------------------------- agreement

  /** `n` default entries as a multiset: they are all at the origin. */
  function Defaults(n: nat): multiset<Position> {
    multiset{}[ORIGIN := n]
  }

  /** Once everything under way to it is handled, the client's list is the server's list with the
      default entries of its snapshot, without its own eats that the server has yet to handle. */
  predicate Agrees(server: seq<Position>, p: Peer) {
    multiset(ApplyAll(p.list, p.inbox)) == multiset(server) + Defaults(p.defaults) - multiset(p.outbox)
  }

  predicate Agreement<K(==)>(w: World<K>) {
    forall i :: i in w.peers && w.peers[i].joined ==> Agrees(w.server, w.peers[i])
  }

  /** Only clients that have their snapshot behind them have eaten anything; before the snapshot is
      sent there is none under way. */
  predicate Sane<K(==)>(w: World<K>) {
    forall i :: i in w.peers && !w.peers[i].joined ==>
      w.peers[i].outbox == [] && forall k :: 0 <= k < |w.peers[i].inbox| ==> !w.peers[i].inbox[k].Snap?
  }

  // ---------------------------------------------------------------- counting one cell

  /** How many entries on `x` there are after message `m`, when there were `k`. */
  function CountStep(k: nat, m: Note, x: Position): nat {
    match m
    case Snap(ps) => multiset(ps)[x] + (if x == ORIGIN then |ps| else 0)
    case New(p) => if p == x then k + 1 else k
    case Eaten(p) => if p == x && k > 0 then k - 1 else k
  }

  function CountAfter(k: nat, inbox: seq<Note>, x: Position): nat
    decreases |inbox|
  {
    if inbox == [] then k else CountAfter(CountStep(k, inbox[0], x), inbox[1..], x)
  }

  lemma {:induction false} ReverseCount(s: seq<Position>)
    ensures multiset(Reverse(s)) == multiset(s)
  {
    if s != [] {
      ReverseCount(s[1..]);
      assert s == [s[0]] + s[1..];
    }
  }

  lemma {:induction false} DefaultsCount(n: nat)
    ensures multiset(DefaultEntries(n)) == Defaults(n)
  {
    if n > 0 {
      DefaultsCount(n - 1);
      assert DefaultEntries(n) == DefaultEntries(n - 1) + [ORIGIN];
    }
  }

  lemma SnapCount(ps: seq<Position>, x: Position)
    ensures multiset(DefaultEntries(|ps|) + Reverse(ps))[x] == multiset(ps)[x] + if x == ORIGIN then |ps| else 0
  {
    ReverseCount(ps);
    DefaultsCount(|ps|);
    hide DefaultEntries, Reverse;
  }

  lemma ApplyCount(list: seq<Position>, m: Note, x: Position)
    ensures multiset(Apply(list, m))[x] == CountStep(multiset(list)[x], m, x)
  {
    hide RemoveFirst, DefaultEntries, Reverse;
    match m
    case Snap(ps) => SnapCount(ps, x);
    case New(p) =>
    case Eaten(p) => RemoveFirstCount(list, p);
  }

  lemma {:induction false} ApplyAllCount(list: seq<Position>, inbox: seq<Note>, x: Position)
    ensures multiset(ApplyAll(list, inbox))[x] == CountAfter(multiset(list)[x], inbox, x)
    decreases |inbox|
  {
    hide Apply, CountStep;
    if inbox != [] {
      ApplyCount(list, inbox[0], x);
      ApplyAllCount(Apply(list, inbox[0]), inbox[1..], x);
    }
  }

  lemma {:induction false} CountAfterSnoc(k: nat, inbox: seq<Note>, m: Note, x: Position)
    ensures CountAfter(k, inbox + [m], x) == CountStep(CountAfter(k, inbox, x), m, x)
    decreases |inbox|
  {
    hide CountStep;
    if inbox == [] {
      assert inbox + [m] == [m];
      assert [m][1..] == [];
    } else {
      assert (inbox + [m])[1..] == inbox[1..] + [m];
      CountAfterSnoc(CountStep(k, inbox[0], x), inbox[1..], m, x);
    }
  }

  /** How many entries on `x` client `p` will have, and how many agreement asks for. */
  function Coming(p: Peer, x: Position): nat {
    CountAfter(multiset(p.list)[x], p.inbox, x)
  }

  function Due(server: seq<Position>, p: Peer, x: Position): nat {
    var n := multiset(server)[x] + (if x == ORIGIN then p.defaults else 0) - multiset(p.outbox)[x];
    if n < 0 then 0 else n
  }

  lemma AgreesByCount(server: seq<Position>, p: Peer)
    ensures Agrees(server, p) <==> forall x :: Coming(p, x) == Due(server, p, x)
  {
    var a := multiset(ApplyAll(p.list, p.inbox));
    var b := multiset(server) + Defaults(p.defaults) - multiset(p.outbox);
    forall x: Position
      ensures a[x] == Coming(p, x) && b[x] == Due(server, p, x)
    {
      ApplyAllCount(p.list, p.inbox, x);
    }
    if forall x :: Coming(p, x) == Due(server, p, x) {
      assert forall x :: a[x] == b[x];
      assert a == b;
    }
  }

  // ---------------------------------------------------------------- exactly when a step keeps it

  /** Starting from `k` entries on `x`, some removal under way finds nothing to remove. */
  predicate Overtaken(k: nat, inbox: seq<Note>, x: Position)
    decreases |inbox|
  {
    inbox != []
    && ((inbox[0] == Eaten(x) && k == 0) || Overtaken(CountStep(k, inbox[0], x), inbox[1..], x))
  }

  /** The default entries of `p` on `x`. */
  function DefaultsOn(p: Peer, x: Position): nat {
    if x == ORIGIN then p.defaults else 0
  }

  /** What has to hold before a step for agreement to survive it. */
  predicate Safe<K(==)>(w: World<K>, s: Step<K>)
    requires Enabled(w, s)
  {
    match s
    case Generate(q) =>
      // no client has more eats of that cell under way than the server's list and the client's own
      // default entries account for
      forall i :: i in w.peers && w.peers[i].joined ==>
        multiset(w.peers[i].outbox)[q] <= multiset(w.server)[q] + DefaultsOn(w.peers[i], q)
    case Eat(i, c) =>
      // the entry is not one that a removal under way was meant for
      var p := w.peers[i];
      var x := p.list[c];
      Coming(p, x) == 0 || !Overtaken(multiset(p.list)[x] - 1, p.inbox, x)
    case HandleEat(i) =>
      // the powerup exists, or else nobody's default entries are taken for it
      var x := w.peers[i].outbox[0];
      x in w.server
      || (DefaultsOn(w.peers[i], x) < multiset(w.peers[i].outbox)[x]
          && forall j :: j in w.peers && j != i && w.peers[j].joined ==>
               DefaultsOn(w.peers[j], x) <= multiset(w.peers[j].outbox)[x])
    case HandleStray(n) =>
      // the same without an eater among the clients
      var x := w.strays[n];
      x in w.server
      || forall j :: j in w.peers && w.peers[j].joined ==> DefaultsOn(w.peers[j], x) <= multiset(w.peers[j].outbox)[x]
    case _ => true
  }

  /** One more entry at the start is one more at the end, unless a removal under way takes it. */
  lemma {:induction false} OneMore(k: nat, inbox: seq<Note>, x: Position)
    requires forall i :: 0 <= i < |inbox| ==> !inbox[i].Snap?
    ensures CountAfter(k + 1, inbox, x) == CountAfter(k, inbox, x) + if Overtaken(k, inbox, x) then 0 else 1
    decreases |inbox|
  {
    if inbox != [] {
      if inbox[0] == Eaten(x) && k == 0 {
      } else {
        OneMore(CountStep(k, inbox[0], x), inbox[1..], x);
      }
    }
  }

  lemma AnnouncedExact(server: seq<Position>, p: Peer, q: Position)
    requires Agrees(server, p)
    ensures Agrees(server + [q], p.(inbox := p.inbox + [New(q)]))
            <==> multiset(p.outbox)[q] <= multiset(server)[q] + DefaultsOn(p, q)
  {
    var p' := p.(inbox := p.inbox + [New(q)]);
    AgreesByCount(server, p);
    AgreesByCount(server + [q], p');
    hide Agrees, CountAfter;
    forall x: Position
      ensures Coming(p', x) == Coming(p, x) + if x == q then 1 else 0
      ensures x != q ==> Due(server + [q], p', x) == Due(server, p, x)
    {
      CountAfterSnoc(multiset(p.list)[x], p.inbox, New(q), x);
    }
    assert Coming(p, q) == Due(server, p, q);
  }

  lemma EntryMoved(list: seq<Position>, c: nat, outbox: seq<Position>, x: Position)
    requires c < |list|
    ensures multiset(list)[x] == multiset(list[..c] + list[c + 1..])[x] + if x == list[c] then 1 else 0
    ensures multiset(outbox + [list[c]])[x] == multiset(outbox)[x] + if x == list[c] then 1 else 0
  {
    assert list == list[..c] + [list[c]] + list[c + 1..];
  }

  lemma EatenLocally(server: seq<Position>, p: Peer, c: nat, x: Position)
    requires c < |p.list| && Playing(p)
    ensures var p', e := WithEaten(p, c), p.list[c];
            if x == e
            then Coming(p, x) == Coming(p', x) + (if Overtaken(multiset(p.list)[x] - 1, p.inbox, x) then 0 else 1)
                 && Due(server, p', x) == (if Due(server, p, x) == 0 then 0 else Due(server, p, x) - 1)
            else Coming(p, x) == Coming(p', x) && Due(server, p, x) == Due(server, p', x)
  {
    var p', e := WithEaten(p, c), p.list[c];
    EntryMoved(p.list, c, p.outbox, x);
    OneMore(multiset(p'.list)[x], p.inbox, x);
    hide CountAfter, Overtaken, Playing;
  }

  lemma EatExact(server: seq<Position>, p: Peer, c: nat)
    requires Agrees(server, p) && Playing(p) && c < |p.list|
    ensures var x := p.list[c];
            Agrees(server, WithEaten(p, c))
            <==> Coming(p, x) == 0 || !Overtaken(multiset(p.list)[x] - 1, p.inbox, x)
  {
    hide Agrees, Coming, Due, Overtaken, WithEaten, Playing;
    var p', e := WithEaten(p, c), p.list[c];
    AgreesByCount(server, p);
    AgreesByCount(server, p');
    forall x: Position
      ensures x != e ==> Coming(p, x) == Coming(p', x) && Due(server, p, x) == Due(server, p', x)
    {
      EatenLocally(server, p, c, x);
    }
    EatenLocally(server, p, c, e);
    assert Coming(p, e) == Due(server, p, e);
  }

  lemma OwnEatCounts(server: seq<Position>, p: Peer, x: Position)
    requires p.outbox != []
    ensures var p', e := p.(outbox := p.outbox[1..]), p.outbox[0];
            && Coming(p', x) == Coming(p, x)
            && (Due(RemoveFirst(server, e), p', x) == Due(server, p, x)
                <==> x != e || e in server || DefaultsOn(p, e) < multiset(p.outbox)[e])
  {
    hide RemoveFirst, CountAfter;
    var p', e := p.(outbox := p.outbox[1..]), p.outbox[0];
    RemoveFirstCount(server, e);
    assert multiset(p.outbox)[x] == multiset(p'.outbox)[x] + (if x == e then 1 else 0) by {
      assert p.outbox == [e] + p'.outbox;
    }
    assert multiset(RemoveFirst(server, e))[x] == multiset(server)[x] - if x == e && e in server then 1 else 0;
  }

  lemma OwnEatHandledExact(server: seq<Position>, p: Peer)
    requires Agrees(server, p) && p.outbox != []
    ensures var x := p.outbox[0];
            Agrees(RemoveFirst(server, x), p.(outbox := p.outbox[1..]))
            <==> x in server || DefaultsOn(p, x) < multiset(p.outbox)[x]
  {
    hide Agrees, Coming, Due, DefaultsOn, RemoveFirst;
    var p', e := p.(outbox := p.outbox[1..]), p.outbox[0];
    var server' := RemoveFirst(server, e);
    AgreesByCount(server, p);
    AgreesByCount(server', p');
    forall x: Position
      ensures Coming(p', x) == Coming(p, x)
      ensures Due(server', p', x) == Due(server, p, x)
              <==> x != e || e in server || DefaultsOn(p, e) < multiset(p.outbox)[e]
    {
      OwnEatCounts(server, p, x);
    }
    assert Coming(p, e) == Due(server, p, e);
  }

  lemma OtherEatHandledExact(server: seq<Position>, p: Peer, e: Position)
    requires Agrees(server, p)
    ensures Agrees(RemoveFirst(server, e), p.(inbox := p.inbox + [Eaten(e)]))
            <==> e in server || DefaultsOn(p, e) <= multiset(p.outbox)[e]
  {
    var p' := p.(inbox := p.inbox + [Eaten(e)]);
    var server' := RemoveFirst(server, e);
    AgreesByCount(server, p);
    AgreesByCount(server', p');
    RemoveFirstCount(server, e);
    hide Agrees, CountAfter, RemoveFirst;
    forall x: Position
      ensures Coming(p', x) == CountStep(Coming(p, x), Eaten(e), x)
      ensures x != e ==> Due(server', p', x) == Due(server, p, x)
    {
      CountAfterSnoc(multiset(p.list)[x], p.inbox, Eaten(e), x);
    }
    assert Coming(p, e) == Due(server, p, e);
  }

  lemma SnapshotAgrees(server: seq<Position>, p: Peer)
    requires p.outbox == []
    ensures Agrees(server, p.(joined := true, defaults := |server|, inbox := p.inbox + [Snap(server)]))
  {
    var p' := p.(joined := true, defaults := |server|, inbox := p.inbox + [Snap(server)]);
    AgreesByCount(server, p');
    hide Agrees, CountAfter;
    forall x: Position
      ensures Coming(p', x) == Due(server, p', x)
    {
      CountAfterSnoc(multiset(p.list)[x], p.inbox, Snap(server), x);
    }
  }

  /** Every step keeps agreement exactly when it is safe. */
  lemma StepExact<K>(w: World<K>, s: Step<K>)
    requires Sane(w) && Agreement(w) && Enabled(w, s)
    ensures Agreement(Next(w, s)) <==> Safe(w, s)
  {
    hide Agrees, Overtaken, Coming, RemoveFirst, DefaultsOn;
    match s
    case Connect(i) =>
    case Validate(i) => SnapshotAgrees(w.server, w.peers[i]);
    case Generate(q) =>
      forall i | i in w.peers && w.peers[i].joined
        ensures Agrees(Next(w, s).server, Next(w, s).peers[i])
                <==> multiset(w.peers[i].outbox)[q] <= multiset(w.server)[q] + DefaultsOn(w.peers[i], q)
      {
        AnnouncedExact(w.server, w.peers[i], q);
      }
    case Eat(i, c) =>
      EatExact(w.server, w.peers[i], c);
      assert Next(w, s).peers[i] == WithEaten(w.peers[i], c);
      assert forall j :: j in w.peers && j != i ==> Next(w, s).peers[j] == w.peers[j];
    case HandleEat(i) => HandleEatExact(w, i);
    case HandleStray(n) => HandleStrayExact(w, n);
    case Deliver(i) => DeliverKeeps(w.server, w.peers[i]);
    case Disconnect(i, n) =>
  }

  lemma DeliverKeeps(server: seq<Position>, p: Peer)
    requires p.inbox != []
    ensures Agrees(server, p.(list := Apply(p.list, p.inbox[0]), inbox := p.inbox[1..])) <==> Agrees(server, p)
  {
  }

  lemma HandleEatExact<K>(w: World<K>, i: K)
    requires Sane(w) && Agreement(w) && Enabled(w, HandleEat(i))
    ensures Agreement(Next(w, HandleEat(i))) <==> Safe(w, HandleEat(i))
  {
    hide Agrees, Overtaken, Coming, RemoveFirst, DefaultsOn;
    var e, w' := w.peers[i].outbox[0], Next(w, HandleEat(i));
    assert w.peers[i].joined;
    OwnEatHandledExact(w.server, w.peers[i]);
    assert Agrees(w'.server, w'.peers[i])
      <==> e in w.server || DefaultsOn(w.peers[i], e) < multiset(w.peers[i].outbox)[e];
    forall j | j in w.peers && j != i && w.peers[j].joined
      ensures Agrees(w'.server, w'.peers[j])
              <==> e in w.server || DefaultsOn(w.peers[j], e) <= multiset(w.peers[j].outbox)[e]
    {
      OtherEatHandledExact(w.server, w.peers[j], e);
    }
  }

  lemma HandleStrayExact<K>(w: World<K>, n: nat)
    requires Agreement(w) && n < |w.strays|
    ensures Agreement(Next(w, HandleStray(n))) <==> Safe(w, HandleStray(n))
  {
    hide Agrees, Overtaken, Coming, RemoveFirst, DefaultsOn;
    var e, w' := w.strays[n], Next(w, HandleStray(n));
    forall j | j in w.peers && w.peers[j].joined
      ensures Agrees(w'.server, w'.peers[j])
              <==> e in w.server || DefaultsOn(w.peers[j], e) <= multiset(w.peers[j].outbox)[e]
    {
      OtherEatHandledExact(w.server, w.peers[j], e);
    }
  }

  lemma SaneStep<K>(w: World<K>, s: Step<K>)
    requires Sane(w) && Enabled(w, s)
    ensures Sane(Next(w, s))
  {
  }

  // ---------------------------------------------------------------- whole runs

  predicate Possible<K(==)>(w: World<K>, steps: seq<Step<K>>)
    decreases |steps|
  {
    steps == [] || (Enabled(w, steps[0]) && Possible(Next(w, steps[0]), steps[1..]))
  }

  function After<K(==)>(w: World<K>, steps: seq<Step<K>>): World<K>
    requires Possible(w, steps)
    decreases |steps|
  {
    if steps == [] then w else After(Next(w, steps[0]), steps[1..])
  }

  lemma {:induction false} AfterConcat<K>(w: World<K>, a: seq<Step<K>>, b: seq<Step<K>>)
    requires Possible(w, a) && Possible(After(w, a), b)
    ensures Possible(w, a + b) && After(w, a + b) == After(After(w, a), b)
    decreases |a|
  {
    hide Next, Enabled;
    if a == [] {
      assert a + b == b;
    } else {
      AfterConcat(Next(w, a[0]), a[1..], b);
      assert (a + b)[1..] == a[1..] + b;
    }
  }

  /** Every step of the run is safe where it is taken. */
  predicate AllSafe<K(==)>(w: World<K>, steps: seq<Step<K>>)
    requires Possible(w, steps)
    decreases |steps|
  {
    steps == [] || (Safe(w, steps[0]) && AllSafe(Next(w, steps[0]), steps[1..]))
  }

  /** Agreement at every state of a run. */
  predicate AlwaysAgrees<K(==)>(w: World<K>, steps: seq<Step<K>>)
    requires Possible(w, steps)
    decreases |steps|
  {
    Agreement(w) && (steps == [] || AlwaysAgrees(Next(w, steps[0]), steps[1..]))
  }

  /** Along any run the clients' lists agree with the server's throughout exactly when every step is
      safe. */
  lemma {:induction false} RunAgreesIffSafe<K>(w: World<K>, steps: seq<Step<K>>)
    requires Sane(w) && Agreement(w) && Possible(w, steps)
    ensures AlwaysAgrees(w, steps) <==> AllSafe(w, steps)
    decreases |steps|
  {
    hide Agreement, Safe, Next, Sane;
    if steps != [] {
      StepExact(w, steps[0]);
      SaneStep(w, steps[0]);
      if Safe(w, steps[0]) {
        RunAgreesIffSafe(Next(w, steps[0]), steps[1..]);
      }
    }
  }

  // ---------------------------------------------------------------- runs without races

  /** What keeps two eats of one powerup apart: new powerups go on cells without one, and a client
      eats a powerup that the server has, that nobody has an eat under way for, and whose removal is
      not under way to it. */
  predicate Fair<K(==)>(w: World<K>, s: Step<K>) {
    && Enabled(w, s)
    && match s
       case Generate(q) => q !in w.server
       case Eat(i, c) =>
         var x := w.peers[i].list[c];
         && x in w.server && x !in w.strays && Eaten(x) !in w.peers[i].inbox
         && forall j :: j in w.peers ==> x !in w.peers[j].outbox
       case _ => true
  }

  /** Powerups are on distinct cells, and every eat under way is of a powerup of its own. */
  predicate Exclusive<K(==)>(w: World<K>) {
    && Distinct(w.server) && Distinct(w.strays)
    && (forall x :: x in w.strays ==> x in w.server)
    && (forall i, x :: i in w.peers && x in w.peers[i].outbox ==> x !in w.strays)
    && (forall i :: i in w.peers ==> Distinct(w.peers[i].outbox))
    && (forall i, x :: i in w.peers && x in w.peers[i].outbox ==> x in w.server)
    && (forall i, j, x :: i in w.peers && j in w.peers && i != j && x in w.peers[i].outbox ==> x !in w.peers[j].outbox)
  }

  lemma {:induction false} NotOvertaken(k: nat, inbox: seq<Note>, x: Position)
    requires Eaten(x) !in inbox
    ensures !Overtaken(k, inbox, x)
    decreases |inbox|
  {
    if inbox != [] {
      NotOvertaken(CountStep(k, inbox[0], x), inbox[1..], x);
    }
  }

  lemma FairIsSafe<K>(w: World<K>, s: Step<K>)
    requires Exclusive(w) && Fair(w, s)
    ensures Safe(w, s)
  {
    match s
    case Generate(q) =>
    case Eat(i, c) =>
      hide Overtaken;
      var p := w.peers[i];
      assert p.list[c] in multiset(p.list);
      NotOvertaken(multiset(p.list)[p.list[c]] - 1, p.inbox, p.list[c]);
    case HandleEat(i) => assert w.peers[i].outbox[0] in w.peers[i].outbox;
    case HandleStray(n) => assert w.strays[n] in w.strays;
    case _ =>
  }

  lemma FairKeepsExclusive<K>(w: World<K>, s: Step<K>)
    requires Exclusive(w) && Fair(w, s)
    ensures Exclusive(Next(w, s))
  {
    match s
    case Eat(i, c) => EatKeepsExclusive(w, i, c);
    case HandleEat(i) => HandleEatKeepsExclusive(w, i);
    case HandleStray(n) => HandleStrayKeepsExclusive(w, n);
    case Disconnect(i, n) => DisconnectKeepsExclusive(w, i, n);
    case Generate(q) =>
    case _ =>
  }

  lemma HandleStrayKeepsExclusive<K>(w: World<K>, n: nat)
    requires Exclusive(w) && Fair(w, HandleStray(n))
    ensures Exclusive(Next(w, HandleStray(n)))
  {
    var w', e := Next(w, HandleStray(n)), w.strays[n];
    RemoveFirstDistinct(w.server, e);
    forall x | x in w'.strays
      ensures x in w.strays && x != e
    {
    }
    assert e in w.strays;
    forall x | x != e && x in w.server
      ensures x in w'.server
    {
      RemoveFirstElements(w.server, e, x);
    }
  }

  lemma DisconnectKeepsExclusive<K>(w: World<K>, i: K, n: nat)
    requires Exclusive(w) && Fair(w, Disconnect(i, n))
    ensures Exclusive(Next(w, Disconnect(i, n)))
  {
    var w', arrived := Next(w, Disconnect(i, n)), w.peers[i].outbox[..n];
    forall x
      ensures x in w'.strays <==> x in w.strays || x in arrived
      ensures x in arrived ==> x in w.peers[i].outbox
    {
    }
    assert Distinct(arrived);
    DistinctConcat(w.strays, arrived);
  }

  lemma DistinctConcat<T>(a: seq<T>, b: seq<T>)
    requires Distinct(a) && Distinct(b) && forall x :: x in a ==> x !in b
    ensures Distinct(a + b)
  {
    forall i, j | 0 <= i < j < |a + b|
      ensures (a + b)[i] != (a + b)[j]
    {
      if i < |a| <= j {
        assert a[i] in a && b[j - |a|] in b;
      }
    }
  }

  lemma EatKeepsExclusive<K>(w: World<K>, i: K, c: nat)
    requires Exclusive(w) && Fair(w, Eat(i, c))
    ensures Exclusive(Next(w, Eat(i, c)))
  {
    var w', e := Next(w, Eat(i, c)), w.peers[i].list[c];
    assert w'.peers[i].outbox == w.peers[i].outbox + [e];
    forall j, x | j in w'.peers
      ensures x in w'.peers[j].outbox <==> x in w.peers[j].outbox || (j == i && x == e)
    {
    }
    hide WithEaten, Next;
    assert w'.server == w.server;
  }

  lemma HandleEatKeepsExclusive<K>(w: World<K>, i: K)
    requires Exclusive(w) && Fair(w, HandleEat(i))
    ensures Exclusive(Next(w, HandleEat(i)))
  {
    var w', e := Next(w, HandleEat(i)), w.peers[i].outbox[0];
    RemoveFirstDistinct(w.server, e);
    assert e in w.peers[i].outbox && e !in w.peers[i].outbox[1..];
    forall j, x | j in w'.peers && x in w'.peers[j].outbox
      ensures x in w.peers[j].outbox && x != e
    {
    }
    forall x | x != e && x in w.server
      ensures x in w'.server
    {
      RemoveFirstElements(w.server, e, x);
    }
  }

  predicate FairRun<K(==)>(w: World<K>, steps: seq<Step<K>>)
    decreases |steps|
  {
    steps == [] || (Fair(w, steps[0]) && FairRun(Next(w, steps[0]), steps[1..]))
  }

  /** New powerups less handled eats. */
  function Gain<K(==)>(s: Step<K>): int {
    match s
    case Generate(_) => 1
    case HandleEat(_) => -1
    case HandleStray(_) => -1
    case _ => 0
  }

  function TotalGain<K(==)>(steps: seq<Step<K>>): int {
    if steps == [] then 0 else Gain(steps[0]) + TotalGain(steps[1..])
  }

  lemma GainOfStep<K>(w: World<K>, s: Step<K>)
    requires Exclusive(w) && Fair(w, s)
    ensures |Next(w, s).server| == |w.server| + Gain(s)
  {
    match s
    case HandleEat(i) =>
      assert w.peers[i].outbox[0] in w.peers[i].outbox;
      RemoveFirstCount(w.server, w.peers[i].outbox[0]);
    case HandleStray(n) =>
      assert w.strays[n] in w.strays;
      RemoveFirstCount(w.server, w.strays[n]);
    case _ =>
  }

  /** Along every run without races every client agrees with the server throughout, powerups stay on
      distinct cells, and each handled eat takes away exactly one. */
  lemma {:induction false} FairRunsAgree<K>(w: World<K>, steps: seq<Step<K>>)
    requires Sane(w) && Agreement(w) && Exclusive(w) && FairRun(w, steps)
    ensures Possible(w, steps) && AlwaysAgrees(w, steps)
    ensures Agreement(After(w, steps)) && Exclusive(After(w, steps))
    ensures |After(w, steps).server| == |w.server| + TotalGain(steps)
    decreases |steps|
  {
    hide Agreement, Safe, Next, Sane, Exclusive, Gain;
    if steps != [] {
      var s := steps[0];
      FairIsSafe(w, s);
      FairKeepsExclusive(w, s);
      StepExact(w, s);
      SaneStep(w, s);
      GainOfStep(w, s);
      FairRunsAgree(Next(w, s), steps[1..]);
    }
  }

  function Start<K(==)>(): World<K> {
    World([], map[], [])
  }

  /** The server starts with no powerups and no clients, so all of this holds of every run. */
  lemma RunsFromTheStart<K>(steps: seq<Step<K>>)
    requires FairRun(Start<K>(), steps)
    ensures Possible(Start<K>(), steps) && AlwaysAgrees(Start<K>(), steps)
    ensures Distinct(After(Start<K>(), steps).server)
    ensures |After(Start<K>(), steps).server| == TotalGain(steps)
  {
    FairRunsAgree(Start<K>(), steps);
  }

  /** After any such run, a client to and from which nothing is under way has exactly the server's
      powerups and the default entries of its snapshot. */
  lemma QuietAgreement<K>(steps: seq<Step<K>>, i: K)
    requires FairRun(Start<K>(), steps)
    ensures Possible(Start<K>(), steps)
    ensures var w := After(Start<K>(), steps);
            i in w.peers && w.peers[i].joined && w.peers[i].inbox == [] && w.peers[i].outbox == [] ==>
              multiset(w.peers[i].list) == multiset(w.server) + Defaults(w.peers[i].defaults)
  {
    FairRunsAgree(Start<K>(), steps);
  }

  // ---------------------------------------------------------------- a race

  function Duo(a: Peer, b: Peer): map<nat, Peer> {
    map[0 := a, 1 := b]
  }

  /** Two clients join an empty server, the first when it has no powerup and the second when it has
      one, on `p`; both have handled everything. */
  function JoinTwo(p: Position): seq<Step<nat>> {
    [Connect(0), Validate(0), Generate(p), Deliver(0), Deliver(0), Connect(1), Validate(1), Deliver(1)]
  }

  /** Both eat that powerup before either hears of the other. The server handles the second client's
      eat first and puts the new powerup on the cell that it has just cleared; then it handles the
      first client's eat and puts a powerup on `q`. */
  function Race(p: Position, q: Position): seq<Step<nat>> {
    JoinTwo(p) + [Eat(1, 1), Eat(0, 0), HandleEat(1), Generate(p), HandleEat(0), Generate(q)]
  }

  lemma FirstStep<K>(w: World<K>, s: Step<K>, rest: seq<Step<K>>)
    requires Enabled(w, s) && Possible(Next(w, s), rest)
    ensures Possible(w, [s] + rest) && After(w, [s] + rest) == After(Next(w, s), rest)
  {
    assert ([s] + rest)[1..] == rest;
    hide Enabled, Next;
  }

  lemma NoSteps<K>(w: World<K>)
    ensures Possible(w, []) && After(w, []) == w
  {
  }

  /** `s` leads from `w` to `w'`. */
  predicate Leads<K(==)>(w: World<K>, s: Step<K>, w': World<K>) {
    Enabled(w, s) && Next(w, s) == w'
  }

  function Solo(a: Peer): map<nat, Peer> {
    map[0 := a]
  }

  const NEWCOMER := Peer(false, 0, [], [], [])

  lemma TwoPeers(m: map<nat, Peer>, a: Peer, b: Peer)
    requires m.Keys == {0, 1} && m[0] == a && m[1] == b
    ensures m == Duo(a, b)
  {
  }

  lemma OnePeer(m: map<nat, Peer>, a: Peer)
    requires m.Keys == {0} && m[0] == a
    ensures m == Solo(a)
  {
  }

  /** The first client joins. */
  lemma FirstJoins(p: Position)
    ensures Leads(Start<nat>(), Connect(0), World([], Solo(NEWCOMER), []))
    ensures var a := Peer(true, 0, [Snap([])], [], []);
            && Leads(World([], Solo(NEWCOMER), []), Validate(0), World([], Solo(a), []))
            && Leads(World([], Solo(a), []), Generate(p), World([p], Solo(a.(inbox := [Snap([]), New(p)])), []))
  {
    var a := Peer(true, 0, [Snap([])], [], []);
    OnePeer(Next(Start<nat>(), Connect(0)).peers, NEWCOMER);
    OnePeer(Next(World([], Solo(NEWCOMER), []), Validate(0)).peers, a);
    OnePeer(Next(World([], Solo(a), []), Generate(p)).peers, a.(inbox := [Snap([]), New(p)]));
  }

  lemma FirstHears(p: Position)
    ensures var a := Peer(true, 0, [Snap([]), New(p)], [], []);
            && Leads(World([p], Solo(a), []), Deliver(0), World([p], Solo(a.(inbox := [New(p)])), []))
            && Leads(World([p], Solo(a.(inbox := [New(p)])), []), Deliver(0),
                     World([p], Solo(Peer(true, 0, [], [p], [])), []))
  {
    var a := Peer(true, 0, [Snap([]), New(p)], [], []);
    assert a.inbox[1..] == [New(p)] && [New(p)][1..] == [];
    assert Apply([], Snap([])) == [] && Apply([], New(p)) == [p];
    OnePeer(Next(World([p], Solo(a), []), Deliver(0)).peers, a.(inbox := [New(p)]));
    OnePeer(Next(World([p], Solo(a.(inbox := [New(p)])), []), Deliver(0)).peers, Peer(true, 0, [], [p], []));
  }

  /** The second client joins and takes its snapshot. */
  lemma SecondJoins(p: Position)
    ensures var a, b := Peer(true, 0, [], [p], []), Peer(true, 1, [Snap([p])], [], []);
            && Leads(World([p], Solo(a), []), Connect(1), World([p], Duo(a, NEWCOMER), []))
            && Leads(World([p], Duo(a, NEWCOMER), []), Validate(1), World([p], Duo(a, b), []))
            && Leads(World([p], Duo(a, b), []), Deliver(1), World([p], Duo(a, Peer(true, 1, [], [ORIGIN, p], [])), []))
  {
    var a, b := Peer(true, 0, [], [p], []), Peer(true, 1, [Snap([p])], [], []);
    var w, w1, w2 := World([p], Solo(a), []), World([p], Duo(a, NEWCOMER), []), World([p], Duo(a, b), []);
    assert Apply([], Snap([p])) == [ORIGIN, p] by {
      assert Reverse([p]) == [p] && DefaultEntries(1) == [ORIGIN];
    }
    assert b.inbox[1..] == [];
    TwoPeers(Next(w, Connect(1)).peers, a, NEWCOMER);
    TwoPeers(Next(w1, Validate(1)).peers, a, b);
    TwoPeers(Next(w2, Deliver(1)).peers, a, Peer(true, 1, [], [ORIGIN, p], []));
  }

  lemma BothEat(p: Position)
    ensures var a, b := Peer(true, 0, [], [p], []), Peer(true, 1, [], [ORIGIN, p], []);
            var a', b' := Peer(true, 0, [], [], [p]), Peer(true, 1, [], [ORIGIN], [p]);
            && Leads(World([p], Duo(a, b), []), Eat(1, 1), World([p], Duo(a, b'), []))
            && Leads(World([p], Duo(a, b'), []), Eat(0, 0), World([p], Duo(a', b'), []))
  {
    var a, b := Peer(true, 0, [], [p], []), Peer(true, 1, [], [ORIGIN, p], []);
    var a', b' := Peer(true, 0, [], [], [p]), Peer(true, 1, [], [ORIGIN], [p]);
    assert WithEaten(b, 1) == b' && WithEaten(a, 0) == a';
    TwoPeers(Next(World([p], Duo(a, b), []), Eat(1, 1)).peers, a, b');
    TwoPeers(Next(World([p], Duo(a, b'), []), Eat(0, 0)).peers, a', b');
  }

  lemma SecondIsHandled(p: Position)
    ensures var a, b := Peer(true, 0, [], [], [p]), Peer(true, 1, [], [ORIGIN], [p]);
            var a1, b1 := a.(inbox := [Eaten(p)]), b.(outbox := []);
            var a2, b2 := a.(inbox := [Eaten(p), New(p)]), b1.(inbox := [New(p)]);
            && Leads(World([p], Duo(a, b), []), HandleEat(1), World([], Duo(a1, b1), []))
            && Leads(World([], Duo(a1, b1), []), Generate(p), World([p], Duo(a2, b2), []))
  {
    var a, b := Peer(true, 0, [], [], [p]), Peer(true, 1, [], [ORIGIN], [p]);
    var a1, b1 := a.(inbox := [Eaten(p)]), b.(outbox := []);
    var a2, b2 := a.(inbox := [Eaten(p), New(p)]), b1.(inbox := [New(p)]);
    assert [Eaten(p)] + [New(p)] == [Eaten(p), New(p)] && [p][1..] == [];
    TwoPeers(Next(World([p], Duo(a, b), []), HandleEat(1)).peers, a1, b1);
    TwoPeers(Next(World([], Duo(a1, b1), []), Generate(p)).peers, a2, b2);
  }

  function RaceEnd(p: Position, q: Position): World<nat> {
    World([q], Duo(Peer(true, 0, [Eaten(p), New(p), New(q)], [], []),
                   Peer(true, 1, [New(p), Eaten(p), New(q)], [ORIGIN], [])), [])
  }

  lemma FirstIsHandled(p: Position, q: Position)
    ensures var a, b := Peer(true, 0, [Eaten(p), New(p)], [], [p]), Peer(true, 1, [New(p)], [ORIGIN], []);
            var a1, b1 := a.(outbox := []), b.(inbox := [New(p), Eaten(p)]);
            && Leads(World([p], Duo(a, b), []), HandleEat(0), World([], Duo(a1, b1), []))
            && Leads(World([], Duo(a1, b1), []), Generate(q), RaceEnd(p, q))
  {
    var a, b := Peer(true, 0, [Eaten(p), New(p)], [], [p]), Peer(true, 1, [New(p)], [ORIGIN], []);
    var a1, b1 := a.(outbox := []), b.(inbox := [New(p), Eaten(p)]);
    assert [New(p)] + [Eaten(p)] == [New(p), Eaten(p)] && [p][1..] == [];
    assert [Eaten(p), New(p)] + [New(q)] == [Eaten(p), New(p), New(q)];
    assert [New(p), Eaten(p)] + [New(q)] == [New(p), Eaten(p), New(q)];
    TwoPeers(Next(World([p], Duo(a, b), []), HandleEat(0)).peers, a1, b1);
    TwoPeers(Next(World([], Duo(a1, b1), []), Generate(q)).peers, RaceEnd(p, q).peers[0], RaceEnd(p, q).peers[1]);
  }

  predicate RunsTo<K(==)>(w: World<K>, steps: seq<Step<K>>, end: World<K>) {
    Possible(w, steps) && After(w, steps) == end
  }

  lemma LeadsOn<K>(w: World<K>, s: Step<K>, w': World<K>, rest: seq<Step<K>>, end: World<K>)
    requires Leads(w, s, w') && RunsTo(w', rest, end)
    ensures RunsTo(w, [s] + rest, end)
  {
    FirstStep(w, s, rest);
  }

  lemma RaceRuns(p: Position, q: Position)
    ensures RunsTo(Start<nat>(), Race(p, q), RaceEnd(p, q))
  {
    FirstJoins(p);
    FirstHears(p);
    SecondJoins(p);
    BothEat(p);
    SecondIsHandled(p);
    FirstIsHandled(p, q);
    NoSteps(RaceEnd(p, q));
    hide Leads, RunsTo, Duo, Solo, RaceEnd;
    var end := RaceEnd(p, q);
    var a, b := Peer(true, 0, [], [p], []), Peer(true, 1, [], [ORIGIN, p], []);
    var a1, b1 := Peer(true, 0, [], [], [p]), Peer(true, 1, [], [ORIGIN], [p]);
    var a2, b2 := a1.(inbox := [Eaten(p)]), b1.(outbox := []);
    var a3, b3 := a1.(inbox := [Eaten(p), New(p)]), b2.(inbox := [New(p)]);
    assert RunsTo(end, [], end) by { NoRun(end); }
    LeadsOn(World([], Duo(a3.(outbox := []), b3.(inbox := [New(p), Eaten(p)])), []), Generate(q), end, [], end);
    var r1 := [Generate(q)] + [];
    LeadsOn(World([p], Duo(a3, b3), []), HandleEat(0),
      World([], Duo(a3.(outbox := []), b3.(inbox := [New(p), Eaten(p)])), []), r1, end);
    var r2 := [HandleEat(0)] + r1;
    LeadsOn(World([], Duo(a2, b2), []), Generate(p), World([p], Duo(a3, b3), []), r2, end);
    var r3 := [Generate(p)] + r2;
    LeadsOn(World([p], Duo(a1, b1), []), HandleEat(1), World([], Duo(a2, b2), []), r3, end);
    var r4 := [HandleEat(1)] + r3;
    LeadsOn(World([p], Duo(a, b1), []), Eat(0, 0), World([p], Duo(a1, b1), []), r4, end);
    var r5 := [Eat(0, 0)] + r4;
    LeadsOn(World([p], Duo(a, b), []), Eat(1, 1), World([p], Duo(a, b1), []), r5, end);
    JoinedRuns(p, [Eat(1, 1)] + r5, end);
    RaceIs(p, q);
  }

  lemma NoRun<K>(w: World<K>)
    ensures RunsTo(w, [], w)
  {
  }

  /** What happens once both have joined. */
  lemma JoinedRuns(p: Position, rest: seq<Step<nat>>, end: World<nat>)
    requires RunsTo(World([p], Duo(Peer(true, 0, [], [p], []), Peer(true, 1, [], [ORIGIN, p], [])), []), rest, end)
    ensures RunsTo(Start<nat>(), JoinTwo(p) + rest, end)
  {
    FirstJoins(p);
    FirstHears(p);
    SecondJoins(p);
    hide Leads, RunsTo, Duo, Solo;
    var a, b, c := Peer(true, 0, [], [p], []), Peer(true, 1, [Snap([p])], [], []), Peer(true, 1, [], [ORIGIN, p], []);
    var d := Peer(true, 0, [Snap([])], [], []);
    LeadsOn(World([p], Duo(a, b), []), Deliver(1), World([p], Duo(a, c), []), rest, end);
    var r1 := [Deliver(1)] + rest;
    LeadsOn(World([p], Duo(a, NEWCOMER), []), Validate(1), World([p], Duo(a, b), []), r1, end);
    var r2 := [Validate(1)] + r1;
    LeadsOn(World([p], Solo(a), []), Connect(1), World([p], Duo(a, NEWCOMER), []), r2, end);
    var r3 := [Connect(1)] + r2;
    LeadsOn(World([p], Solo(d.(inbox := [New(p)])), []), Deliver(0), World([p], Solo(a), []), r3, end);
    var r4 := [Deliver(0)] + r3;
    LeadsOn(World([p], Solo(d.(inbox := [Snap([]), New(p)])), []), Deliver(0),
            World([p], Solo(d.(inbox := [New(p)])), []), r4, end);
    var r5 := [Deliver(0)] + r4;
    LeadsOn(World([], Solo(d), []), Generate(p), World([p], Solo(d.(inbox := [Snap([]), New(p)])), []), r5, end);
    var r6 := [Generate(p)] + r5;
    LeadsOn(World([], Solo(NEWCOMER), []), Validate(0), World([], Solo(d), []), r6, end);
    var r7 := [Validate(0)] + r6;
    LeadsOn(Start<nat>(), Connect(0), World([], Solo(NEWCOMER), []), r7, end);
    assert [Connect(0)] + r7 == JoinTwo(p) + rest;
  }

  lemma RaceIs(p: Position, q: Position)
    ensures Race(p, q) == JoinTwo(p) + ([Eat(1, 1)] + ([Eat(0, 0)] + ([HandleEat(1)] + ([Generate(p)]
                                        + ([HandleEat(0)] + ([Generate(q)] + []))))))
  {
    hide JoinTwo;
    assert [Eat(1, 1)] + ([Eat(0, 0)] + ([HandleEat(1)] + ([Generate(p)] + ([HandleEat(0)] + ([Generate(q)] + [])))))
      == [Eat(1, 1), Eat(0, 0), HandleEat(1), Generate(p), HandleEat(0), Generate(q)];
  }

  lemma RacedList(p: Position, q: Position)
    ensures ApplyAll([], [Eaten(p), New(p), New(q)]) == [p, q]
  {
    assert [Eaten(p), New(p), New(q)][1..] == [New(p), New(q)] && [New(p), New(q)][1..] == [New(q)];
    assert Apply([], Eaten(p)) == [] && Apply([], New(p)) == [p] && Apply([p], New(q)) == [p, q];
    assert ApplyAll([p, q], []) == [p, q] && ApplyAll([p], [New(q)]) == [p, q];
  }

  /** Without that discipline agreement can be lost for good, wherever the two powerups are: a run from
      the empty server, in which every handler has come to its end, after which the first client to
      join will have an entry on `p` that the server does not have. */
  lemma RaceBreaksAgreement(p: Position, q: Position)
    ensures Possible(Start<nat>(), Race(p, q)) && !Agreement(After(Start<nat>(), Race(p, q)))
    ensures var w := After(Start<nat>(), Race(p, q));
            && w.server == [q] && 0 in w.peers && w.peers[0].joined
            && w.peers[0].defaults == 0 && w.peers[0].outbox == []
            && ApplyAll(w.peers[0].list, w.peers[0].inbox) == [p, q]
  {
    RaceRuns(p, q);
    RacedList(p, q);
    BrokenEnd(p, q);
    assert RaceEnd(p, q).peers[0] == Peer(true, 0, [Eaten(p), New(p), New(q)], [], []);
    hide After, Possible, ApplyAll, Agreement;
  }

  lemma BrokenEnd(p: Position, q: Position)
    ensures !Agreement(RaceEnd(p, q))
  {
    var a := RaceEnd(p, q).peers[0];
    RacedList(p, q);
    assert |multiset([p, q])| == 2 && |multiset([q]) + Defaults(0) - multiset(a.outbox)| == 1;
    assert !Agrees([q], a);
    hide Agrees;
  }
}
