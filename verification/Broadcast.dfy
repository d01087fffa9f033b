/** When `MessageAllClients` and `OnClientDisconnect` (server.h, server.cpp), which call each other,
    come to an end. The calls are followed with a fuel counter, so that a run without end is a run
    that no amount of fuel finishes. */
module Broadcast {
  import opened Common

  /** A connection as the loop sees it: which one it is, and whether its socket is open. An entry
      that was reset is `None`. */
  datatype Member = Member(id: nat, open: bool)

  /** What the calls change: the list, what each connection was sent (most recent last, tagged by
      who was announced as gone, or `None` for the broadcast message itself), and the players. */
  datatype State = State(list: seq<Option<Member>>, sent: seq<(nat, Option<nat>)>, players: set<nat>)

  /** How a call ends: it comes back, or it needs more nested calls than there is fuel for, or it does
      something the program has no answer for: `OnClientDisconnect` of a reset entry, or a list that
      changed its length under a caller's loop. */
  datatype Outcome = Returns(s: State) | OutOfFuel | Undefined

  function Eq(m: Option<Member>, ignore: Option<nat>): bool {
    match (m, ignore)
    case (None, None) => true
    case (Some(c), Some(id)) => c.id == id
    case _ => false
  }

  /** `MessageAllClients(what, ignore)` with room for `fuel` nested calls. */
  function MessageAll(fuel: nat, s: State, what: Option<nat>, ignore: Option<nat>): Outcome
    decreases fuel, 1, 0
  {
    if fuel == 0 then OutOfFuel
    else Loop(fuel, s, what, ignore, 0, false)
  }

  function Loop(fuel: nat, s: State, what: Option<nat>, ignore: Option<nat>, i: nat, invalid: bool): Outcome
    requires fuel > 0 && i <= |s.list|
    decreases fuel, 0, |s.list| - i
  {
    if i == |s.list| then Returns(if invalid then s.(list := RemoveAll(s.list, None)) else s)
    else if Eq(s.list[i], ignore) then Loop(fuel, s, what, ignore, i + 1, invalid)
    else if s.list[i].Some? && s.list[i].value.open then
      Loop(fuel, s.(sent := s.sent + [(s.list[i].value.id, what)]), what, ignore, i + 1, invalid)
    else
      match Disconnect(fuel - 1, s, s.list[i])
      case OutOfFuel => OutOfFuel
      case Undefined => Undefined
      case Returns(s') =>
        if |s'.list| != |s.list| then Undefined
        else Loop(fuel, s'.(list := s'.list[i := None]), what, ignore, i + 1, true)
  }

  /** `OnClientDisconnect`. Given a reset entry the program would read through null. */
  function Disconnect(fuel: nat, s: State, client: Option<Member>): Outcome
    decreases fuel, 2, 0
  {
    match client
    case None => Undefined
    case Some(c) =>
      match MessageAll(fuel, s, Some(c.id), Some(c.id))
      case OutOfFuel => OutOfFuel
      case Undefined => Undefined
      case Returns(s') => Returns(s'.(players := s'.players - {c.id}))
  }

  // ---------------------------------------------------------------- the condition

  predicate Proper(s: State) {
    && (forall i :: 0 <= i < |s.list| ==> s.list[i].Some?)
    && (forall i, j :: 0 <= i < j < |s.list| && s.list[i].Some? && s.list[j].Some? ==>
          s.list[i].value.id != s.list[j].value.id)
  }

  predicate Closed(s: State, i: int) {
    0 <= i < |s.list| && s.list[i].Some? && !s.list[i].value.open
  }

  /** At most one member is disconnected. A caller can check this before the call. */
  ghost predicate Settles(s: State) {
    forall i, j :: Closed(s, i) && Closed(s, j) ==> i == j
  }

  // ---------------------------------------------------------------- what happens when it settles

  /** What the loop sends while it goes over `list` and meets nobody disconnected. */
  function Sends(list: seq<Option<Member>>, what: Option<nat>, ignore: Option<nat>): seq<(nat, Option<nat>)> {
    if list == [] then []
    else
      (if list[0].Some? && list[0].value.open && !Eq(list[0], ignore) then [(list[0].value.id, what)] else [])
      + Sends(list[1..], what, ignore)
  }

  predicate Quiet(list: seq<Option<Member>>, ignore: Option<nat>) {
    forall i :: 0 <= i < |list| ==> Eq(list[i], ignore) || (list[i].Some? && list[i].value.open)
  }

  lemma {:induction false} QuietLoop(fuel: nat, s: State, what: Option<nat>, ignore: Option<nat>, i: nat, invalid: bool)
    requires fuel > 0 && i <= |s.list| && Quiet(s.list[i..], ignore)
    ensures var end := s.(sent := s.sent + Sends(s.list[i..], what, ignore));
            Loop(fuel, s, what, ignore, i, invalid)
            == Returns(if invalid then end.(list := RemoveAll(s.list, None)) else end)
    decreases |s.list| - i
  {
    if i == |s.list| {
      assert s.sent + Sends(s.list[i..], what, ignore) == s.sent;
    } else {
      var rest := s.list[i..];
      assert rest[1..] == s.list[i + 1..];
      assert rest[0] == s.list[i];
      if Eq(s.list[i], ignore) {
        QuietLoop(fuel, s, what, ignore, i + 1, invalid);
        assert Sends(rest, what, ignore) == Sends(rest[1..], what, ignore);
      } else {
        var s' := s.(sent := s.sent + [(s.list[i].value.id, what)]);
        QuietLoop(fuel, s', what, ignore, i + 1, invalid);
        assert s'.sent + Sends(rest[1..], what, ignore) == s.sent + Sends(rest, what, ignore);
      }
    }
  }

  lemma {:induction false} SkipQuiet(fuel: nat, s: State, what: Option<nat>, ignore: Option<nat>, i: nat, n: nat)
    requires fuel > 0 && i <= n <= |s.list| && Quiet(s.list[i..n], ignore)
    ensures Loop(fuel, s, what, ignore, i, false)
            == Loop(fuel, s.(sent := s.sent + Sends(s.list[i..n], what, ignore)), what, ignore, n, false)
    decreases n - i
  {
    hide MessageAll, Disconnect;
    if i == n {
      assert s.sent + Sends(s.list[i..n], what, ignore) == s.sent;
    } else {
      var rest := s.list[i..n];
      assert rest[1..] == s.list[i + 1..n];
      assert rest[0] == s.list[i];
      if Eq(s.list[i], ignore) {
        SkipQuiet(fuel, s, what, ignore, i + 1, n);
        assert Sends(rest, what, ignore) == Sends(rest[1..], what, ignore);
      } else {
        var s' := s.(sent := s.sent + [(s.list[i].value.id, what)]);
        SkipQuiet(fuel, s', what, ignore, i + 1, n);
        assert s'.sent + Sends(rest[1..], what, ignore) == s.sent + Sends(rest, what, ignore);
      }
    }
  }

  /** Nobody to announce: everyone connected and not ignored gets the message, once, in list order,
      and nothing else changes. */
  lemma NobodyLost(fuel: nat, s: State, what: Option<nat>, ignore: Option<nat>)
    requires fuel > 0 && Proper(s) && forall i :: Closed(s, i) ==> Eq(s.list[i], ignore)
    ensures MessageAll(fuel, s, what, ignore) == Returns(s.(sent := s.sent + Sends(s.list, what, ignore)))
  {
    assert s.list[0..] == s.list;
    forall i | 0 <= i < |s.list|
      ensures Eq(s.list[i], ignore) || (s.list[i].Some? && s.list[i].value.open)
    {
      assert Closed(s, i) ==> Eq(s.list[i], ignore);
    }
    QuietLoop(fuel, s, what, ignore, 0, false);
  }

  /** The state after a broadcast that finds member `n` gone: those before it have the message first
      and its departure second, those after it the other way round; the list loses that entry, the
      players lose that identifier. */
  function AfterLoss(s: State, what: Option<nat>, ignore: Option<nat>, n: nat): State
    requires n < |s.list| && s.list[n].Some?
  {
    var gone := Some(s.list[n].value.id);
    State(s.list[..n] + s.list[n + 1..],
          s.sent + Sends(s.list[..n], what, ignore) + Sends(s.list, gone, gone) + Sends(s.list[n + 1..], what, ignore),
          s.players - {s.list[n].value.id})
  }

  /** The one disconnected member, when it is not the ignored one. */
  lemma OneLost(fuel: nat, s: State, what: Option<nat>, ignore: Option<nat>, n: nat)
    requires fuel > 1 && Proper(s) && Closed(s, n) && !Eq(s.list[n], ignore)
    requires forall i :: Closed(s, i) ==> i == n
    ensures MessageAll(fuel, s, what, ignore) == Returns(AfterLoss(s, what, ignore, n))
  {
    var c := s.list[n].value;
    var gone := Some(c.id);
    forall i | 0 <= i < |s.list| && i != n
      ensures s.list[i].Some? && s.list[i].value.open
    {
      assert !Closed(s, i);
    }
    SkipQuiet(fuel, s, what, ignore, 0, n);
    assert s.list[0..n] == s.list[..n];
    var s1 := s.(sent := s.sent + Sends(s.list[..n], what, ignore));
    forall i | Closed(s1, i)
      ensures Eq(s1.list[i], gone)
    {
      assert Closed(s, i);
    }
    NobodyLost(fuel - 1, s1, gone, gone);
    var s2 := s1.(sent := s1.sent + Sends(s.list, gone, gone), players := s.players - {c.id});
    assert Disconnect(fuel - 1, s1, s.list[n]) == Returns(s2);
    var s3 := s2.(list := s.list[n := None]);
    QuietLoop(fuel, s3, what, ignore, n + 1, true);
    assert s3.list[n + 1..] == s.list[n + 1..];
    RemoveAllOne(s.list, None, n);
  }

  // ---------------------------------------------------------------- exactly when it settles

  lemma FirstLost(s: State, ignore: Option<nat>, a: nat) returns (f: nat)
    requires Proper(s) && Closed(s, a) && !Eq(s.list[a], ignore)
    ensures f <= a && Closed(s, f) && !Eq(s.list[f], ignore) && Quiet(s.list[..f], ignore)
  {
    f := 0;
    while !(Closed(s, f) && !Eq(s.list[f], ignore))
      invariant f <= a && Quiet(s.list[..f], ignore)
      decreases a - f
    {
      assert s.list[..f + 1] == s.list[..f] + [s.list[f]];
      f := f + 1;
    }
  }

  /** With a disconnected member to announce and another one disconnected, no fuel is enough: each
      announcement runs into a disconnected member again. */
  lemma {:induction false} NeverSettles(fuel: nat, s: State, what: Option<nat>, ignore: Option<nat>, a: nat, b: nat)
    requires Proper(s) && Closed(s, a) && Closed(s, b) && a != b && !Eq(s.list[a], ignore)
    ensures MessageAll(fuel, s, what, ignore) == OutOfFuel
    decreases fuel
  {
    if fuel > 0 {
      var f := FirstLost(s, ignore, a);
      assert s.list[0..f] == s.list[..f];
      SkipQuiet(fuel, s, what, ignore, 0, f);
      var s1 := s.(sent := s.sent + Sends(s.list[..f], what, ignore));
      var gone := Some(s.list[f].value.id);
      var other := if f == a then b else a;
      assert Closed(s1, f) && Closed(s1, other) && !Eq(s1.list[other], gone);
      NeverSettles(fuel - 1, s1, gone, gone, other, f);
      assert Disconnect(fuel - 1, s1, s.list[f]) == OutOfFuel;
    }
  }

  /** Two disconnected members are two different identifiers, so one of them is not ignored. */
  lemma OneToAnnounce(s: State, ignore: Option<nat>, i: int, j: int) returns (a: nat, b: nat)
    requires Proper(s) && Closed(s, i) && Closed(s, j) && i != j
    ensures Closed(s, a) && Closed(s, b) && a != b && !Eq(s.list[a], ignore)
  {
    assert s.list[i].value.id != s.list[j].value.id;
    if Eq(s.list[i], ignore) {
      a, b := j, i;
    } else {
      a, b := i, j;
    }
  }

  /** The mutual recursion comes back exactly when at most one member is disconnected, and then two
      nested calls are enough; otherwise it never comes back, however many nested calls it may make. */
  lemma SettlesIff(s: State, what: Option<nat>, ignore: Option<nat>)
    requires Proper(s)
    ensures Settles(s) <==> exists fuel :: MessageAll(fuel, s, what, ignore).Returns?
    ensures Settles(s) ==> MessageAll(2, s, what, ignore).Returns?
    ensures !Settles(s) ==> forall fuel :: MessageAll(fuel, s, what, ignore) == OutOfFuel
  {
    if Settles(s) {
      if forall i :: Closed(s, i) ==> Eq(s.list[i], ignore) {
        NobodyLost(2, s, what, ignore);
      } else {
        var n :| Closed(s, n) && !Eq(s.list[n], ignore);
        OneLost(2, s, what, ignore, n);
      }
    } else {
      var i, j :| Closed(s, i) && Closed(s, j) && i != j;
      var a, b := OneToAnnounce(s, ignore, i, j);
      forall fuel: nat
        ensures MessageAll(fuel, s, what, ignore) == OutOfFuel
      {
        NeverSettles(fuel, s, what, ignore, a, b);
      }
    }
  }
}
