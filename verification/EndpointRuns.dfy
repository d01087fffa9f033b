/** What every run of one connection end keeps, whatever its peer sends and however the network
    cuts the bytes: the pump, the reader's buffer, the handshake. */
module EndpointRuns {
  import opened Common
  import opened Message
  import opened Connection
  import opened Scrambling

  // ---------------------------------------------------------------- the invariant

  predicate IsSuffix(a: seq<byte>, b: seq<byte>) {
    |a| <= |b| && a == b[|b| - |a|..]
  }

  /** While the socket is open there is a frame write outstanding exactly when the queue is not
      empty, and the write is for the front message. */
  predicate PumpOk(open: bool, w: Writer) {
    && (open ==> (w.write.NoWrite? <==> w.outQ == []))
    && (w.outQ == [] ==> w.write.NoWrite?)
    && (w.write.HeaderWrite? ==> IsSuffix(w.write.rest, HeaderBytes(w.outQ[0].header)))
    && (w.write.BodyWrite? ==> |w.outQ[0].body| > 0 && IsSuffix(w.write.rest, w.outQ[0].body))
  }

  /** The body of the last frame that carried one. */
  function LastBody(ms: seq<Msg>): seq<byte> {
    if ms == [] then []
    else
      var last := ms[|ms| - 1];
      if last.header.bodySize > 0 then last.body else LastBody(ms[..|ms| - 1])
  }

  /** What the reader makes of the frames `ms`: a frame without a body comes out with the body
      that the buffer still holds. */
  function Redelivered(ms: seq<Msg>): (r: seq<Msg>)
    ensures |r| == |ms|
  {
    if ms == [] then []
    else
      var front, last := ms[..|ms| - 1], ms[|ms| - 1];
      Redelivered(front) + [if last.header.bodySize > 0 then last else Msg(last.header, LastBody(front))]
  }

  predicate FramesOk(ms: seq<Msg>) {
    forall i :: 0 <= i < |ms| && ms[i].header.bodySize > 0 ==> Consistent(ms[i])
  }

  predicate ReaderOk(r: Reader) {
    && FramesOk(r.delivered)
    && r.delivered == Redelivered(r.delivered)
    && (r.read.ValidationRead? || r.read.Paused? ==> r.delivered == [] && r.tmp.body == [])
    && (Reading(r) ==> |r.read.got| <= ReadSize(r))
    && (r.read.HeaderRead? ==> r.tmp.body == LastBody(r.delivered))
    && (r.read.BodyRead? ==> r.tmp.header.bodySize > 0 && Consistent(r.tmp))
  }

  predicate ServerHandshakeOk(r: Reader, h: Handshake) {
    && h.check == Scramble(h.out)
    && !r.read.Paused? && !h.greet.NotGreeted?
    && h.validations <= 1
    && (r.read.ValidationRead? ==> h.validations == 0)
    && (r.read.HeaderRead? || r.read.BodyRead? || r.delivered != [] ==> h.validations == 1)
    && (h.validations == 1 ==> h.inn == h.check)
  }

  predicate ClientHandshakeOk(r: Reader, h: Handshake) {
    && h.validations == 0
    && (r.read.ValidationRead? ==> h.greet.NotGreeted?)
    && (r.read.Paused? <==> h.greet.Greeting?)
    && (r.read.HeaderRead? || r.read.BodyRead? || r.delivered != [] ==> h.greet.Greeted?)
    && (!h.greet.NotGreeted? ==> h.out == Scramble(h.inn))
  }

  predicate HandshakeOk(e: Endpoint) {
    if e.owner == ServerSide then ServerHandshakeOk(e.r, e.h) else ClientHandshakeOk(e.r, e.h)
  }

  predicate Good(e: Endpoint) {
    PumpOk(e.open, e.w) && ReaderOk(e.r) && HandshakeOk(e)
  }

  // ---------------------------------------------------------------- every step keeps it

  lemma RunPostedKeepsPump(open: bool, w: Writer)
    requires PumpOk(open, w) && w.posted != []
    ensures PumpOk(open, RunPosted(w))
  {
  }

  lemma TransferKeepsPump(open: bool, w: Writer, n: nat)
    requires PumpOk(open, w) && !w.write.NoWrite? && n <= |w.write.rest|
    ensures PumpOk(open, Transferred(w, n))
  {
  }

  lemma FrameWrittenKeepsPump(open: bool, w: Writer, ok: bool)
    requires PumpOk(open, w) && !w.write.NoWrite?
    ensures PumpOk(open && ok, FrameWritten(w, ok))
  {
  }

  lemma RedeliveredSnoc(ms: seq<Msg>, m: Msg)
    requires ms == Redelivered(ms)
    requires m.header.bodySize == 0 ==> m.body == LastBody(ms)
    ensures ms + [m] == Redelivered(ms + [m])
    ensures LastBody(ms + [m]) == m.body
  {
    assert (ms + [m])[..|ms|] == ms;
  }

  lemma FrameReceivedKeepsReader(r: Reader, ok: bool)
    requires ReaderOk(r) && (r.read.HeaderRead? || r.read.BodyRead?)
    requires ok ==> |r.read.got| == ReadSize(r)
    ensures ReaderOk(FrameReceived(r, ok))
  {
    hide ParseHeader, Redelivered, LastBody;
    if ok {
      if r.read.HeaderRead? {
        var h := ParseHeader(r.read.got);
        if h.bodySize == 0 {
          RedeliveredSnoc(r.delivered, Msg(h, r.tmp.body));
        }
      } else {
        RedeliveredSnoc(r.delivered, Msg(r.tmp.header, r.read.got));
      }
    }
  }

  lemma CheckAnswerKeepsGood(e: Endpoint, answer: bv64)
    requires Good(e) && e.r.read.ValidationRead? && e.owner == ServerSide
    ensures Good(CheckAnswer(e, answer))
  {
  }

  lemma AnswerChallengeKeepsGood(e: Endpoint, challenge: bv64)
    requires Good(e) && e.r.read.ValidationRead? && e.owner == ClientSide
    ensures Good(AnswerChallenge(e, challenge))
  {
  }

  lemma ValidationKeepsGood(e: Endpoint, ok: bool)
    requires Good(e) && e.r.read.ValidationRead? && (ok ==> |e.r.read.got| == 8)
    ensures Good(ValidationReceived(e, ok))
  {
    if ok {
      var x := ParseHandshake(e.r.read.got);
      if e.owner == ServerSide {
        CheckAnswerKeepsGood(e, x);
      } else {
        AnswerChallengeKeepsGood(e, x);
      }
    }
  }

  lemma GreetWrittenKeepsGood(e: Endpoint, ok: bool)
    requires Good(e) && e.h.greet.Greeting?
    ensures Good(GreetWritten(e, ok))
  {
    hide PumpOk, Scramble, Redelivered, FramesOk;
    assert PumpOk(e.open, e.w) ==> PumpOk(false, e.w) by { ClosedPump(e.open, e.w); }
  }

  lemma ClosedPump(open: bool, w: Writer)
    requires PumpOk(open, w)
    ensures PumpOk(false, w)
  {
  }

  lemma PullKeepsGood(e: Endpoint, bs: seq<byte>)
    requires Good(e) && CanAct(e, PullBytes(bs))
    ensures Good(Act(e, PullBytes(bs)))
  {
  }

  lemma PushKeepsGood(e: Endpoint, n: nat)
    requires Good(e) && CanAct(e, PushBytes(n))
    ensures Good(Act(e, PushBytes(n)))
  {
    hide PumpOk, ReaderOk;
    if e.h.greet.Greeting? && e.h.greet.rest != [] {
      GreetingKeepsGood(e, n);
    } else {
      hide ServerHandshakeOk, ClientHandshakeOk;
      TransferKeepsPump(e.open, e.w, n);
    }
  }

  lemma GreetingKeepsGood(e: Endpoint, n: nat)
    requires HandshakeOk(e) && CanAct(e, PushBytes(n)) && e.h.greet.Greeting? && e.h.greet.rest != []
    ensures HandshakeOk(Act(e, PushBytes(n)))
  {
    hide Scramble;
  }

  lemma PostKeepsGood(e: Endpoint, m: Msg)
    requires Good(e)
    ensures Good(Act(e, Post(m))) && Good(Act(e, Close))
  {
    hide ReaderOk, ServerHandshakeOk, ClientHandshakeOk;
  }

  lemma RunPostKeepsGood(e: Endpoint)
    requires Good(e) && CanAct(e, RunPost)
    ensures Good(Act(e, RunPost))
  {
    RunPostedKeepsPump(e.open, e.w);
    hide ReaderOk, ServerHandshakeOk, ClientHandshakeOk, PumpOk, RunPosted;
  }

  lemma WriteDoneKeepsGood(e: Endpoint, ok: bool)
    requires Good(e) && CanAct(e, WriteDone(ok))
    ensures Good(Act(e, WriteDone(ok)))
  {
    FrameWrittenKeepsPump(e.open, e.w, ok);
    hide ReaderOk, ServerHandshakeOk, ClientHandshakeOk, PumpOk, FrameWritten;
  }

  lemma ReadDoneKeepsGood(e: Endpoint, ok: bool)
    requires Good(e) && CanAct(e, ReadDone(ok))
    ensures Good(Act(e, ReadDone(ok)))
  {
    if e.r.read.ValidationRead? {
      ValidationKeepsGood(e, ok);
      hide Good, ValidationReceived;
    } else {
      FrameReceivedKeepsReader(e.r, ok);
      FramesKeepHandshake(e, ok);
      assert PumpOk(e.open && ok, e.w) by {
        if !ok {
          ClosedPump(e.open, e.w);
        }
      }
      hide ReaderOk, PumpOk, HandshakeOk, FrameReceived;
    }
  }

  lemma FramesKeepHandshake(e: Endpoint, ok: bool)
    requires HandshakeOk(e) && CanAct(e, ReadDone(ok)) && !e.r.read.ValidationRead?
    ensures HandshakeOk(Act(e, ReadDone(ok)))
  {
    hide ParseHeader, Resized, Scramble;
  }

  lemma ActKeepsGood(e: Endpoint, a: Action)
    requires Good(e) && CanAct(e, a)
    ensures Good(Act(e, a))
  {
    hide Good, Act, CanAct;
    match a
    case Post(m) => PostKeepsGood(e, m);
    case RunPost => RunPostKeepsGood(e);
    case PushBytes(n) => PushKeepsGood(e, n);
    case PullBytes(bs) => PullKeepsGood(e, bs);
    case WriteDone(ok) => WriteDoneKeepsGood(e, ok);
    case GreetDone(ok) => GreetDoneKeepsGood(e, ok);
    case Close => PostKeepsGood(e, EMPTY_MESSAGE);
    case ReadDone(ok) => ReadDoneKeepsGood(e, ok);
  }

  lemma GreetDoneKeepsGood(e: Endpoint, ok: bool)
    requires Good(e) && CanAct(e, GreetDone(ok))
    ensures Good(Act(e, GreetDone(ok)))
  {
    GreetWrittenKeepsGood(e, ok);
    hide Good, GreetWritten;
  }

  lemma {:induction false} RunKeepsGood(e: Endpoint, actions: seq<Action>)
    requires Good(e) && CanRun(e, actions)
    ensures Good(Run(e, actions))
    decreases |actions|
  {
    if actions != [] {
      ActKeepsGood(e, actions[0]);
      RunKeepsGood(Act(e, actions[0]), actions[1..]);
    }
  }

  predicate New(e: Endpoint) {
    e == NewClientEndpoint() || e == NewServerEndpoint(e.h.out)
  }

  lemma NewIsGood(e: Endpoint)
    requires New(e)
    ensures Good(e)
  {
  }

  // ---------------------------------------------------------------- the write pump

  /** In every run, whatever fails: while the socket is open a frame write is outstanding exactly
      when the out-queue is not empty, and what it still has to write is the end of the front
      message's header or of its body. */
  lemma WritePump(e0: Endpoint, actions: seq<Action>)
    requires New(e0) && CanRun(e0, actions)
    ensures var e := Run(e0, actions); e.open ==> (e.w.outQ != [] <==> !e.w.write.NoWrite?)
    ensures var w := Run(e0, actions).w;
            match w.write
            case NoWrite => true
            case HeaderWrite(rest) => w.outQ != [] && IsSuffix(rest, HeaderBytes(w.outQ[0].header))
            case BodyWrite(rest) => w.outQ != [] && w.outQ[0].body != [] && IsSuffix(rest, w.outQ[0].body)
  {
    NewIsGood(e0);
    RunKeepsGood(e0, actions);
  }

  /** The writes one message takes. */
  function Phases(m: Msg): nat {
    if |m.body| > 0 then 2 else 1
  }

  function TotalPhases(ms: seq<Msg>): nat {
    if ms == [] then 0 else Phases(ms[0]) + TotalPhases(ms[1..])
  }

  /** The successful writes that are left before the queue is empty. */
  function Work(w: Writer): int {
    TotalPhases(w.outQ) - if w.write.BodyWrite? then 1 else 0
  }

  lemma {:induction false} TotalPhasesSnoc(ms: seq<Msg>, m: Msg)
    ensures TotalPhases(ms + [m]) == TotalPhases(ms) + Phases(m)
  {
    if ms == [] {
      assert ms + [m] == [m];
    } else {
      TotalPhasesSnoc(ms[1..], m);
      assert (ms + [m])[1..] == ms[1..] + [m];
    }
  }

  /** Each successful completion takes exactly one unit of work and each accepted message adds its
      own. A failed body write, which closes the socket, gives its unit back; nothing else changes
      the work. */
  lemma WorkOfStep(e: Endpoint, a: Action)
    requires Good(e) && CanAct(e, a)
    ensures 0 <= Work(e.w)
    ensures a == WriteDone(true) ==> Work(Act(e, a).w) == Work(e.w) - 1
    ensures a.RunPost? ==> Work(Act(e, a).w) == Work(e.w) + Phases(e.w.posted[0])
    ensures a == WriteDone(false) ==> Work(Act(e, a).w) == Work(e.w) + if e.w.write.BodyWrite? then 1 else 0
    ensures !a.WriteDone? && !a.RunPost? ==> Work(Act(e, a).w) == Work(e.w)
  {
    if a.RunPost? {
      TotalPhasesSnoc(e.w.outQ, e.w.posted[0]);
    }
  }

  /** What the network does for the pump: it takes the rest of the pending write, and the
      completion handler runs. */
  function WriteOne(w: Writer): Writer
    requires w.outQ != [] && !w.write.NoWrite?
  {
    FrameWritten(Transferred(w, |w.write.rest|), true)
  }

  function WriteMany(w: Writer, n: nat): Writer
    decreases n
  {
    if n == 0 || w.outQ == [] || w.write.NoWrite? then w else WriteMany(WriteOne(w), n - 1)
  }

  /** Any finite queue drains: after as many successful writes as the work says it is empty, and
      not before. */
  lemma {:induction false} Drains(w: Writer, n: nat)
    requires PumpOk(true, w)
    ensures 0 <= Work(w)
    ensures WriteMany(w, n).outQ == [] <==> Work(w) <= n
    decreases n
  {
    if w.outQ != [] && n > 0 {
      TransferKeepsPump(true, w, |w.write.rest|);
      FrameWrittenKeepsPump(true, Transferred(w, |w.write.rest|), true);
      Drains(WriteOne(w), n - 1);
    }
  }

  // ---------------------------------------------------------------- the reader's buffer

  /** The messages that a connection delivers, along any run and for any peer: a message without
      a body comes with the last body that an earlier frame carried, and so a delivered message
      agrees with its header exactly when it has a body or no earlier one had. */
  lemma DeliveredBodies(e0: Endpoint, actions: seq<Action>, i: nat)
    requires New(e0) && CanRun(e0, actions) && i < |Run(e0, actions).r.delivered|
    ensures var ms := Run(e0, actions).r.delivered;
            && (ms[i].header.bodySize == 0 ==> ms[i].body == LastBody(ms[..i]))
            && (Consistent(ms[i]) <==>
                  ms[i].header.bodySize > 0 || forall j :: 0 <= j < i ==> ms[j].header.bodySize == 0)
  {
    NewIsGood(e0);
    RunKeepsGood(e0, actions);
    var ms := Run(e0, actions).r.delivered;
    RedeliveredAt(ms, i);
    LastBodyEmpty(ms[..i]);
  }

  // ---------------------------------------------------------------- a message that disagrees with its header

  lemma TwoActions(e: Endpoint, a: Action, b: Action, rest: seq<Action>)
    requires CanAct(e, a) && CanAct(Act(e, a), b) && CanRun(Act(Act(e, a), b), rest)
    ensures CanRun(e, [a, b] + rest) && Run(e, [a, b] + rest) == Run(Act(Act(e, a), b), rest)
  {
    assert ([a, b] + rest)[1..] == [b] + rest && ([b] + rest)[1..] == rest;
    hide Act, CanAct;
  }

  /** The bytes of a whole read arrive at once and its handler runs. */
  function ReadAll(e: Endpoint, bs: seq<byte>): Endpoint
    requires (e.r.read.HeaderRead? || e.r.read.BodyRead?) && |bs| == ReadSize(e.r)
  {
    e.(r := FrameReceived(e.r.(read := if e.r.read.HeaderRead? then HeaderRead(bs) else BodyRead(bs)), true))
  }

  lemma ReadAtOnce(e: Endpoint, bs: seq<byte>, rest: seq<Action>)
    requires e.open && (e.r.read == HeaderRead([]) || e.r.read == BodyRead([])) && bs != [] && |bs| == ReadSize(e.r)
    requires CanRun(ReadAll(e, bs), rest)
    ensures var actions := [PullBytes(bs), ReadDone(true)] + rest;
            CanRun(e, actions) && Run(e, actions) == Run(ReadAll(e, bs), rest)
  {
    assert [] + bs == bs;
    var e1 := Act(e, PullBytes(bs));
    assert Act(e1, ReadDone(true)) == ReadAll(e, bs);
    TwoActions(e, PullBytes(bs), ReadDone(true), rest);
  }

  lemma AnswerAtOnce(challenge: bv64, rest: seq<Action>)
    requires CanRun(ValidatedEndpoint(challenge), rest)
    ensures var e0, bs := NewServerEndpoint(challenge), HandshakeBytes(Scramble(challenge));
            var actions := [PullBytes(bs), ReadDone(true)] + rest;
            CanRun(e0, actions) && Run(e0, actions) == Run(ValidatedEndpoint(challenge), rest)
  {
    hide Scramble, HandshakeBytes, ParseHandshake, CanRun, Run;
    var e0, bs := NewServerEndpoint(challenge), HandshakeBytes(Scramble(challenge));
    ParseHandshakeBytes(Scramble(challenge));
    assert [] + bs == bs;
    assert Act(Act(e0, PullBytes(bs)), ReadDone(true)) == ValidatedEndpoint(challenge);
    TwoActions(e0, PullBytes(bs), ReadDone(true), rest);
  }

  /** The server's end once it has read the right answer. */
  function ValidatedEndpoint(challenge: bv64): Endpoint {
    var e := NewServerEndpoint(challenge);
    e.(r := e.r.(read := HeaderRead([])), h := e.h.(inn := Scramble(challenge), validations := 1))
  }

  /** What a client's answer, a frame with a body and a header alone make a server-side end do. */
  function StaleActions(challenge: bv64, m: Msg, id: uint32): seq<Action> {
    [PullBytes(HandshakeBytes(Scramble(challenge))), ReadDone(true)]
    + ([PullBytes(HeaderBytes(m.header)), ReadDone(true)]
       + ([PullBytes(m.body), ReadDone(true)]
          + ([PullBytes(HeaderBytes(Header(id, 0))), ReadDone(true)] + [])))
  }

  /** Such a message exists: after any message with a body, such as a report, a message that is a
      header alone, such as a request to start the game, is delivered with the body of the first. */
  lemma StaleDelivery(challenge: bv64, m: Msg, id: uint32)
    requires Consistent(m) && m.body != []
    ensures var e0, actions := NewServerEndpoint(challenge), StaleActions(challenge, m, id);
            && CanRun(e0, actions)
            && Run(e0, actions).r.delivered == [m, Msg(Header(id, 0), m.body)]
            && !Consistent(Run(e0, actions).r.delivered[1])
  {
    hide Scramble, HandshakeBytes, HeaderBytes, ParseHeader, CanRun, Run;
    ParseHeaderBytes(m.header);
    ParseHeaderBytes(Header(id, 0));
    var e1 := ValidatedEndpoint(challenge);
    var e2 := ReadAll(e1, HeaderBytes(m.header));
    var e3 := ReadAll(e2, m.body);
    var e4 := ReadAll(e3, HeaderBytes(Header(id, 0)));
    assert e3.r.delivered == [m] && e3.r.tmp == m;
    assert e4.r.delivered == [m, Msg(Header(id, 0), m.body)];
    NoActions(e4);
    ReadAtOnce(e3, HeaderBytes(Header(id, 0)), []);
    ReadAtOnce(e2, m.body, [PullBytes(HeaderBytes(Header(id, 0))), ReadDone(true)] + []);
    ReadAtOnce(e1, HeaderBytes(m.header),
               [PullBytes(m.body), ReadDone(true)] + ([PullBytes(HeaderBytes(Header(id, 0))), ReadDone(true)] + []));
    AnswerAtOnce(challenge, [PullBytes(HeaderBytes(m.header)), ReadDone(true)]
                 + ([PullBytes(m.body), ReadDone(true)]
                    + ([PullBytes(HeaderBytes(Header(id, 0))), ReadDone(true)] + [])));
  }

  lemma NoActions(e: Endpoint)
    ensures CanRun(e, []) && Run(e, []) == e
  {
  }

  lemma {:induction false} RedeliveredAt(ms: seq<Msg>, i: nat)
    requires i < |ms|
    ensures Redelivered(ms)[i] == if ms[i].header.bodySize > 0 then ms[i] else Msg(ms[i].header, LastBody(ms[..i]))
  {
    if i < |ms| - 1 {
      RedeliveredAt(ms[..|ms| - 1], i);
      assert ms[..|ms| - 1][..i] == ms[..i];
    }
  }

  lemma {:induction false} LastBodyEmpty(ms: seq<Msg>)
    requires FramesOk(ms)
    ensures LastBody(ms) == [] <==> forall j :: 0 <= j < |ms| ==> ms[j].header.bodySize == 0
  {
    if ms != [] {
      LastBodyEmpty(ms[..|ms| - 1]);
    }
  }

  // ---------------------------------------------------------------- handshake safety

  lemma {:induction false} ServerKeepsChallenge(e: Endpoint, actions: seq<Action>)
    requires e.owner == ServerSide && CanRun(e, actions)
    ensures Run(e, actions).owner == ServerSide
    ensures Run(e, actions).h.out == e.h.out
    decreases |actions|
  {
    if actions != [] {
      ServerKeepsChallenge(Act(e, actions[0]), actions[1..]);
    }
  }

  /** For any peer and any run of a server-side connection: `OnClientValidated` is called at most
      once; when it has been called the peer's answer was the scrambled challenge; no frame is
      read, let alone delivered, before. */
  lemma HandshakeSafety(challenge: bv64, actions: seq<Action>)
    requires CanRun(NewServerEndpoint(challenge), actions)
    ensures var e := Run(NewServerEndpoint(challenge), actions);
            && e.h.validations <= 1
            && (e.h.validations == 1 ==> e.h.inn == Scramble(challenge))
            && (e.r.read.HeaderRead? || e.r.read.BodyRead? || e.r.delivered != [] ==> e.h.validations == 1)
  {
    var e0 := NewServerEndpoint(challenge);
    NewIsGood(e0);
    RunKeepsGood(e0, actions);
    ServerKeepsChallenge(e0, actions);
  }
}
