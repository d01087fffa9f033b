/** A server-side and a client-side connection end joined by two byte channels. Along any run,
    with any partial transfers, errors and closes, the two byte streams refine two message queues. */
module Transport {
  import opened Common
  import opened Message
  import opened Connection
  import opened EndpointRuns
  import opened Scrambling

  // ---------------------------------------------------------------- the system

  /** One direction: the bytes already received, the bytes on their way, and, for the statement
      only, every message the sender's queue has accepted. */
  datatype Pipe = Pipe(received: seq<byte>, inFlight: seq<byte>, accepted: seq<Msg>)

  /** One end with the pipe it writes to and the pipe it reads from. */
  datatype Node = Node(e: Endpoint, out: Pipe, inp: Pipe)

  datatype Sys = Sys(server: Endpoint, client: Endpoint, down: Pipe, up: Pipe)

  datatype Step = AtServer(a: Action) | AtClient(a: Action)

  const EMPTY_PIPE := Pipe([], [], [])

  function Init(challenge: bv64): Sys {
    Sys(NewServerEndpoint(challenge), NewClientEndpoint(), EMPTY_PIPE, EMPTY_PIPE)
  }

  /** The applications send any messages, those whose header does not announce their body included.
      The client's application sends only once its connection reads frames: the game loop waits for
      the server's first message. */
  predicate NodeCan(n: Node, a: Action) {
    && CanAct(n.e, a)
    && (a.Post? && n.e.owner == ClientSide ==> n.e.r.read.HeaderRead? || n.e.r.read.BodyRead?)
    && (a.PullBytes? ==> a.bs <= n.inp.inFlight)
  }

  function NodeAct(n: Node, a: Action): Node
    requires NodeCan(n, a)
  {
    var e := Act(n.e, a);
    match a
    case RunPost => Node(e, n.out.(accepted := n.out.accepted + [n.e.w.posted[0]]), n.inp)
    case PushBytes(k) => Node(e, n.out.(inFlight := n.out.inFlight + Outgoing(n.e)[..k]), n.inp)
    case PullBytes(bs) =>
      Node(e, n.out, n.inp.(received := n.inp.received + bs, inFlight := n.inp.inFlight[|bs|..]))
    case _ => Node(e, n.out, n.inp)
  }

  function ServerNode(s: Sys): Node {
    Node(s.server, s.down, s.up)
  }

  function ClientNode(s: Sys): Node {
    Node(s.client, s.up, s.down)
  }

  predicate Enabled(s: Sys, step: Step) {
    match step
    case AtServer(a) => NodeCan(ServerNode(s), a)
    case AtClient(a) => NodeCan(ClientNode(s), a)
  }

  function Next(s: Sys, step: Step): Sys
    requires Enabled(s, step)
  {
    match step
    case AtServer(a) => var n := NodeAct(ServerNode(s), a); Sys(n.e, s.client, n.out, n.inp)
    case AtClient(a) => var n := NodeAct(ClientNode(s), a); Sys(s.server, n.e, n.inp, n.out)
  }

  predicate Executes(s: Sys, steps: seq<Step>)
    decreases |steps|
  {
    steps == [] || (Enabled(s, steps[0]) && Executes(Next(s, steps[0]), steps[1..]))
  }

  function Exec(s: Sys, steps: seq<Step>): Sys
    requires Executes(s, steps)
    decreases |steps|
  {
    if steps == [] then s else Exec(Next(s, steps[0]), steps[1..])
  }

  // ---------------------------------------------------------------- the invariant

  function FrameOf(m: Msg): Msg {
    if m.header.bodySize > 0 then m else Msg(m.header, [])
  }

  function Frames(ms: seq<Msg>): (r: seq<Msg>)
    ensures |r| == |ms|
  {
    seq(|ms|, i requires 0 <= i < |ms| => FrameOf(ms[i]))
  }

  /** The validation parameter an end writes before its frames. */
  function Preamble(h: Handshake): seq<byte> {
    if h.greet.NotGreeted? then [] else HandshakeBytes(h.out)
  }

  /** The bytes a writer has accepted and not yet handed over. */
  function Unwritten(w: Writer): seq<byte> {
    match w.write
    case NoWrite => []
    case HeaderWrite(rest) => if w.outQ == [] then [] else rest + w.outQ[0].body + Wire(w.outQ[1..])
    case BodyWrite(rest) => if w.outQ == [] then [] else rest + Wire(w.outQ[1..])
  }

  function Unsent(e: Endpoint): seq<byte> {
    (if e.h.greet.Greeting? then e.h.greet.rest else []) + Unwritten(e.w)
  }

  function Gone(p: Pipe): seq<byte> {
    p.received + p.inFlight
  }

  /** Bytes are conserved at the sending end while its socket is open, and never invented. */
  predicate Conserved(open: bool, gone: seq<byte>, unsent: seq<byte>, total: seq<byte>) {
    gone <= total && (open ==> gone + unsent == total)
  }

  predicate EndOf(outQ: seq<Msg>, accepted: seq<Msg>) {
    |outQ| <= |accepted| && outQ == accepted[|accepted| - |outQ|..]
  }

  predicate SenderOk(e: Endpoint, p: Pipe) {
    && EndOf(e.w.outQ, p.accepted)
    && (e.h.greet.NotGreeted? ==> p.accepted == [] && e.w.posted == [] && e.w.outQ == [])
    && Conserved(e.open, Gone(p), Unsent(e), Preamble(e.h) + Wire(p.accepted))
  }

  /** The bytes of the current frame that are already read. */
  function Partial(r: Reader): seq<byte> {
    match r.read
    case HeaderRead(got) => got
    case BodyRead(got) => HeaderBytes(r.tmp.header) + got
    case _ => []
  }

  /** The frames delivered are what the received bytes after the validation parameter say. */
  predicate FramesRead(r: Reader, bytes: seq<byte>) {
    && (r.read.Paused? ==> bytes == [])
    && (r.read.HeaderRead? || r.read.BodyRead? ==> bytes == Wire(Frames(r.delivered)) + Partial(r))
    && Wire(Frames(r.delivered)) <= bytes
  }

  /** This end gave up before it had the peer's validation parameter, or rejected it. */
  predicate HandshakeFailed(e: Endpoint) {
    && e.r.read.Stopped? && e.r.delivered == []
    && (if e.owner == ServerSide then e.h.validations == 0 else e.h.greet.NotGreeted?)
  }

  predicate ReceiverOk(e: Endpoint, p: Pipe) {
    if e.r.read.ValidationRead? then p.received == e.r.read.got
    else if HandshakeFailed(e) then true
    else
      && 8 <= |p.received|
      && FramesRead(e.r, p.received[8..])
      && e.h.inn == ParseHandshake(p.received[..8])
  }

  predicate NodeOk(n: Node) {
    Good(n.e) && SenderOk(n.e, n.out) && ReceiverOk(n.e, n.inp)
  }

  predicate SysOk(s: Sys) {
    && s.server.owner == ServerSide && s.client.owner == ClientSide
    && NodeOk(ServerNode(s)) && NodeOk(ClientNode(s))
  }

  // ---------------------------------------------------------------- wire bytes

  lemma {:induction false} WireConcat(a: seq<Msg>, b: seq<Msg>)
    ensures Wire(a + b) == Wire(a) + Wire(b)
  {
    if a == [] {
      assert a + b == b;
    } else {
      WireConcat(a[1..], b);
      assert (a + b)[1..] == a[1..] + b;
      Assoc(WireOf(a[0]), Wire(a[1..]), Wire(b));
    }
  }

  lemma WireSnoc(ms: seq<Msg>, m: Msg)
    ensures Wire(ms + [m]) == Wire(ms) + WireOf(m)
  {
    WireConcat(ms, [m]);
    assert Wire([m]) == WireOf(m) + Wire([]);
  }

  lemma UnwrittenOfPost(w: Writer)
    requires w.posted != [] && PumpOk(true, w)
    ensures Unwritten(RunPosted(w)) == Unwritten(w) + WireOf(w.posted[0])
  {
    var m := w.posted[0];
    if w.outQ == [] {
      assert (w.outQ + [m])[1..] == [];
    } else {
      assert (w.outQ + [m])[1..] == w.outQ[1..] + [m];
      WireSnoc(w.outQ[1..], m);
    }
  }

  lemma UnwrittenOfTransfer(w: Writer, n: nat)
    requires PumpOk(true, w) && !w.write.NoWrite? && n <= |w.write.rest|
    ensures Unwritten(w) == w.write.rest[..n] + Unwritten(Transferred(w, n))
  {
    hide HandshakeBytes, ParseHandshake, HeaderBytes, ParseHeader, Scramble;
    var a, b := w.write.rest[..n], w.write.rest[n..];
    assert w.write.rest == a + b;
    if w.write.HeaderWrite? {
      Assoc(a, b, w.outQ[0].body);
      Assoc(a, b + w.outQ[0].body, Wire(w.outQ[1..]));
    } else {
      Assoc(a, b, Wire(w.outQ[1..]));
    }
  }

  lemma UnwrittenOfCompletion(w: Writer)
    requires PumpOk(true, w) && !w.write.NoWrite? && w.write.rest == []
    ensures Unwritten(FrameWritten(w, true)) == Unwritten(w)
  {
    hide HeaderBytes;
    if w.write.HeaderWrite? && |w.outQ[0].body| > 0 {
    } else if w.outQ[1..] != [] {
      assert w.outQ[1..][1..] == w.outQ[2..];
    }
  }

  lemma FramesSnoc(ms: seq<Msg>, m: Msg)
    ensures Wire(Frames(ms + [m])) == Wire(Frames(ms)) + WireOf(FrameOf(m))
  {
    assert Frames(ms + [m]) == Frames(ms) + [FrameOf(m)];
    WireSnoc(Frames(ms), FrameOf(m));
  }

  // ---------------------------------------------------------------- every step keeps it

  lemma ConservedMore(open: bool, gone: seq<byte>, unsent: seq<byte>, total: seq<byte>, more: seq<byte>)
    requires Conserved(open, gone, unsent, total)
    ensures Conserved(open, gone, unsent + more, total + more)
  {
    Assoc(gone, unsent, more);
  }

  lemma ConservedMove(gone: seq<byte>, moved: seq<byte>, unsent: seq<byte>, total: seq<byte>)
    requires Conserved(true, gone, moved + unsent, total)
    ensures Conserved(true, gone + moved, unsent, total)
  {
    Assoc(gone, moved, unsent);
    assert gone + moved == total[..|gone + moved|];
  }

  lemma ConservedClosed(open: bool, gone: seq<byte>, unsent: seq<byte>, total: seq<byte>, unsent': seq<byte>)
    requires Conserved(open, gone, unsent, total)
    ensures Conserved(false, gone, unsent', total)
  {
  }

  lemma PostedFields(n: Node)
    requires Good(n.e) && NodeCan(n, RunPost)
    ensures var n', w := NodeAct(n, RunPost), n.e.w;
            && n'.e.open == n.e.open && n'.e.h == n.e.h
            && n'.e.w.outQ == w.outQ + [w.posted[0]] && n'.e.w.posted == w.posted[1..]
            && n'.out == n.out.(accepted := n.out.accepted + [w.posted[0]])
  {
    hide HandshakeBytes, ParseHandshake, HeaderBytes, ParseHeader, Scramble, ReaderOk;
  }

  lemma PostedWriter(n: Node)
    requires NodeCan(n, RunPost)
    ensures NodeAct(n, RunPost).e.w == RunPosted(n.e.w)
  {
  }

  lemma EndOfMore(outQ: seq<Msg>, accepted: seq<Msg>, m: Msg)
    requires EndOf(outQ, accepted)
    ensures EndOf(outQ + [m], accepted + [m])
  {
  }

  lemma UnsentOfPost(n: Node)
    requires Good(n.e) && NodeCan(n, RunPost) && n.e.open
    ensures Unsent(NodeAct(n, RunPost).e) == Unsent(n.e) + WireOf(n.e.w.posted[0])
  {
    PostedFields(n);
    PostedWriter(n);
    hide HandshakeOk, ReaderOk, Act, NodeAct, Unwritten, WireOf, PumpOk;
    UnwrittenOfPost(n.e.w);
    Assoc(if n.e.h.greet.Greeting? then n.e.h.greet.rest else [], Unwritten(n.e.w), WireOf(n.e.w.posted[0]));
  }

  /** The bytes of an accepted message are added at both ends of the account. */
  lemma PostConserves(n: Node)
    requires Good(n.e) && SenderOk(n.e, n.out) && NodeCan(n, RunPost)
    ensures var n', m := NodeAct(n, RunPost), n.e.w.posted[0];
            Conserved(n.e.open, Gone(n.out), Unsent(n'.e), Preamble(n.e.h) + Wire(n.out.accepted + [m]))
  {
    hide HandshakeBytes, HeaderBytes, Good, NodeAct, Unsent, WireOf, Preamble, Wire, Gone, EndOf;
    var m, e' := n.e.w.posted[0], NodeAct(n, RunPost).e;
    var total := Preamble(n.e.h) + Wire(n.out.accepted);
    WireSnoc(n.out.accepted, m);
    Assoc(Preamble(n.e.h), Wire(n.out.accepted), WireOf(m));
    ConservedMore(n.e.open, Gone(n.out), Unsent(n.e), total, WireOf(m));
    hide Conserved;
    if n.e.open {
      UnsentOfPost(n);
    } else {
      ConservedClosed(false, Gone(n.out), Unsent(n.e) + WireOf(m), total + WireOf(m), Unsent(e'));
    }
  }

  lemma PostKeepsSender(n: Node)
    requires Good(n.e) && SenderOk(n.e, n.out) && NodeCan(n, RunPost)
    ensures var n' := NodeAct(n, RunPost); SenderOk(n'.e, n'.out)
  {
    PostedFields(n);
    EndOfMore(n.e.w.outQ, n.out.accepted, n.e.w.posted[0]);
    PostConserves(n);
    hide HandshakeBytes, HeaderBytes, Good, NodeCan, NodeAct, Unsent, Wire, Preamble, Gone, EndOf, Conserved;
  }

  lemma UnsentOfGreeting(e: Endpoint, k: nat)
    requires CanAct(e, PushBytes(k)) && e.h.greet.Greeting? && e.h.greet.rest != []
    ensures Unsent(e) == Outgoing(e)[..k] + Unsent(Act(e, PushBytes(k)))
  {
    hide Unwritten;
    var rest := e.h.greet.rest;
    assert rest == rest[..k] + rest[k..];
    Assoc(rest[..k], rest[k..], Unwritten(e.w));
  }

  lemma UnsentOfFrame(e: Endpoint, k: nat)
    requires PumpOk(true, e.w) && CanAct(e, PushBytes(k)) && !(e.h.greet.Greeting? && e.h.greet.rest != [])
    ensures Unsent(e) == Outgoing(e)[..k] + Unsent(Act(e, PushBytes(k)))
  {
    hide Unwritten, PumpOk;
    UnwrittenOfTransfer(e.w, k);
    hide Transferred;
    var e' := Act(e, PushBytes(k));
    assert Unsent(e) == Unwritten(e.w);
    assert Unsent(e') == Unwritten(e'.w);
  }

  lemma PushKeepsSender(n: Node, k: nat)
    requires Good(n.e) && SenderOk(n.e, n.out) && NodeCan(n, PushBytes(k))
    ensures var n' := NodeAct(n, PushBytes(k)); SenderOk(n'.e, n'.out)
  {
    hide HandshakeBytes, ParseHandshake, HeaderBytes, ParseHeader, Scramble, ReaderOk;
    if n.e.h.greet.Greeting? && n.e.h.greet.rest != [] {
      UnsentOfGreeting(n.e, k);
    } else {
      UnsentOfFrame(n.e, k);
    }
    var moved := Outgoing(n.e)[..k];
    var n' := NodeAct(n, PushBytes(k));
    Assoc(n.out.received, n.out.inFlight, moved);
    ConservedMove(Gone(n.out), moved, Unsent(n'.e), Preamble(n.e.h) + Wire(n.out.accepted));
  }

  lemma WriteDoneKeepsSender(n: Node, ok: bool)
    requires Good(n.e) && SenderOk(n.e, n.out) && NodeCan(n, WriteDone(ok))
    ensures var n' := NodeAct(n, WriteDone(ok)); SenderOk(n'.e, n'.out)
  {
    hide HandshakeBytes, ParseHandshake, HeaderBytes, ParseHeader, Scramble, ReaderOk;
    if ok && n.e.open {
      UnwrittenOfCompletion(n.e.w);
    }
  }

  lemma GreetDoneFields(n: Node, ok: bool)
    requires NodeCan(n, GreetDone(ok))
    ensures var n' := NodeAct(n, GreetDone(ok));
            && n'.e.open == (n.e.open && ok) && n'.e.w == n.e.w && n'.out == n.out
            && n.e.h.greet.Greeting? && (ok ==> n.e.h.greet.rest == [])
            && n'.e.h.greet == Greeted && n'.e.h.out == n.e.h.out
  {
    hide HandshakeBytes, ParseHandshake, HeaderBytes, ParseHeader, Scramble;
  }

  lemma GreetDoneKeepsSender(n: Node, ok: bool)
    requires Good(n.e) && SenderOk(n.e, n.out) && NodeCan(n, GreetDone(ok))
    ensures var n' := NodeAct(n, GreetDone(ok)); SenderOk(n'.e, n'.out)
  {
    GreetDoneFields(n, ok);
    hide HandshakeBytes, ParseHandshake, HeaderBytes, ParseHeader, Scramble, Good, Act, NodeAct, Unwritten, Wire;
    var n' := NodeAct(n, GreetDone(ok));
    assert ok ==> Unsent(n'.e) == Unsent(n.e);
    assert Preamble(n'.e.h) == Preamble(n.e.h);
    assert Conserved(n'.e.open, Gone(n'.out), Unsent(n'.e), Preamble(n'.e.h) + Wire(n'.out.accepted));
  }

  lemma AnswerKeepsSender(n: Node, challenge: bv64)
    requires Good(n.e) && SenderOk(n.e, n.out) && n.e.r.read.ValidationRead? && n.e.owner == ClientSide
    ensures SenderOk(AnswerChallenge(n.e, challenge), n.out)
  {
    hide HandshakeBytes, ParseHandshake, HeaderBytes, ParseHeader, Scramble, ReaderOk;
  }

  lemma ReadDoneFields(n: Node, ok: bool)
    requires NodeCan(n, ReadDone(ok))
    ensures var e, e' := n.e, NodeAct(n, ReadDone(ok)).e;
            && NodeAct(n, ReadDone(ok)).out == n.out
            && if ok && e.r.read.ValidationRead? && e.owner == ClientSide
               then e' == AnswerChallenge(e, ParseHandshake(e.r.read.got))
               else e'.w == e.w && (e'.open ==> e.open) && e'.h.greet == e.h.greet && e'.h.out == e.h.out
  {
    hide HandshakeBytes, ParseHandshake, HeaderBytes, ParseHeader, Scramble;
  }

  /** A step that leaves the sending half as it is. */
  lemma SameSender(e: Endpoint, e': Endpoint, p: Pipe)
    requires SenderOk(e, p)
    requires e'.w == e.w && (e'.open ==> e.open) && e'.h.greet == e.h.greet && e'.h.out == e.h.out
    ensures SenderOk(e', p)
  {
    hide HandshakeBytes, Unwritten, Wire, EndOf;
  }

  lemma ReadDoneKeepsSender(n: Node, ok: bool)
    requires Good(n.e) && SenderOk(n.e, n.out) && NodeCan(n, ReadDone(ok))
    ensures var n' := NodeAct(n, ReadDone(ok)); SenderOk(n'.e, n'.out)
  {
    ReadDoneFields(n, ok);
    hide HandshakeBytes, ParseHandshake, HeaderBytes, ParseHeader, Scramble, Good, SenderOk, NodeAct, AnswerChallenge;
    if ok && n.e.r.read.ValidationRead? && n.e.owner == ClientSide {
      AnswerKeepsSender(n, ParseHandshake(n.e.r.read.got));
    } else {
      SameSender(n.e, NodeAct(n, ReadDone(ok)).e, n.out);
    }
  }

  lemma StepKeepsSender(n: Node, a: Action)
    requires Good(n.e) && SenderOk(n.e, n.out) && NodeCan(n, a)
    ensures var n' := NodeAct(n, a); SenderOk(n'.e, n'.out)
  {
    hide HandshakeBytes, ParseHandshake, HeaderBytes, ParseHeader, Scramble, ReaderOk;
    match a
    case Post(_) =>
    case RunPost => PostKeepsSender(n);
    case PushBytes(k) => PushKeepsSender(n, k);
    case PullBytes(_) =>
    case WriteDone(ok) => WriteDoneKeepsSender(n, ok);
    case GreetDone(ok) => GreetDoneKeepsSender(n, ok);
    case ReadDone(ok) => ReadDoneKeepsSender(n, ok);
    case Close =>
  }

  lemma FrameKeepsReceiver(r: Reader, ok: bool, bytes: seq<byte>)
    requires FramesRead(r, bytes) && (r.read.HeaderRead? || r.read.BodyRead?)
    requires r.read.BodyRead? ==> r.tmp.header.bodySize > 0
    requires ok ==> |r.read.got| == ReadSize(r)
    ensures FramesRead(FrameReceived(r, ok), bytes)
  {
    if ok {
      if r.read.HeaderRead? {
        HeaderBytesParse(r.read.got);
        FramesSnoc(r.delivered, Msg(ParseHeader(r.read.got), r.tmp.body));
      } else {
        FramesSnoc(r.delivered, Msg(r.tmp.header, r.read.got));
      }
    }
  }

  lemma PullKeepsReceiver(n: Node, bs: seq<byte>)
    requires Good(n.e) && ReceiverOk(n.e, n.inp) && NodeCan(n, PullBytes(bs))
    ensures var n' := NodeAct(n, PullBytes(bs)); ReceiverOk(n'.e, n'.inp)
  {
    hide HandshakeBytes, ParseHandshake, HeaderBytes, ParseHeader, Scramble, PumpOk;
    var p, p' := n.inp.received, n.inp.received + bs;
    if !n.e.r.read.ValidationRead? {
      assert p'[..8] == p[..8];
      assert p'[8..] == p[8..] + bs;
      Assoc(Wire(Frames(n.e.r.delivered)), Partial(n.e.r), bs);
      if n.e.r.read.BodyRead? {
        Assoc(HeaderBytes(n.e.r.tmp.header), n.e.r.read.got, bs);
      }
    }
  }

  lemma ValidationKeepsReceiver(n: Node, ok: bool)
    requires Good(n.e) && ReceiverOk(n.e, n.inp) && n.e.r.read.ValidationRead? && NodeCan(n, ReadDone(ok))
    ensures var n' := NodeAct(n, ReadDone(ok)); ReceiverOk(n'.e, n'.inp)
  {
    hide HandshakeBytes, ParseHandshake, HeaderBytes, ParseHeader, Scramble, PumpOk;
    if ok {
      var p := n.inp.received;
      assert p[..8] == p && p[8..] == [];
      assert Frames([]) == [];
    }
  }

  lemma StepKeepsReceiver(n: Node, a: Action)
    requires Good(n.e) && ReceiverOk(n.e, n.inp) && NodeCan(n, a)
    ensures var n' := NodeAct(n, a); ReceiverOk(n'.e, n'.inp)
  {
    hide HandshakeBytes, ParseHandshake, HeaderBytes, ParseHeader, Scramble, PumpOk;
    match a
    case Post(m) =>
    case RunPost =>
    case PushBytes(k) =>
    case PullBytes(bs) => PullKeepsReceiver(n, bs);
    case WriteDone(ok) =>
    case GreetDone(ok) =>
    case Close =>
    case ReadDone(ok) =>
      if n.e.r.read.ValidationRead? {
        ValidationKeepsReceiver(n, ok);
      } else if 8 <= |n.inp.received| {
        FrameKeepsReceiver(n.e.r, ok, n.inp.received[8..]);
      }
  }

  lemma NodeActPipes(n: Node, a: Action)
    requires NodeCan(n, a)
    ensures var n' := NodeAct(n, a);
            && n'.e == Act(n.e, a) && n'.out.received == n.out.received
            && Gone(n'.inp) == Gone(n.inp) && n'.inp.accepted == n.inp.accepted
  {
    hide Act, CanAct;
  }

  lemma NodeActKeepsOk(n: Node, a: Action)
    requires NodeOk(n) && NodeCan(n, a)
    ensures var n' := NodeAct(n, a);
            && NodeOk(n') && n'.e.owner == n.e.owner
            && n'.out.received == n.out.received
            && Gone(n'.inp) == Gone(n.inp) && n'.inp.accepted == n.inp.accepted
  {
    NodeActPipes(n, a);
    hide HandshakeBytes, ParseHandshake, HeaderBytes, ParseHeader, Scramble, Act, NodeAct, Good, SenderOk, ReceiverOk,
      Gone;
    ActKeepsGood(n.e, a);
    StepKeepsSender(n, a);
    StepKeepsReceiver(n, a);
    ActKeepsOwner(n.e, a);
  }

  /** The other end sees a step only as bytes that left or entered its pipes. */
  lemma PeerKeepsOk(n: Node, out: Pipe, inp: Pipe)
    requires NodeOk(n)
    requires Gone(out) == Gone(n.out) && out.accepted == n.out.accepted
    requires inp.received == n.inp.received
    ensures NodeOk(Node(n.e, out, inp))
  {
    hide HandshakeBytes, ParseHandshake, HeaderBytes, ParseHeader, Scramble, Good;
  }

  lemma NextKeepsOk(s: Sys, step: Step)
    requires SysOk(s) && Enabled(s, step)
    ensures SysOk(Next(s, step))
  {
    hide NodeOk, NodeCan, NodeAct, Gone;
    match step
    case AtServer(a) =>
      var n' := NodeAct(ServerNode(s), a);
      NodeActKeepsOk(ServerNode(s), a);
      PeerKeepsOk(ClientNode(s), n'.inp, n'.out);
    case AtClient(a) =>
      var n' := NodeAct(ClientNode(s), a);
      NodeActKeepsOk(ClientNode(s), a);
      PeerKeepsOk(ServerNode(s), n'.inp, n'.out);
  }

  lemma ActKeepsOwner(e: Endpoint, a: Action)
    requires CanAct(e, a)
    ensures Act(e, a).owner == e.owner
  {
    hide HandshakeBytes, ParseHandshake, HeaderBytes, ParseHeader, Scramble;
  }

  lemma InitOk(challenge: bv64)
    ensures SysOk(Init(challenge))
    ensures var s := Init(challenge);
            s.down.accepted == s.up.accepted == s.server.w.posted == s.client.w.posted == []
  {
    NewIsGood(NewServerEndpoint(challenge));
    NewIsGood(NewClientEndpoint());
  }

  lemma {:induction false} ExecKeepsOk(s: Sys, steps: seq<Step>)
    requires SysOk(s) && Executes(s, steps)
    ensures SysOk(Exec(s, steps))
    decreases |steps|
  {
    hide HandshakeBytes, ParseHandshake, HeaderBytes, ParseHeader, Scramble;
    if steps != [] {
      NextKeepsOk(s, steps[0]);
      ExecKeepsOk(Next(s, steps[0]), steps[1..]);
    }
  }

  // ---------------------------------------------------------------- the frame code

  /** The frames a reader cuts a byte stream into, and what is left of it. */
  function ReadFrames(bs: seq<byte>): (seq<Msg>, seq<byte>)
    decreases |bs|
  {
    if |bs| < HEADER_SIZE then ([], bs)
    else
      var h := ParseHeader(bs[..HEADER_SIZE]);
      if |bs| < HEADER_SIZE + h.bodySize then ([], bs)
      else
        var (ms, rest) := ReadFrames(bs[HEADER_SIZE + h.bodySize..]);
        ([Msg(h, bs[HEADER_SIZE..HEADER_SIZE + h.bodySize])] + ms, rest)
  }

  /** The first frame of a stream is decided by the first header alone. */
  lemma ReadFirst(h: Header, body: seq<byte>, rest: seq<byte>)
    requires h.bodySize == |body|
    ensures ReadFrames(HeaderBytes(h) + body + rest) ==
            ([Msg(h, body)] + ReadFrames(rest).0, ReadFrames(rest).1)
  {
    var bs := HeaderBytes(h) + body + rest;
    ParseHeaderBytes(h);
    assert bs[..HEADER_SIZE] == HeaderBytes(h);
    assert bs[HEADER_SIZE..HEADER_SIZE + h.bodySize] == body;
    assert bs[HEADER_SIZE + h.bodySize..] == rest;
  }

  predicate AllConsistent(ms: seq<Msg>) {
    forall i :: 0 <= i < |ms| ==> Consistent(ms[i])
  }

  lemma {:induction false} ReadWire(ms: seq<Msg>, rest: seq<byte>)
    requires AllConsistent(ms)
    ensures ReadFrames(Wire(ms) + rest) == (ms + ReadFrames(rest).0, ReadFrames(rest).1)
  {
    hide HeaderBytes, ParseHeader;
    if ms == [] {
      assert Wire(ms) + rest == rest;
      assert ms + ReadFrames(rest).0 == ReadFrames(rest).0;
    } else {
      ReadWire(ms[1..], rest);
      var m := ms[0];
      Assoc(WireOf(m), Wire(ms[1..]), rest);
      ReadFirst(m.header, m.body, Wire(ms[1..]) + rest);
      assert ms + ReadFrames(rest).0 == [m] + (ms[1..] + ReadFrames(rest).0);
    }
  }

  lemma {:induction false} ReadConsistent(bs: seq<byte>)
    ensures AllConsistent(ReadFrames(bs).0)
    decreases |bs|
  {
    if |bs| >= HEADER_SIZE {
      var h := ParseHeader(bs[..HEADER_SIZE]);
      if |bs| >= HEADER_SIZE + h.bodySize {
        ReadConsistent(bs[HEADER_SIZE + h.bodySize..]);
      }
    }
  }

  /** Reading undoes writing for exactly the messages whose headers announce their bodies. */
  lemma FramingExact(ms: seq<Msg>)
    ensures ReadFrames(Wire(ms)) == (ms, []) <==> AllConsistent(ms)
  {
    hide HeaderBytes, ParseHeader;
    ReadConsistent(Wire(ms));
    if AllConsistent(ms) {
      ReadWire(ms, []);
      assert Wire(ms) + [] == Wire(ms);
      assert ReadFrames([]) == ([], []);
      assert ms + [] == ms;
    }
  }

  /** A message that was received without a body and is sent on as it is, like a request to start the
      game: its frame is read back exactly when no earlier frame on the connection it came from had a
      body. Otherwise the bytes of that body are read as the frames that follow. */
  lemma StaleRelay(e0: Endpoint, actions: seq<Action>, i: nat, rest: seq<byte>)
    requires New(e0) && CanRun(e0, actions) && i < |Run(e0, actions).r.delivered|
    requires Run(e0, actions).r.delivered[i].header.bodySize == 0
    ensures var ms := Run(e0, actions).r.delivered;
            && (ReadFrames(Wire([ms[i]])) == ([ms[i]], [])
                <==> forall j :: 0 <= j < i ==> ms[j].header.bodySize == 0)
            && ReadFrames(WireOf(ms[i]) + rest)
               == ([Msg(ms[i].header, [])] + ReadFrames(LastBody(ms[..i]) + rest).0,
                   ReadFrames(LastBody(ms[..i]) + rest).1)
  {
    DeliveredBodies(e0, actions, i);
    hide New, CanRun, Run, HeaderBytes, ReadFrames, Wire, WireOf, LastBody;
    ReadBack(Run(e0, actions).r.delivered[i]);
    ReadAfterStale(Run(e0, actions).r.delivered[i], rest);
  }

  /** The case in which that happens: a client reports its snake and then asks for the game to start.
      The server relays the request with the report as its body, and the other clients read more than
      one frame, or an unfinished one, out of it. */
  lemma StaleRelayHappens(challenge: bv64, m: Msg, id: uint32)
    requires Consistent(m) && m.body != []
    ensures var e0, actions := NewServerEndpoint(challenge), StaleActions(challenge, m, id);
            && CanRun(e0, actions)
            && var relayed := Msg(Header(id, 0), m.body);
               && Run(e0, actions).r.delivered == [m, relayed]
               && ReadFrames(Wire([relayed])) != ([relayed], [])
               && ReadFrames(WireOf(relayed)) == ([Msg(Header(id, 0), [])] + ReadFrames(m.body).0, ReadFrames(m.body).1)
  {
    StaleDelivery(challenge, m, id);
    hide CanRun, Run, ReadFrames, StaleActions;
    var relayed := Msg(Header(id, 0), m.body);
    ReadBack(relayed);
    ReadAfterStale(relayed, []);
    assert WireOf(relayed) + [] == WireOf(relayed) && m.body + [] == m.body;
  }

  lemma ReadBack(m: Msg)
    ensures ReadFrames(Wire([m])) == ([m], []) <==> Consistent(m)
  {
    FramingExact([m]);
    hide ReadFrames, Wire, Consistent;
    assert AllConsistent([m]) <==> Consistent([m][0]);
  }

  lemma ReadAfterStale(m: Msg, rest: seq<byte>)
    requires m.header.bodySize == 0
    ensures ReadFrames(WireOf(m) + rest) == ([Msg(m.header, [])] + ReadFrames(m.body + rest).0,
      ReadFrames(m.body + rest).1)
  {
    ReadFirst(m.header, [], m.body + rest);
    hide ReadFrames, HeaderBytes;
    assert WireOf(m) + rest == HeaderBytes(m.header) + [] + (m.body + rest);
  }

  /** The frame code is a prefix code. */
  lemma {:induction false} PrefixCode(a: seq<Msg>, b: seq<Msg>)
    requires AllConsistent(a) && AllConsistent(b) && Wire(a) <= Wire(b)
    ensures a <= b
  {
    hide HeaderBytes, ParseHeader;
    var rest := Wire(b)[|Wire(a)|..];
    assert Wire(b) == Wire(a) + rest;
    ReadWire(a, rest);
    ReadWire(b, []);
    assert Wire(b) + [] == Wire(b);
    assert ReadFrames([]) == ([], []);
    assert b == a + ReadFrames(rest).0;
  }

  // ---------------------------------------------------------------- stream refinement

  /** The messages an application has handed to `Send` during a run. */
  function PostsBy(server: bool, steps: seq<Step>): seq<Msg> {
    if steps == [] then []
    else
      (if steps[0].AtServer? == server && steps[0].a.Post? then [steps[0].a.m] else []) + PostsBy(server, steps[1..])
  }

  lemma NodePosts(n: Node, a: Action)
    requires NodeCan(n, a)
    ensures var n' := NodeAct(n, a);
            && n'.out.accepted + n'.e.w.posted
               == n.out.accepted + n.e.w.posted + (if a.Post? then [a.m] else [])
            && n'.inp.accepted == n.inp.accepted
  {
    hide HandshakeBytes, ParseHandshake, HeaderBytes, ParseHeader, Scramble;
  }

  lemma NextPosts(s: Sys, step: Step)
    requires Enabled(s, step)
    ensures var s' := Next(s, step);
            && s'.down.accepted + s'.server.w.posted
               == s.down.accepted + s.server.w.posted + PostsBy(true, [step])
            && s'.up.accepted + s'.client.w.posted
               == s.up.accepted + s.client.w.posted + PostsBy(false, [step])
  {
    hide NodeCan, NodeAct;
    var own := if step.a.Post? then [step.a.m] else [];
    assert [step][1..] == [];
    assert PostsBy(true, [step]) == (if step.AtServer? then own else []) + [];
    assert PostsBy(false, [step]) == (if step.AtServer? then [] else own) + [];
    match step
    case AtServer(a) => NodePosts(ServerNode(s), a);
    case AtClient(a) => NodePosts(ClientNode(s), a);
  }

  /** Steps of the network and the handlers alone. */
  predicate NoPosts(steps: seq<Step>) {
    forall i :: 0 <= i < |steps| ==> !steps[i].a.Post?
  }

  lemma {:induction false} NothingPosted(server: bool, steps: seq<Step>)
    requires NoPosts(steps)
    ensures PostsBy(server, steps) == []
  {
    if steps != [] {
      NothingPosted(server, steps[1..]);
    }
  }

  lemma {:induction false} ExecConcat(s: Sys, a: seq<Step>, b: seq<Step>)
    requires Executes(s, a) && Executes(Exec(s, a), b)
    ensures Executes(s, a + b) && Exec(s, a + b) == Exec(Exec(s, a), b)
    decreases |a|
  {
    hide Enabled, Next;
    if a == [] {
      assert a + b == b;
    } else {
      ExecConcat(Next(s, a[0]), a[1..], b);
      assert (a + b)[1..] == a[1..] + b;
    }
  }

  /** Sends are accepted in the order they were made. */
  lemma {:induction false} AcceptedInOrder(s: Sys, steps: seq<Step>)
    requires Executes(s, steps)
    ensures var s' := Exec(s, steps);
            && s'.down.accepted + s'.server.w.posted
               == s.down.accepted + s.server.w.posted + PostsBy(true, steps)
            && s'.up.accepted + s'.client.w.posted
               == s.up.accepted + s.client.w.posted + PostsBy(false, steps)
    decreases |steps|
  {
    hide Enabled, Next;
    if steps != [] {
      NextPosts(s, steps[0]);
      AcceptedInOrder(Next(s, steps[0]), steps[1..]);
      assert PostsBy(true, [steps[0]])  + PostsBy(true, steps[1..]) == PostsBy(true, steps);
      assert PostsBy(false, [steps[0]])  + PostsBy(false, steps[1..]) == PostsBy(false, steps);
    }
  }

  lemma {:induction false} RedeliveredOfFrames(ms: seq<Msg>)
    ensures Redelivered(Frames(ms)) == Redelivered(ms)
    ensures LastBody(Frames(ms)) == LastBody(ms)
  {
    if ms != [] {
      RedeliveredOfFrames(ms[..|ms| - 1]);
      assert Frames(ms)[..|ms| - 1] == Frames(ms[..|ms| - 1]);
    }
  }

  lemma {:induction false} RedeliveredPrefix(ms: seq<Msg>, n: nat)
    requires n <= |ms|
    ensures Redelivered(ms)[..n] == Redelivered(ms[..n])
  {
    if n == |ms| {
      assert ms[..n] == ms && Redelivered(ms)[..n] == Redelivered(ms);
    } else {
      var front := ms[..|ms| - 1];
      RedeliveredPrefix(front, n);
      assert front[..n] == ms[..n];
      assert Redelivered(ms)[..n] == Redelivered(front)[..n];
    }
  }

  /** What a reader makes of the bytes of `sent`, once it has all of them. */
  function Arrived(sent: seq<Msg>): seq<Msg> {
    Redelivered(ReadFrames(Wire(sent)).0)
  }

  lemma ArrivedConsistent(sent: seq<Msg>)
    requires AllConsistent(sent)
    ensures Arrived(sent) == Redelivered(sent)
  {
    FramingExact(sent);
    hide ReadFrames, Wire, AllConsistent;
  }

  /** More bytes are more frames. */
  lemma {:induction false} ReadMore(bs: seq<byte>, more: seq<byte>)
    ensures ReadFrames(bs).0 <= ReadFrames(bs + more).0
    decreases |bs|
  {
    hide ParseHeader;
    if |bs| >= HEADER_SIZE {
      assert (bs + more)[..HEADER_SIZE] == bs[..HEADER_SIZE];
      var h := ParseHeader(bs[..HEADER_SIZE]);
      var n := HEADER_SIZE + h.bodySize;
      if |bs| >= n {
        ReadMore(bs[n..], more);
        assert (bs + more)[n..] == bs[n..] + more;
        assert (bs + more)[HEADER_SIZE..n] == bs[HEADER_SIZE..n];
      }
    }
  }

  /** More messages leave what has arrived as it is. */
  lemma ArrivedMore(sent: seq<Msg>, more: seq<Msg>)
    ensures Arrived(sent) <= Arrived(sent + more)
  {
    WireConcat(sent, more);
    ReadMore(Wire(sent), Wire(more));
    var frames, all := ReadFrames(Wire(sent)).0, ReadFrames(Wire(sent + more)).0;
    hide ReadFrames, Wire, Redelivered;
    RedeliveredPrefix(all, |frames|);
    assert all[..|frames|] == frames;
  }

  lemma FramesConsistent(ms: seq<Msg>)
    requires FramesOk(ms)
    ensures AllConsistent(Frames(ms))
  {
  }

  /** What one pipe's two ends agree on. */
  lemma PipeRefines(sender: Endpoint, receiver: Endpoint, p: Pipe)
    requires SenderOk(sender, p) && ReceiverOk(receiver, p) && ReaderOk(receiver.r)
    ensures receiver.r.delivered <= Arrived(p.accepted)
  {
    hide HeaderBytes, ParseHeader, Scramble, ParseHandshake, Redelivered;
    var frames := Frames(receiver.r.delivered);
    RedeliveredOfFrames(receiver.r.delivered);
    if frames != [] {
      assert p.received <= Gone(p);
      assert Wire(frames) <= p.received[8..] <= Wire(p.accepted);
      FramesConsistent(receiver.r.delivered);
      ReadPart(frames, p.accepted);
    }
  }

  /** Whole frames at the front of the bytes of `sent` are the first ones that arrive. */
  lemma ReadPart(frames: seq<Msg>, sent: seq<Msg>)
    requires AllConsistent(frames) && Wire(frames) <= Wire(sent)
    ensures Redelivered(frames) <= Arrived(sent)
  {
    var rest, all := Wire(sent)[|Wire(frames)|..], ReadFrames(Wire(sent)).0;
    assert Wire(sent) == Wire(frames) + rest;
    ReadWire(frames, rest);
    hide ReadFrames, Wire, Redelivered, AllConsistent;
    RedeliveredPrefix(all, |frames|);
    assert all[..|frames|] == frames;
  }

  /** The connection end that receives what the server, or the client, sends. */
  function Receiver(s: Sys, server: bool): Endpoint {
    if server then s.client else s.server
  }

  lemma DirectionRefines(s: Sys, server: bool)
    requires SysOk(s)
    ensures var p := if server then s.down else s.up; Receiver(s, server).r.delivered <= Arrived(p.accepted)
  {
    hide SenderOk, ReceiverOk, PumpOk, ReaderOk, HandshakeOk, Arrived;
    if server {
      PipeRefines(s.server, s.client, s.down);
    } else {
      PipeRefines(s.client, s.server, s.up);
    }
  }

  lemma RedeliveredIntact(ms: seq<Msg>)
    ensures forall i :: 0 <= i < |ms| ==>
              && Redelivered(ms)[i].header == ms[i].header
              && (ms[i].header.bodySize > 0 ==> Redelivered(ms)[i] == ms[i])
  {
    forall i | 0 <= i < |ms|
      ensures Redelivered(ms)[i].header == ms[i].header
      ensures ms[i].header.bodySize > 0 ==> Redelivered(ms)[i] == ms[i]
    {
      RedeliveredAt(ms, i);
    }
  }

  /** The two byte streams refine two message queues. After any run, whatever was cut, delayed,
      failed or closed, and in each direction, the messages delivered are the first ones that the
      bytes of the posted messages say. When every header announces its body these are the first ones
      posted, in order; headers are intact, and so is every body that is not empty; an empty body is
      replaced by what the reader's buffer held, which `Redelivered` says. */
  lemma StreamRefinesQueue(challenge: bv64, steps: seq<Step>, server: bool)
    requires Executes(Init(challenge), steps)
    ensures var got := Receiver(Exec(Init(challenge), steps), server).r.delivered;
            var sent := PostsBy(server, steps);
            && got <= Arrived(sent)
            && (AllConsistent(sent) ==>
                  && |got| <= |sent|
                  && got == Redelivered(sent[..|got|])
                  && forall i :: 0 <= i < |got| ==>
                       got[i].header == sent[i].header && (sent[i].header.bodySize > 0 ==> got[i] == sent[i]))
  {
    hide *;
    var s0 := Init(challenge);
    var s := Exec(s0, steps);
    InitOk(challenge);
    ExecKeepsOk(s0, steps);
    AcceptedInOrder(s0, steps);
    DirectionRefines(s, server);
    var p := if server then s.down else s.up;
    var sent, got := PostsBy(server, steps), Receiver(s, server).r.delivered;
    var posted := (if server then s.server else s.client).w.posted;
    assert [] + [] + sent == sent;
    assert p.accepted + posted == sent;
    ArrivedMore(p.accepted, posted);
    if AllConsistent(sent) {
      ArrivedConsistent(sent);
      RedeliveredPrefix(sent, |got|);
      RedeliveredIntact(sent[..|got|]);
    }
  }

  /** No message is lost: once everything posted has been accepted, written and received, and no
      handler is pending, the receiver has delivered all that arrived. */
  lemma NothingLost(s: Sys, server: bool)
    requires SysOk(s)
    requires var sender, p := if server then s.server else s.client, if server then s.down else s.up;
             sender.open && sender.w.outQ == [] && sender.h.greet.Greeted? && p.inFlight == []
    requires var r := Receiver(s, server).r; (r.read.HeaderRead? || r.read.BodyRead?) && |r.read.got| < ReadSize(r)
    ensures var p := if server then s.down else s.up;
            && Receiver(s, server).r.delivered == Arrived(p.accepted)
            && (AllConsistent(p.accepted) ==> Receiver(s, server).r.delivered == Redelivered(p.accepted))
  {
    var p := if server then s.down else s.up;
    var receiver := Receiver(s, server);
    var sender := if server then s.server else s.client;
    hide HandshakeOk, HeaderBytes, ParseHeader, Conserved, FramesRead, Preamble, Unsent, Arrived, AllConsistent;
    hide SenderOk, ReceiverOk, ReaderOk, Redelivered;
    AllRead(sender, receiver, p);
    if AllConsistent(p.accepted) {
      ArrivedConsistent(p.accepted);
    }
  }

  /** Bytes that are not a whole frame yet. */
  lemma ShortFrame(r: Reader)
    requires r.read.HeaderRead? || (r.read.BodyRead? && Consistent(r.tmp))
    requires |r.read.got| < ReadSize(r)
    ensures ReadFrames(Partial(r)) == ([], Partial(r))
  {
    if r.read.BodyRead? {
      ParseHeaderBytes(r.tmp.header);
      assert Partial(r)[..HEADER_SIZE] == HeaderBytes(r.tmp.header);
    }
    hide HeaderBytes;
  }

  lemma AllRead(sender: Endpoint, receiver: Endpoint, p: Pipe)
    requires SenderOk(sender, p) && ReceiverOk(receiver, p) && ReaderOk(receiver.r)
    requires sender.open && sender.w.outQ == [] && sender.w.write.NoWrite?
    requires sender.h.greet.Greeted? && p.inFlight == []
    requires receiver.r.read.HeaderRead? || receiver.r.read.BodyRead?
    requires |receiver.r.read.got| < ReadSize(receiver.r)
    ensures receiver.r.delivered == Arrived(p.accepted)
  {
    hide HeaderBytes, ParseHeader, Scramble, ParseHandshake, ReadFrames, Redelivered, LastBody;
    var frames, got := Frames(receiver.r.delivered), Partial(receiver.r);
    assert p.received == Gone(p) + Unsent(sender);
    assert Wire(frames) + got == Wire(p.accepted);
    ShortFrame(receiver.r);
    FramesConsistent(receiver.r.delivered);
    ReadWire(frames, got);
    RedeliveredOfFrames(receiver.r.delivered);
    assert frames + [] == frames;
  }
}
