/** The handshake between this program's own two ends: the server never rejects the answer, and
    from every state in which nothing has failed the client gets validated. */
module HonestHandshake {
  import opened Common
  import opened Message
  import opened Connection
  import opened EndpointRuns
  import opened Transport
  import opened Scrambling

  // ---------------------------------------------------------------- the answer is right

  /** What the first eight bytes of a pipe say, once its sender has started to greet. */
  lemma FirstBytes(sender: Endpoint, p: Pipe)
    requires SenderOk(sender, p) && 8 <= |p.received|
    ensures !sender.h.greet.NotGreeted?
    ensures ParseHandshake(p.received[..8]) == sender.h.out
  {
    hide HandshakeBytes, ParseHandshake, Unsent;
    assert p.received <= Gone(p);
    assert !sender.h.greet.NotGreeted? by {
      assert Wire([]) == [];
    }
    assert p.received[..8] == HandshakeBytes(sender.h.out);
    ParseHandshakeBytes(sender.h.out);
  }

  /** Whatever the server has read in full as an answer is the scrambled challenge. */
  lemma AnswerIsRight(s: Sys)
    requires SysOk(s) && s.server.r.read.ValidationRead? && |s.server.r.read.got| == 8
    ensures ParseHandshake(s.server.r.read.got) == s.server.h.check
  {
    hide HandshakeBytes, ParseHandshake, Scramble, PumpOk, ReaderOk, Wire, Frames, Unsent, Preamble;
    var up := s.up.received;
    assert up == s.server.r.read.got && up[..8] == up;
    FirstBytes(s.client, s.up);
    assert ReceiverOk(s.client, s.down) && !s.client.r.read.ValidationRead?;
    FirstBytes(s.server, s.down);
  }

  /** The server's check never fails for an honest client, in any run. */
  lemma NeverRejected(challenge: bv64, steps: seq<Step>)
    requires Executes(Init(challenge), steps)
    requires var r := Exec(Init(challenge), steps).server.r; r.read.ValidationRead? && |r.read.got| == 8
    ensures var s := Exec(Init(challenge), steps);
            && Enabled(s, AtServer(ReadDone(true)))
            && Next(s, AtServer(ReadDone(true))).server.h.validations == 1
            && Next(s, AtServer(ReadDone(true))).server.open == s.server.open
  {
    hide *;
    InitOk(challenge);
    ExecKeepsOk(Init(challenge), steps);
    AnswerAccepted(Exec(Init(challenge), steps));
  }

  lemma AnswerAccepted(s: Sys)
    requires SysOk(s) && s.server.r.read.ValidationRead? && |s.server.r.read.got| == 8
    ensures Enabled(s, AtServer(ReadDone(true)))
    ensures var s' := Next(s, AtServer(ReadDone(true)));
            s'.server.h.validations == 1 && s'.server.open == s.server.open
  {
    hide Scramble, HandshakeBytes, ParseHandshake, NodeOk;
    AnswerIsRight(s);
    ServerUnvalidated(s);
  }

  lemma ServerUnvalidated(s: Sys)
    requires SysOk(s)
    ensures s.server.r.read.ValidationRead? ==> s.server.h.validations == 0
  {
    hide Scramble, SenderOk, ReceiverOk, PumpOk, ReaderOk;
  }

  // ---------------------------------------------------------------- the handshake ends

  predicate Healthy(s: Sys) {
    s.server.open && s.client.open && !s.server.r.read.Stopped? && !s.client.r.read.Stopped?
  }

  function Remaining(g: Greet): nat {
    if g.Greeting? then |g.rest| else 0
  }

  function ToRead(r: Reader): nat {
    if r.read.ValidationRead? && |r.read.got| <= 8 then 9 - |r.read.got| else 0
  }

  function LeftAt(e: Endpoint): nat {
    Remaining(e.h.greet) + ToRead(e.r) + if e.owner == ClientSide && e.r.read.ValidationRead? then 8 else 0
  }

  /** What is left of the handshake: bytes to write, bytes to read and handlers to run. */
  function Left(s: Sys): nat {
    LeftAt(s.server) + LeftAt(s.client)
  }

  /** The step that takes the handshake further. */
  function Forward(s: Sys): Step
    requires s.server.r.read.ValidationRead?
  {
    if Remaining(s.server.h.greet) > 0 then AtServer(PushBytes(Remaining(s.server.h.greet)))
    else if s.client.r.read.ValidationRead? then AtClient(PullOrFinish(s.client.r, s.down))
    else if Remaining(s.client.h.greet) > 0 then AtClient(PushBytes(Remaining(s.client.h.greet)))
    else AtServer(PullOrFinish(s.server.r, s.up))
  }

  function PullOrFinish(r: Reader, p: Pipe): Action
    requires r.read.ValidationRead?
  {
    if |r.read.got| >= 8 || |p.inFlight| < 8 - |r.read.got| then ReadDone(true)
    else PullBytes(p.inFlight[..8 - |r.read.got|])
  }

  lemma ForwardPostsNothing(s: Sys)
    requires s.server.r.read.ValidationRead?
    ensures !Forward(s).a.Post?
  {
  }

  lemma UnwrittenBound(w: Writer, accepted: seq<Msg>)
    requires PumpOk(true, w) && EndOf(w.outQ, accepted)
    ensures |Unwritten(w)| <= |Wire(accepted)|
  {
    hide HeaderBytes;
    var done := accepted[..|accepted| - |w.outQ|];
    assert accepted == done + w.outQ;
    WireConcat(done, w.outQ);
  }

  /** Once a sender has written its whole greeting, all eight bytes are received or on their way,
      even when frames wait behind them. */
  lemma GreetingArrives(sender: Endpoint, p: Pipe)
    requires SenderOk(sender, p) && PumpOk(sender.open, sender.w) && sender.open
    requires !sender.h.greet.NotGreeted? && Remaining(sender.h.greet) == 0
    ensures 8 <= |Gone(p)|
  {
    hide HandshakeBytes, Unwritten, Wire, PumpOk;
    UnwrittenBound(sender.w, p.accepted);
    assert |Gone(p) + Unsent(sender)| == |Preamble(sender.h) + Wire(p.accepted)|;
  }

  lemma PullEnabled(receiver: Endpoint, p: Pipe)
    requires ReceiverOk(receiver, p) && ReaderOk(receiver.r) && receiver.open
    requires receiver.r.read.ValidationRead? && 8 <= |Gone(p)|
    ensures var a := PullOrFinish(receiver.r, p);
            && CanAct(receiver, a)
            && (a.PullBytes? ==> a.bs <= p.inFlight && |a.bs| == 8 - |receiver.r.read.got|)
            && (a.ReadDone? ==> a == ReadDone(true) && |receiver.r.read.got| == 8)
  {
  }

  lemma StateFacts(s: Sys)
    requires SysOk(s) && Healthy(s) && s.server.r.read.ValidationRead?
    ensures !s.server.h.greet.NotGreeted?
    ensures !s.client.r.read.ValidationRead? ==> !s.client.h.greet.NotGreeted?
    ensures s.client.r.read.ValidationRead? ==> s.client.h.greet.NotGreeted?
    ensures PumpOk(s.server.open, s.server.w) && PumpOk(s.client.open, s.client.w)
    ensures ReaderOk(s.server.r) && ReaderOk(s.client.r)
    ensures SenderOk(s.server, s.down) && SenderOk(s.client, s.up)
    ensures ReceiverOk(s.server, s.up) && ReceiverOk(s.client, s.down)
  {
    hide Scramble, SenderOk, PumpOk;
  }

  predicate ForwardOk(s: Sys, step: Step) {
    && Enabled(s, step)
    && var s' := Next(s, step);
       && Left(s') < Left(s)
       && Healthy(s')
       && (s'.server.r.read.ValidationRead? || s'.server.h.validations == 1)
  }

  lemma PushForward(s: Sys)
    requires Healthy(s) && s.server.r.read.ValidationRead?
    ensures Remaining(s.server.h.greet) > 0 ==>
              ForwardOk(s, AtServer(PushBytes(Remaining(s.server.h.greet))))
    ensures Remaining(s.client.h.greet) > 0 ==>
              ForwardOk(s, AtClient(PushBytes(Remaining(s.client.h.greet))))
  {
  }

  lemma ClientReadsForward(s: Sys)
    requires Healthy(s) && s.server.r.read.ValidationRead? && s.client.r.read.ValidationRead?
    requires s.client.h.greet.NotGreeted? && s.client.owner == ClientSide && |s.client.r.read.got| <= 8
    requires NodeCan(ClientNode(s), PullOrFinish(s.client.r, s.down))
    ensures ForwardOk(s, AtClient(PullOrFinish(s.client.r, s.down)))
  {
    hide Scramble, HandshakeBytes, ParseHandshake;
  }

  lemma ServerReadsForward(s: Sys)
    requires Healthy(s) && s.server.r.read.ValidationRead? && |s.server.r.read.got| <= 8
    requires s.server.owner == ServerSide && s.server.h.validations == 0
    requires |s.server.r.read.got| == 8 ==> ParseHandshake(s.server.r.read.got) == s.server.h.check
    requires NodeCan(ServerNode(s), PullOrFinish(s.server.r, s.up))
    ensures ForwardOk(s, AtServer(PullOrFinish(s.server.r, s.up)))
  {
    hide Scramble, HandshakeBytes, ParseHandshake;
  }

  /** A state in which nothing has failed always has a next step of the handshake, and that step
      leaves less to do. */
  lemma ForwardStep(s: Sys)
    requires SysOk(s) && Healthy(s) && s.server.r.read.ValidationRead?
    ensures ForwardOk(s, Forward(s))
  {
    hide Scramble, HandshakeBytes, ParseHandshake, NodeOk, SenderOk, ReceiverOk, PumpOk, ForwardOk;
    StateFacts(s);
    PushForward(s);
    if Remaining(s.server.h.greet) > 0 {
    } else if s.client.r.read.ValidationRead? {
      GreetingArrives(s.server, s.down);
      PullEnabled(s.client, s.down);
      ClientReadsForward(s);
    } else if Remaining(s.client.h.greet) > 0 {
    } else {
      GreetingArrives(s.client, s.up);
      PullEnabled(s.server, s.up);
      ServerUnvalidated(s);
      if |s.server.r.read.got| == 8 {
        AnswerIsRight(s);
      }
      ServerReadsForward(s);
    }
  }

  /** From every reachable state in which nothing has failed, the handshake can be finished. */
  lemma {:induction false} HandshakeCompletes(s: Sys) returns (more: seq<Step>)
    requires SysOk(s) && Healthy(s) && s.server.r.read.ValidationRead?
    ensures Executes(s, more) && Exec(s, more).server.h.validations == 1 && Healthy(Exec(s, more))
    ensures NoPosts(more)
    decreases Left(s)
  {
    hide SysOk, Enabled, Next, Left, Forward;
    var step := Forward(s);
    ForwardStep(s);
    assert !step.a.Post? by { ForwardPostsNothing(s); }
    NextKeepsOk(s, step);
    var s' := Next(s, step);
    if s'.server.h.validations == 1 {
      more := [step];
      assert Executes(s', []) && Exec(s', []) == s';
    } else {
      var rest := HandshakeCompletes(s');
      more := [step] + rest;
      assert more[1..] == rest;
    }
  }

  lemma ActNeverSetsBack(e: Endpoint, a: Action)
    requires Good(e) && CanAct(e, a)
    ensures LeftAt(Act(e, a)) <= LeftAt(e)
  {
    hide Scramble, HandshakeBytes, ParseHandshake, PumpOk, RunPosted, FrameWritten, Transferred, ParseHeader, Resized;
    ActKeepsOwner(e, a);
  }

  /** No step of either end, whatever it is, adds to what is left. */
  lemma NeverSetBack(s: Sys, step: Step)
    requires SysOk(s) && Enabled(s, step)
    ensures Left(Next(s, step)) <= Left(s)
  {
    hide LeftAt, Act, CanAct, Good, SenderOk, ReceiverOk;
    if step.AtServer? {
      ActNeverSetsBack(s.server, step.a);
    } else {
      ActNeverSetsBack(s.client, step.a);
    }
  }

  /** In every run against an honest client, as long as nothing has failed, the handshake is over
      or can be finished, and then the client has been validated. */
  lemma HonestClientIsValidated(challenge: bv64, steps: seq<Step>) returns (more: seq<Step>)
    requires Executes(Init(challenge), steps) && Healthy(Exec(Init(challenge), steps))
    ensures var s := Exec(Init(challenge), steps);
            Executes(s, more) && Exec(s, more).server.h.validations == 1 && Healthy(Exec(s, more)) && NoPosts(more)
  {
    hide Init, SysOk;
    InitOk(challenge);
    ExecKeepsOk(Init(challenge), steps);
    var s := Exec(Init(challenge), steps);
    if s.server.r.read.ValidationRead? {
      more := HandshakeCompletes(s);
    } else {
      more := [];
      ServerValidated(s);
    }
  }

  lemma ServerValidated(s: Sys)
    requires SysOk(s) && !s.server.r.read.Stopped? && !s.server.r.read.ValidationRead?
    ensures s.server.h.validations == 1
  {
    hide Scramble, SenderOk, ReceiverOk, PumpOk, ReaderOk;
    assert ServerHandshakeOk(s.server.r, s.server.h);
    match s.server.r.read
    case ValidationRead(_) =>
    case Paused =>
    case HeaderRead(_) =>
    case BodyRead(_) =>
    case Stopped =>
  }

  /** The steps of a run that take the handshake further. */
  function Advancing(s: Sys, steps: seq<Step>): nat
    requires Executes(s, steps)
    decreases |steps|
  {
    if steps == [] then 0
    else (if Left(Next(s, steps[0])) < Left(s) then 1 else 0) + Advancing(Next(s, steps[0]), steps[1..])
  }

  lemma {:induction false} AdvancingBound(s: Sys, steps: seq<Step>)
    requires SysOk(s) && Executes(s, steps)
    ensures SysOk(Exec(s, steps)) && Left(Exec(s, steps)) + Advancing(s, steps) <= Left(s)
    decreases |steps|
  {
    hide SysOk, Left, Enabled, Next;
    if steps != [] {
      NextKeepsOk(s, steps[0]);
      NeverSetBack(s, steps[0]);
      AdvancingBound(Next(s, steps[0]), steps[1..]);
    }
  }

  lemma StillToRead(s: Sys)
    requires SysOk(s) && s.server.r.read.ValidationRead?
    ensures Left(s) > 0
  {
    hide Scramble, SenderOk, ReceiverOk, PumpOk;
  }

  /** Validation is a matter of finitely many steps: a run against an honest client in which nothing has
      failed has validated it once it has taken as many steps that take the handshake further as there
      were to take at the start. As long as it has not, `ForwardStep` is such a step. */
  lemma ValidatedInTime(challenge: bv64, steps: seq<Step>)
    requires Executes(Init(challenge), steps) && Healthy(Exec(Init(challenge), steps))
    ensures Advancing(Init(challenge), steps) <= Left(Init(challenge))
    ensures Advancing(Init(challenge), steps) == Left(Init(challenge)) ==>
              Exec(Init(challenge), steps).server.h.validations == 1
  {
    hide Init, SysOk, Left;
    InitOk(challenge);
    AdvancingBound(Init(challenge), steps);
    var s := Exec(Init(challenge), steps);
    if s.server.r.read.ValidationRead? {
      StillToRead(s);
    } else {
      ServerValidated(s);
    }
  }
}
