/** Once both ends read frames, everything that was sent can be delivered: from every state in which
    nothing has failed there is a run that writes, carries and reads all of it. */
module Delivery {
  import opened Common
  import opened Message
  import opened Connection
  import opened EndpointRuns
  import opened Transport
  import opened HonestHandshake

  /** Nothing has failed, both ends have written their validation parameter and read frames. */
  predicate ReadsFrames(e: Endpoint) {
    e.open && e.h.greet.Greeted? && (e.r.read.HeaderRead? || e.r.read.BodyRead?)
  }

  predicate Running(s: Sys) {
    ReadsFrames(s.server) && ReadsFrames(s.client)
  }

  // ---------------------------------------------------------------- one direction

  /** What is left to do to carry the messages of `w` through `p` to `r`: every step below lowers it. */
  function ToCarry(w: Writer, p: Pipe, r: Reader): int {
    ToWrite(w) + 2 * |p.inFlight|
    + if r.read.HeaderRead? || r.read.BodyRead? then |r.read.got| else 0
  }

  function ToWrite(w: Writer): int {
    3 * (|Unwritten(w)| + |Wire(w.posted)| + |w.posted|) + Work(w)
  }

  /** The receiver's next step, if there is one. */
  function ReaderStep(r: Reader, p: Pipe): Option<Action>
    requires r.read.HeaderRead? || r.read.BodyRead?
  {
    if |r.read.got| >= ReadSize(r) then Some(ReadDone(true))
    else if p.inFlight != [] then
      var n := ReadSize(r) - |r.read.got|;
      Some(PullBytes(if |p.inFlight| <= n then p.inFlight else p.inFlight[..n]))
    else None
  }

  /** The sender's next step, if there is one. */
  function WriterStep(w: Writer): Option<Action> {
    if !w.write.NoWrite? then Some(if w.write.rest != [] then PushBytes(|w.write.rest|) else WriteDone(true))
    else if w.posted != [] then Some(RunPost)
    else None
  }

  lemma WorkIsNat(e: Endpoint)
    requires Good(e)
    ensures Work(e.w) >= 0
  {
    WorkOfStep(e, Close);
  }

  lemma ReaderForward(n: Node)
    requires NodeOk(n) && ReadsFrames(n.e) && ReaderStep(n.e.r, n.inp).Some?
    ensures var a := ReaderStep(n.e.r, n.inp).value;
            && NodeCan(n, a) && !a.Post?
            && var n' := NodeAct(n, a);
               && ReadsFrames(n'.e) && n'.e.w == n.e.w && n'.out == n.out && n'.inp.accepted == n.inp.accepted
               && 2 * |n'.inp.inFlight| + |n'.e.r.read.got| < 2 * |n.inp.inFlight| + |n.e.r.read.got|
  {
    hide SenderOk, ReceiverOk, PumpOk, HandshakeOk, ParseHeader, HeaderBytes, Redelivered, LastBody;
  }

  lemma WriterForward(n: Node)
    requires NodeOk(n) && ReadsFrames(n.e) && WriterStep(n.e.w).Some?
    ensures var a := WriterStep(n.e.w).value;
            && NodeCan(n, a) && !a.Post?
            && var n' := NodeAct(n, a);
               && ReadsFrames(n'.e) && n'.e.r == n.e.r && n'.inp == n.inp
               && n'.out.accepted + n'.e.w.posted == n.out.accepted + n.e.w.posted
               && ToWrite(n'.e.w) + 2 * |n'.out.inFlight| < ToWrite(n.e.w) + 2 * |n.out.inFlight|
  {
    hide SenderOk, ReceiverOk, ReaderOk, HandshakeOk, ParseHeader, HeaderBytes;
    var w := n.e.w;
    if !w.write.NoWrite? {
      if w.write.rest != [] {
        UnwrittenOfTransfer(w, |w.write.rest|);
        WorkOfStep(n.e, PushBytes(|w.write.rest|));
      } else {
        UnwrittenOfCompletion(w);
        WorkOfStep(n.e, WriteDone(true));
      }
    } else {
      UnwrittenOfPost(w);
      WorkOfStep(n.e, RunPost);
    }
  }

  // ---------------------------------------------------------------- the whole system

  function SenderNode(s: Sys, server: bool): Node {
    if server then ServerNode(s) else ClientNode(s)
  }

  function ReceiverNode(s: Sys, server: bool): Node {
    if server then ClientNode(s) else ServerNode(s)
  }

  function At(server: bool, a: Action): Step {
    if server then AtServer(a) else AtClient(a)
  }

  function ToDo(s: Sys, server: bool): int {
    ToCarry(SenderNode(s, server).e.w, SenderNode(s, server).out, ReceiverNode(s, server).e.r)
  }

  lemma ToDoIsNat(s: Sys, server: bool)
    requires SysOk(s)
    ensures ToDo(s, server) >= 0
  {
    WorkIsNat(s.server);
    WorkIsNat(s.client);
    hide Good, SenderOk, ReceiverOk, Work, Unwritten, Wire;
  }

  /** The sender's messages, accepted or not, with their order. */
  function Sent(s: Sys, server: bool): seq<Msg> {
    var n := SenderNode(s, server);
    n.out.accepted + n.e.w.posted
  }

  predicate StepForward(s: Sys, server: bool, step: Step) {
    && Enabled(s, step) && !step.a.Post?
    && var s' := Next(s, step);
       && Running(s') && ToDo(s', server) < ToDo(s, server)
       && SenderNode(s', server).e.r == SenderNode(s, server).e.r
  }

  lemma SenderMoves(s: Sys, server: bool, a: Action)
    requires NodeCan(SenderNode(s, server), a)
    ensures Enabled(s, At(server, a))
    ensures var s', n' := Next(s, At(server, a)), NodeAct(SenderNode(s, server), a);
            && SenderNode(s', server) == n'
            && ReceiverNode(s', server) == Node(ReceiverNode(s, server).e, n'.inp, n'.out)
  {
    hide NodeCan, NodeAct;
  }

  lemma ReceiverMoves(s: Sys, server: bool, a: Action)
    requires NodeCan(ReceiverNode(s, server), a)
    ensures Enabled(s, At(!server, a))
    ensures var s', n' := Next(s, At(!server, a)), NodeAct(ReceiverNode(s, server), a);
            && ReceiverNode(s', server) == n'
            && SenderNode(s', server) == Node(SenderNode(s, server).e, n'.inp, n'.out)
  {
    hide NodeCan, NodeAct;
  }

  lemma NodesOf(s: Sys, server: bool)
    ensures Running(s) <==> ReadsFrames(SenderNode(s, server).e) && ReadsFrames(ReceiverNode(s, server).e)
    ensures SysOk(s) ==> NodeOk(SenderNode(s, server)) && NodeOk(ReceiverNode(s, server))
    ensures ReceiverNode(s, server).inp == SenderNode(s, server).out
    ensures SenderNode(s, server).inp == ReceiverNode(s, server).out
  {
    hide NodeOk, ReadsFrames;
  }

  lemma ReaderStepForward(s: Sys, server: bool)
    requires SysOk(s) && Running(s) && ReadsFrames(ReceiverNode(s, server).e)
    requires ReaderStep(ReceiverNode(s, server).e.r, ReceiverNode(s, server).inp).Some?
    ensures var n := ReceiverNode(s, server); StepForward(s, server, At(!server, ReaderStep(n.e.r, n.inp).value))
  {
    hide SysOk, Running, NodeOk, NodeCan, NodeAct, ReaderStep, Work, Unwritten, Wire, Enabled, Next, SenderNode,
      ReceiverNode;
    var n := ReceiverNode(s, server);
    var a := ReaderStep(n.e.r, n.inp).value;
    NodesOf(s, server);
    ReaderForward(n);
    ReceiverMoves(s, server, a);
    NodesOf(Next(s, At(!server, a)), server);
  }

  lemma WriterStepForward(s: Sys, server: bool)
    requires SysOk(s) && Running(s) && WriterStep(SenderNode(s, server).e.w).Some?
    ensures StepForward(s, server, At(server, WriterStep(SenderNode(s, server).e.w).value))
  {
    hide SysOk, Running, NodeOk, NodeCan, NodeAct, WriterStep, Work, Unwritten, Wire, Enabled, Next, SenderNode,
      ReceiverNode;
    var n := SenderNode(s, server);
    var a := WriterStep(n.e.w).value;
    NodesOf(s, server);
    WriterForward(n);
    SenderMoves(s, server, a);
    NodesOf(Next(s, At(server, a)), server);
  }

  lemma Finished(s: Sys, server: bool)
    requires SysOk(s) && Running(s) && ReadsFrames(ReceiverNode(s, server).e)
    requires ReaderStep(ReceiverNode(s, server).e.r, ReceiverNode(s, server).inp).None?
    requires WriterStep(SenderNode(s, server).e.w).None?
    ensures Receiver(s, server).r.delivered == Arrived(Sent(s, server))
  {
    hide SysOk, NodeOk, SenderOk, ReceiverOk, ReaderOk, Arrived;
    var n := SenderNode(s, server);
    NodesOf(s, server);
    PumpFacts(n);
    NothingLost(s, server);
    assert n.out.accepted + [] == n.out.accepted;
  }

  lemma PumpFacts(n: Node)
    requires NodeOk(n) && n.e.open && WriterStep(n.e.w).None?
    ensures n.e.w.posted == [] && n.e.w.outQ == [] && n.e.w.write.NoWrite?
  {
    hide SenderOk, ReceiverOk, ReaderOk, HandshakeOk;
  }

  lemma RunningReads(s: Sys, server: bool)
    requires Running(s)
    ensures ReadsFrames(ReceiverNode(s, server).e)
  {
  }

  /** Both ends read frames: some run delivers all that the one end has sent, and leaves the reader of
      that end alone. */
  lemma {:induction false} OneWay(s: Sys, server: bool) returns (more: seq<Step>)
    requires SysOk(s) && Running(s)
    ensures Executes(s, more) && NoPosts(more) && Running(Exec(s, more))
    ensures Receiver(Exec(s, more), server).r.delivered == Arrived(Sent(s, server))
    ensures Receiver(Exec(s, more), !server).r == Receiver(s, !server).r
    decreases ToDo(s, server)
  {
    hide SysOk, Running, Sent, ToDo, Enabled, Next, Arrived, ReaderStep, WriterStep;
    ToDoIsNat(s, server);
    var n, r := SenderNode(s, server), ReceiverNode(s, server);
    RunningReads(s, server);
    var reading, writing := ReaderStep(r.e.r, r.inp), WriterStep(n.e.w);
    if reading.None? && writing.None? {
      Finished(s, server);
      more := [];
    } else {
      var step := if reading.Some? then At(!server, reading.value) else At(server, writing.value);
      if reading.Some? {
        ReaderStepForward(s, server);
      } else {
        WriterStepForward(s, server);
      }
      NextKeepsOk(s, step);
      ToDoIsNat(Next(s, step), server);
      StepSent(s, step, server);
      var rest := OneWay(Next(s, step), server);
      more := [step] + rest;
      assert more[1..] == rest;
    }
  }

  lemma StepSent(s: Sys, step: Step, server: bool)
    requires Enabled(s, step) && !step.a.Post?
    ensures Sent(Next(s, step), server) == Sent(s, server)
  {
    hide Enabled, Next;
    NextPosts(s, step);
    assert [step][1..] == [];
    NothingPosted(true, [step]);
    NothingPosted(false, [step]);
  }

  lemma SentKept(s: Sys, more: seq<Step>, server: bool)
    requires Executes(s, more) && NoPosts(more)
    ensures Sent(Exec(s, more), server) == Sent(s, server)
  {
    hide Exec, Executes;
    AcceptedInOrder(s, more);
    NothingPosted(true, more);
    NothingPosted(false, more);
  }

  // ---------------------------------------------------------------- from the handshake to the frames

  function GreetLeft(e: Endpoint): nat {
    if e.h.greet.Greeting? then 1 + |e.h.greet.rest| else 0
  }

  /** The next step of an end that is still busy with its validation parameter. */
  function GreetStep(e: Endpoint): Action {
    if Remaining(e.h.greet) > 0 then PushBytes(Remaining(e.h.greet)) else GreetDone(true)
  }

  /** The server has its answer; the ends may still be busy with their own parameters. */
  predicate Settled(e: Endpoint) {
    && e.open && !e.h.greet.NotGreeted?
    && (e.r.read.HeaderRead? || e.r.read.BodyRead?
        || (e.owner == ClientSide && e.r.read.Paused? && e.h.greet.Greeting?))
  }

  lemma GreetForward(n: Node)
    requires Settled(n.e) && !ReadsFrames(n.e)
    ensures NodeCan(n, GreetStep(n.e))
    ensures var e' := NodeAct(n, GreetStep(n.e)).e; Settled(e') && GreetLeft(e') < GreetLeft(n.e)
  {
  }

  lemma ServerFacts(s: Sys)
    requires SysOk(s) && Healthy(s) && s.server.h.validations == 1
    ensures Settled(s.server) && ReceiverOk(s.server, s.up) && SenderOk(s.client, s.up)
  {
    hide PumpOk, ReaderOk, SenderOk, ReceiverOk;
  }

  lemma ClientFacts(s: Sys)
    requires SysOk(s) && Healthy(s) && !s.client.h.greet.NotGreeted?
    ensures Settled(s.client)
  {
    hide PumpOk, ReaderOk, SenderOk, ReceiverOk;
  }

  /** The server has read the answer, so the client has sent it. */
  lemma ValidatedSettles(s: Sys)
    requires SysOk(s) && Healthy(s) && s.server.h.validations == 1
    ensures Settled(s.server) && Settled(s.client)
  {
    hide SysOk, SenderOk, HandshakeOk, FramesRead;
    ServerFacts(s);
    FirstBytes(s.client, s.up);
    ClientFacts(s);
  }

  lemma {:induction false} FramesAreRead(s: Sys) returns (more: seq<Step>)
    requires SysOk(s) && Settled(s.server) && Settled(s.client)
    ensures Executes(s, more) && NoPosts(more) && Running(Exec(s, more))
    decreases GreetLeft(s.server) + GreetLeft(s.client)
  {
    hide SysOk, NodeCan, NodeAct, GreetLeft, Settled;
    if Running(s) {
      more := [];
    } else {
      var server := !ReadsFrames(s.server);
      var e := if server then s.server else s.client;
      var step := At(server, GreetStep(e));
      GreetForward(if server then ServerNode(s) else ClientNode(s));
      NextKeepsOk(s, step);
      var rest := FramesAreRead(Next(s, step));
      more := [step] + rest;
      assert more[1..] == rest;
    }
  }

  /** Every run of the two own ends in which nothing has failed can be continued until the client is
      validated and everything that either end has sent by then is delivered to the other. */
  lemma EverythingArrives(challenge: bv64, steps: seq<Step>) returns (more: seq<Step>)
    requires Executes(Init(challenge), steps) && Healthy(Exec(Init(challenge), steps))
    ensures var s := Exec(Init(challenge), steps);
            && Executes(s, more) && NoPosts(more)
            && var s' := Exec(s, more);
               && Running(s')
               && s'.client.r.delivered == Arrived(PostsBy(true, steps))
               && s'.server.r.delivered == Arrived(PostsBy(false, steps))
  {
    hide Init, SysOk, Running, Arrived, Exec, Executes, Settled;
    InitOk(challenge);
    ExecKeepsOk(Init(challenge), steps);
    var s := Exec(Init(challenge), steps);
    var a := HonestClientIsValidated(challenge, steps);
    var s1 := Exec(s, a);
    ExecKeepsOk(s, a);
    ValidatedSettles(s1);
    var b := FramesAreRead(s1);
    var s2 := Exec(s1, b);
    ExecKeepsOk(s1, b);
    var down := OneWay(s2, true);
    var s3 := Exec(s2, down);
    ExecKeepsOk(s2, down);
    var up := OneWay(s3, false);
    AllSent(challenge, steps);
    forall server: bool
      ensures Sent(s, server) == Sent(s2, server) == Sent(s3, server)
    {
      SentKept(s, a, server);
      SentKept(s1, b, server);
      SentKept(s2, down, server);
    }
    ExecConcat(s2, down, up);
    ExecConcat(s1, b, down + up);
    ExecConcat(s, a, b + (down + up));
    more := a + (b + (down + up));
  }

  lemma AllSent(challenge: bv64, steps: seq<Step>)
    requires Executes(Init(challenge), steps)
    ensures var s := Exec(Init(challenge), steps); forall server :: Sent(s, server) == PostsBy(server, steps)
  {
    InitOk(challenge);
    AcceptedInOrder(Init(challenge), steps);
    hide Init, Exec, Executes;
    assert [] + [] + PostsBy(true, steps) == PostsBy(true, steps);
    assert [] + [] + PostsBy(false, steps) == PostsBy(false, steps);
  }
}
