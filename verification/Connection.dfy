/** One end of a connection (connection.h): the write pump, the reader with its single reused
    buffer, and the challenge/response that comes before the first frame. The functions on
    `Endpoint` say what each completion handler does; the class at the end of the module is
    proved against them. */
module Connection {
  import opened Common
  import opened Message
  import opened Scrambling
  import opened Queues

  datatype Owner = ServerSide | ClientSide

  /** The frame write that asio holds, with the bytes not yet handed to the network. */
  datatype Write = NoWrite | HeaderWrite(rest: seq<byte>) | BodyWrite(rest: seq<byte>)

  /** The write of the validation parameter. */
  datatype Greet = NotGreeted | Greeting(rest: seq<byte>) | Greeted

  /** The read that asio holds, with the bytes received so far. A client is `Paused` from the
      moment it has the challenge until its answer is written; `Stopped` is final. */
  datatype Read =
    | ValidationRead(got: seq<byte>)
    | Paused
    | HeaderRead(got: seq<byte>)
    | BodyRead(got: seq<byte>)
    | Stopped

  /** The sending half: `posted` are the `Send` lambdas that the context has not run yet, `outQ` is
      m_qMessagesOut. */
  datatype Writer = Writer(posted: seq<Msg>, outQ: seq<Msg>, write: Write)

  /** The receiving half: `tmp` is m_msgTemporaryIn, the one buffer every message is read into;
      `delivered` is what this connection has put in the incoming queue. */
  datatype Reader = Reader(read: Read, tmp: Msg, delivered: seq<Msg>)

  /** The handshake fields, with the number of calls of `OnClientValidated`. */
  datatype Handshake = Handshake(greet: Greet, out: bv64, inn: bv64, check: bv64, validations: nat)

  datatype Endpoint = Endpoint(owner: Owner, open: bool, w: Writer, r: Reader, h: Handshake)

  // ---------------------------------------------------------------- bytes on the wire

  const HEADER_SIZE := 8

  function HeaderBytes(h: Header): (bs: seq<byte>)
    ensures |bs| == HEADER_SIZE
  {
    ToBytes(h.id, 4) + ToBytes(h.bodySize, 4)
  }

  function ParseHeader(bs: seq<byte>): Header
    requires |bs| == HEADER_SIZE
  {
    FromBytesBound(bs[..4]);
    FromBytesBound(bs[4..]);
    assert Pow256(4) == TWO_32;
    Header(FromBytes(bs[..4]), FromBytes(bs[4..]))
  }

  lemma ParseHeaderBytes(h: Header)
    ensures ParseHeader(HeaderBytes(h)) == h
  {
    FromToBytes(h.id, 4);
    FromToBytes(h.bodySize, 4);
  }

  lemma HeaderBytesParse(bs: seq<byte>)
    requires |bs| == HEADER_SIZE
    ensures HeaderBytes(ParseHeader(bs)) == bs
  {
    ToFromBytes(bs[..4]);
    ToFromBytes(bs[4..]);
    assert bs == bs[..4] + bs[4..];
  }

  /** The bytes the pump writes for `m`: its header, then its body whatever the header says. */
  function WireOf(m: Msg): seq<byte> {
    HeaderBytes(m.header) + m.body
  }

  function Wire(ms: seq<Msg>): seq<byte> {
    if ms == [] then [] else WireOf(ms[0]) + Wire(ms[1..])
  }

  // ---------------------------------------------------------------- the write pump

  /** Starts the write of the front message's header. asio allows one write at a time. */
  function WriteHeader(w: Writer): Writer
    requires w.outQ != [] && w.write.NoWrite?
  {
    w.(write := HeaderWrite(HeaderBytes(w.outQ[0].header)))
  }

  function WriteBody(w: Writer): Writer
    requires w.outQ != [] && w.write.NoWrite?
  {
    w.(write := BodyWrite(w.outQ[0].body))
  }

  /** The lambda that `Send` posts. */
  function RunPosted(w: Writer): Writer
    requires w.posted != []
    requires w.outQ == [] ==> w.write.NoWrite?
  {
    var queued := Writer(w.posted[1..], w.outQ + [w.posted[0]], w.write);
    if w.outQ == [] then WriteHeader(queued) else queued
  }

  function PopAndContinue(w: Writer): Writer
    requires w.outQ != [] && w.write.NoWrite?
  {
    var popped := w.(outQ := w.outQ[1..]);
    if popped.outQ != [] then WriteHeader(popped) else popped
  }

  /** The two handlers run once their write is over, so no write is outstanding when they decide.
      On an error the handler also closes the socket. */
  function HeaderWritten(w: Writer, ok: bool): Writer
    requires w.outQ != [] && w.write.HeaderWrite?
  {
    var done := w.(write := NoWrite);
    if !ok then done
    else if |w.outQ[0].body| > 0 then WriteBody(done)
    else PopAndContinue(done)
  }

  function BodyWritten(w: Writer, ok: bool): Writer
    requires w.outQ != [] && w.write.BodyWrite?
  {
    var done := w.(write := NoWrite);
    if !ok then done else PopAndContinue(done)
  }

  // ---------------------------------------------------------------- the reader

  function AddToIncoming(r: Reader): Reader {
    Reader(HeaderRead([]), r.tmp, r.delivered + [r.tmp])
  }

  /** `vector::resize`: bytes already there stay, new ones are zero. */
  function Resized(body: seq<byte>, n: nat): (r: seq<byte>)
    ensures |r| == n
  {
    if n <= |body| then body[..n] else body + seq(n - |body|, _ => 0)
  }

  /** The header-read handler. The buffer's body is resized only when the header announces one. */
  function HeaderReceived(r: Reader, ok: bool): Reader
    requires r.read.HeaderRead? && (ok ==> |r.read.got| == HEADER_SIZE)
  {
    if !ok then r.(read := Stopped)
    else
      var h := ParseHeader(r.read.got);
      if h.bodySize > 0 then Reader(BodyRead([]), Msg(h, Resized(r.tmp.body, h.bodySize)), r.delivered)
      else AddToIncoming(r.(tmp := Msg(h, r.tmp.body)))
  }

  function BodyReceived(r: Reader, ok: bool): Reader
    requires r.read.BodyRead? && (ok ==> |r.read.got| == |r.tmp.body|)
  {
    if !ok then r.(read := Stopped)
    else AddToIncoming(r.(tmp := Msg(r.tmp.header, r.read.got)))
  }

  // ---------------------------------------------------------------- the handshake

  function HandshakeBytes(x: bv64): (bs: seq<byte>)
    ensures |bs| == 8
  {
    ToBytes(x as int, 8)
  }

  function ParseHandshake(bs: seq<byte>): bv64
    requires |bs| == 8
  {
    FromBytesBound(bs);
    assert Pow256(8) == 0x1_0000_0000_0000_0000;
    FromBytes(bs) as bv64
  }

  lemma ParseHandshakeBytes(x: bv64)
    ensures ParseHandshake(HandshakeBytes(x)) == x
  {
    assert Pow256(8) == 0x1_0000_0000_0000_0000;
    FromToBytes(x as int, 8);
  }

  const EMPTY_MESSAGE := Msg(Header(0, 0), [])

  function NewServerEndpoint(challenge: bv64): Endpoint {
    Endpoint(ServerSide, true, Writer([], [], NoWrite), Reader(ValidationRead([]), EMPTY_MESSAGE, []),
             Handshake(Greeting(HandshakeBytes(challenge)), challenge, 0, Scramble(challenge), 0))
  }

  function NewClientEndpoint(): Endpoint {
    Endpoint(ClientSide, true, Writer([], [], NoWrite), Reader(ValidationRead([]), EMPTY_MESSAGE, []),
             Handshake(NotGreeted, 0, 0, 0, 0))
  }

  /** After its answer is written a client starts to read frames. */
  function GreetWritten(e: Endpoint, ok: bool): Endpoint {
    var h := e.h.(greet := Greeted);
    if !ok then e.(open := false, r := e.r.(read := if e.owner == ClientSide then Stopped else e.r.read), h := h)
    else if e.owner == ClientSide then e.(r := e.r.(read := HeaderRead([])), h := h)
    else e.(h := h)
  }

  function ValidationFailed(e: Endpoint): Endpoint {
    e.(open := false, r := e.r.(read := Stopped))
  }

  function ValidationReceived(e: Endpoint, ok: bool): Endpoint
    requires e.r.read.ValidationRead? && (ok ==> |e.r.read.got| == 8)
  {
    if !ok then ValidationFailed(e)
    else
      var x := ParseHandshake(e.r.read.got);
      if e.owner == ServerSide then CheckAnswer(e, x) else AnswerChallenge(e, x)
  }

  function CheckAnswer(e: Endpoint, answer: bv64): Endpoint {
    var e1 := e.(h := e.h.(inn := answer));
    if answer != e.h.check then ValidationFailed(e1)
    else e1.(r := e.r.(read := HeaderRead([])), h := e1.h.(validations := e.h.validations + 1))
  }

  function AnswerChallenge(e: Endpoint, challenge: bv64): Endpoint {
    var answer := Scramble(challenge);
    e.(r := e.r.(read := Paused),
       h := e.h.(inn := challenge, out := answer, greet := Greeting(HandshakeBytes(answer))))
  }

  // ---------------------------------------------------------------- everything that can happen

  /** One atomic step at this end. `Push` and `Pull` move bytes between asio and the network;
      a `...Done` runs a completion handler, with or without an error. */
  datatype Action =
    | Post(m: Msg)
    | RunPost
    | PushBytes(n: nat)
    | PullBytes(bs: seq<byte>)
    | WriteDone(ok: bool)
    | GreetDone(ok: bool)
    | ReadDone(ok: bool)
    | Close

  /** How many bytes the pending read is for. */
  function ReadSize(r: Reader): nat {
    match r.read
    case ValidationRead(_) => 8
    case HeaderRead(_) => HEADER_SIZE
    case BodyRead(_) => |r.tmp.body|
    case _ => 0
  }

  predicate Reading(r: Reader) {
    r.read.ValidationRead? || r.read.HeaderRead? || r.read.BodyRead?
  }

  /** The bytes asio may hand to the network next: the validation parameter goes out first. */
  function Outgoing(e: Endpoint): seq<byte> {
    if e.h.greet.Greeting? && e.h.greet.rest != [] then e.h.greet.rest
    else if e.w.write.NoWrite? then []
    else e.w.write.rest
  }

  predicate CanAct(e: Endpoint, a: Action) {
    match a
    case Post(m) => true
    case RunPost => e.w.posted != [] && (e.w.outQ == [] ==> e.w.write.NoWrite?)
    case PushBytes(n) => e.open && 0 < n <= |Outgoing(e)|
    case PullBytes(bs) => e.open && Reading(e.r) && bs != [] && |e.r.read.got| + |bs| <= ReadSize(e.r)
    case WriteDone(ok) => !e.w.write.NoWrite? && e.w.outQ != [] && (ok ==> e.w.write.rest == [])
    case GreetDone(ok) => e.h.greet.Greeting? && (ok ==> e.h.greet.rest == [])
    case ReadDone(ok) => Reading(e.r) && (ok ==> |e.r.read.got| == ReadSize(e.r))
    case Close => true
  }

  function Transferred(w: Writer, n: nat): Writer
    requires !w.write.NoWrite? && n <= |w.write.rest|
  {
    w.(write := if w.write.HeaderWrite? then HeaderWrite(w.write.rest[n..]) else BodyWrite(w.write.rest[n..]))
  }

  function Received(r: Reader, bs: seq<byte>): Reader
    requires Reading(r)
  {
    r.(read := match r.read
               case ValidationRead(got) => ValidationRead(got + bs)
               case HeaderRead(got) => HeaderRead(got + bs)
               case BodyRead(got) => BodyRead(got + bs))
  }

  function FrameWritten(w: Writer, ok: bool): Writer
    requires w.outQ != [] && !w.write.NoWrite?
  {
    if w.write.HeaderWrite? then HeaderWritten(w, ok) else BodyWritten(w, ok)
  }

  function FrameReceived(r: Reader, ok: bool): Reader
    requires r.read.HeaderRead? || r.read.BodyRead?
    requires ok ==> |r.read.got| == ReadSize(r)
  {
    if r.read.HeaderRead? then HeaderReceived(r, ok) else BodyReceived(r, ok)
  }

  function Act(e: Endpoint, a: Action): Endpoint
    requires CanAct(e, a)
  {
    match a
    case Post(m) => e.(w := e.w.(posted := e.w.posted + [m]))
    case RunPost => e.(w := RunPosted(e.w))
    case PushBytes(n) =>
      if e.h.greet.Greeting? && e.h.greet.rest != [] then e.(h := e.h.(greet := Greeting(e.h.greet.rest[n..])))
      else e.(w := Transferred(e.w, n))
    case PullBytes(bs) => e.(r := Received(e.r, bs))
    case WriteDone(ok) => e.(open := e.open && ok, w := FrameWritten(e.w, ok))
    case GreetDone(ok) => GreetWritten(e, ok)
    case ReadDone(ok) =>
      if e.r.read.ValidationRead? then ValidationReceived(e, ok)
      else e.(open := e.open && ok, r := FrameReceived(e.r, ok))
    case Close => e.(open := false)
  }

  predicate CanRun(e: Endpoint, actions: seq<Action>)
    decreases |actions|
  {
    actions == [] || (CanAct(e, actions[0]) && CanRun(Act(e, actions[0]), actions[1..]))
  }

  function Run(e: Endpoint, actions: seq<Action>): Endpoint
    requires CanRun(e, actions)
    decreases |actions|
  {
    if actions == [] then e else Run(Act(e, actions[0]), actions[1..])
  }

  // ---------------------------------------------------------------- the class

  /** A received message, with the connection it came from on the server's side. */
  datatype OwnedMessage = OwnedMessage(remote: Connection?, msg: Msg)

  class Connection {
    const owner: Owner
    const qOut: Queue<Msg>
    const qIn: Queue<OwnedMessage>
    var id: uint32
    var open: bool
    var posted: seq<Msg>
    var write: Write
    var greet: Greet
    var read: Read
    var tmp: Msg
    var handshakeOut: bv64
    var handshakeIn: bv64
    var handshakeCheck: bv64
    ghost var accepted: seq<Msg>
    ghost var delivered: seq<Msg>
    ghost var validations: nat

    ghost predicate Valid() {
      qOut as object != qIn
    }

    ghost function View(): Endpoint
      reads this, qOut
    {
      Endpoint(owner, open, Writer(posted, qOut.items, write), Reader(read, tmp, delivered),
               Handshake(greet, handshakeOut, handshakeIn, handshakeCheck, validations))
    }

    /** All that `Send` was ever given: what the out-queue has accepted and what is still posted. */
    ghost function Sent(): seq<Msg>
      reads `accepted, `posted
    {
      accepted + posted
    }

    /** A server-side connection makes its challenge from the clock. */
    constructor (owner: Owner, qIn: Queue<OwnedMessage>, now: bv64)
      ensures Valid() && fresh(qOut) && this.owner == owner && this.qIn == qIn
      ensures open && posted == [] && qOut.items == [] && write == NoWrite && greet == NotGreeted && read == Paused
      ensures tmp == EMPTY_MESSAGE && accepted == delivered == [] && validations == 0 && handshakeIn == 0 && id == 0
      ensures handshakeOut == (if owner == ServerSide then now else 0)
      ensures handshakeCheck == (if owner == ServerSide then Scramble(now) else 0)
    {
      this.owner := owner;
      this.qIn := qIn;
      qOut := new Queue<Msg>();
      id := 0;
      open := true;
      posted := [];
      write, greet, read := NoWrite, NotGreeted, Paused;
      tmp := EMPTY_MESSAGE;
      handshakeIn := 0;
      handshakeOut := if owner == ServerSide then now else 0;
      handshakeCheck := if owner == ServerSide then Scramble(now) else 0;
      accepted, delivered, validations := [], [], 0;
    }

    /** Starts the handshake of a connection that was just accepted. */
    method ConnectToClient(uid: uint32)
      modifies this
      ensures old(owner == ServerSide && open) ==>
                && id == uid && greet == Greeting(HandshakeBytes(handshakeOut)) && read == ValidationRead([])
      ensures !old(owner == ServerSide && open) ==> View() == old(View()) && id == old(id)
      ensures accepted == old(accepted)
      ensures View() == old(View()).(r := View().r, h := View().h)
      ensures View().r == old(View().r).(read := read) && View().h == old(View().h).(greet := greet)
    {
      if owner != ServerSide || !open {
        return;
      }
      id := uid;
      greet := Greeting(HandshakeBytes(handshakeOut));
      read := ValidationRead([]);
    }

    /** The handler that runs once the client's socket is connected. */
    method ConnectedToServer()
      requires owner == ClientSide
      modifies `read
      ensures read == ValidationRead([])
    {
      read := ValidationRead([]);
    }

    method Send(m: Msg)
      modifies `posted
      ensures posted == old(posted) + [m] && Sent() == old(Sent()) + [m]
      ensures View() == old(Act(View(), Post(m)))
    {
      posted := posted + [m];
    }

    method RunPostedSend()
      requires Valid() && CanAct(View(), RunPost)
      modifies `posted, `accepted, `write, qOut
      ensures View() == old(Act(View(), RunPost))
      ensures accepted == old(accepted + [posted[0]]) && Sent() == old(Sent())
    {
      var m := posted[0];
      posted, accepted := posted[1..], accepted + [m];
      var wasEmpty := qOut.IsEmpty();
      var writingMessage := !wasEmpty;
      qOut.PushBack(m);
      if !writingMessage {
        StartHeader();
      }
    }

    method StartHeader()
      requires qOut.items != [] && write.NoWrite?
      modifies `write
      ensures View().w == old(WriteHeader(View().w))
      ensures View() == old(View()).(w := View().w)
    {
      var front := qOut.Front();
      write := HeaderWrite(HeaderBytes(front.header));
    }

    method PopAndGoOn()
      requires Valid() && qOut.items != [] && write.NoWrite?
      modifies `write, qOut
      ensures View().w == old(PopAndContinue(View().w))
      ensures View() == old(View()).(w := View().w)
    {
      var _ := qOut.PopFront();
      var empty := qOut.IsEmpty();
      if !empty {
        StartHeader();
      }
    }

    method OnHeaderWritten(ok: bool)
      requires Valid() && write.HeaderWrite? && CanAct(View(), WriteDone(ok))
      modifies `write, `open, qOut
      ensures View() == old(Act(View(), WriteDone(ok)))
    {
      write := NoWrite;
      if !ok {
        open := false;
        return;
      }
      var front := qOut.Front();
      if |front.body| > 0 {
        write := BodyWrite(front.body);
      } else {
        PopAndGoOn();
      }
    }

    method OnBodyWritten(ok: bool)
      requires Valid() && write.BodyWrite? && CanAct(View(), WriteDone(ok))
      modifies `write, `open, qOut
      ensures View() == old(Act(View(), WriteDone(ok)))
    {
      write := NoWrite;
      if !ok {
        open := false;
        return;
      }
      PopAndGoOn();
    }

    /** The message goes into the incoming queue, with its sender on the server's side. */
    method AddToIncomingQueue()
      requires Valid()
      modifies `read, `delivered, qIn
      ensures View().r == old(AddToIncoming(View().r))
      ensures View() == old(View()).(r := View().r)
      ensures qIn.items == old(qIn.items) + [OwnedMessage(if owner == ServerSide then this else null, tmp)]
    {
      qIn.PushBack(OwnedMessage(if owner == ServerSide then this else null, tmp));
      delivered := delivered + [tmp];
      read := HeaderRead([]);
    }

    method OnHeaderRead(ok: bool)
      requires Valid() && read.HeaderRead? && CanAct(View(), ReadDone(ok))
      modifies `read, `open, `tmp, `delivered, qIn
      ensures View() == old(Act(View(), ReadDone(ok)))
      ensures Delivers(old(qIn.items), |old(delivered)|)
    {
      if !ok {
        open, read := false, Stopped;
        return;
      }
      tmp := Msg(ParseHeader(read.got), tmp.body);
      if tmp.header.bodySize > 0 {
        tmp := Msg(tmp.header, Resized(tmp.body, tmp.header.bodySize));
        read := BodyRead([]);
      } else {
        AddToIncomingQueue();
      }
    }

    method OnBodyRead(ok: bool)
      requires Valid() && read.BodyRead? && CanAct(View(), ReadDone(ok))
      modifies `read, `open, `tmp, `delivered, qIn
      ensures View() == old(Act(View(), ReadDone(ok)))
      ensures Delivers(old(qIn.items), |old(delivered)|)
    {
      if !ok {
        open, read := false, Stopped;
        return;
      }
      tmp := Msg(tmp.header, read.got);
      AddToIncomingQueue();
    }

    function Owned(ms: seq<Msg>): seq<OwnedMessage> {
      seq(|ms|, i requires 0 <= i < |ms| => OwnedMessage(if owner == ServerSide then this else null, ms[i]))
    }

    /** The incoming queue grew by what was delivered after the first `n` messages. */
    ghost predicate Delivers(before: seq<OwnedMessage>, n: nat)
      reads this, qIn
    {
      n <= |delivered| && qIn.items == before + Owned(delivered[n..])
    }

    method OnValidationWritten(ok: bool)
      requires CanAct(View(), GreetDone(ok))
      modifies `greet, `read, `open
      ensures View() == old(Act(View(), GreetDone(ok)))
    {
      greet := Greeted;
      if !ok {
        open := false;
        if owner == ClientSide {
          read := Stopped;
        }
        return;
      }
      if owner == ClientSide {
        read := HeaderRead([]);
      }
    }

    /** `validated` tells the server to call `OnClientValidated`. */
    method OnValidationRead(ok: bool) returns (validated: bool)
      requires read.ValidationRead? && CanAct(View(), ReadDone(ok))
      modifies `greet, `read, `open, `handshakeIn, `handshakeOut, `validations
      ensures View() == old(Act(View(), ReadDone(ok)))
      ensures validated <==> validations == old(validations) + 1
    {
      hide Scramble, HandshakeBytes, ParseHandshake;
      validated := false;
      if !ok {
        open, read := false, Stopped;
        return;
      }
      handshakeIn := ParseHandshake(read.got);
      if owner == ServerSide {
        if handshakeIn != handshakeCheck {
          open, read := false, Stopped;
          return;
        }
        validated := true;
        validations := validations + 1;
        read := HeaderRead([]);
      } else {
        handshakeOut := Scramble(handshakeIn);
        greet := Greeting(HandshakeBytes(handshakeOut));
        read := Paused;
      }
    }
  }
}
