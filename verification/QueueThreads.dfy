/** The locks of queue.h, step by step: any number of producers in `PushBack`, and the one consumer
    that runs `ServerInterface::Update`: `Wait`, then `IsEmpty` and `PopFront` until the queue is
    drained. Every lock, unlock, sleep and notification is a step of its own. */
module QueueThreads {
  import opened Common

  /** The consumer; every other number is a producer. */
  const CONSUMER: nat := 0

  datatype Pc<T> =
    // a producer
    | Idle
    | PushWantsQueue(x: T)
    | PushHasQueue(x: T)      // muxQueue held
    | PushWantsBlocking       // muxQueue held, element stored
    | PushHasBoth             // both held, about to notify
    | PushNotified            // both held
    | PushHasReleased         // muxBlocking released, muxQueue held
    // the consumer
    | Ready
    | TestWantsQueue(waiting: bool)
    | TestHasQueue(waiting: bool)  // muxQueue held, in IsEmpty
    | SawEmpty                // inside Wait, no lock held
    | WaitHasBlocking         // muxBlocking held, about to sleep
    | Sleeping                // muxBlocking given up
    | Woken                   // has to take muxBlocking again
    | WaitAwake               // muxBlocking held, about to test again
    | WaitReturned
    | PopWantsQueue
    | PopHasQueue             // muxQueue held

  datatype State<T> = State(
    items: seq<T>,
    muxQueue: Option<nat>,
    muxBlocking: Option<nat>,
    pcs: map<nat, Pc<T>>,
    pushed: seq<T>,
    popped: seq<T>)

  datatype Move<T> =
    | StartPush(t: nat, x: T)
    | StartUpdate
    | Advance(t: nat)
    | SpuriousWake

  predicate Initial<T(==)>(s: State<T>) {
    && s.items == s.pushed == s.popped == []
    && s.muxQueue == None && s.muxBlocking == None
    && CONSUMER in s.pcs
    && forall t :: t in s.pcs ==> s.pcs[t] == if t == CONSUMER then Ready else Idle
  }

  predicate WantsQueue<T>(pc: Pc<T>) {
    pc.PushWantsQueue? || pc.TestWantsQueue? || pc.PopWantsQueue?
  }

  predicate WantsBlocking<T>(pc: Pc<T>) {
    pc.PushWantsBlocking? || pc.SawEmpty? || pc.Woken?
  }

  predicate HoldsQueue<T>(pc: Pc<T>) {
    || pc.PushHasQueue? || pc.PushWantsBlocking? || pc.PushHasBoth? || pc.PushNotified? || pc.PushHasReleased?
    || pc.TestHasQueue? || pc.PopHasQueue?
  }

  predicate HoldsBlocking<T>(pc: Pc<T>) {
    pc.PushHasBoth? || pc.PushNotified? || pc.WaitHasBlocking? || pc.WaitAwake?
  }

  /** The consumer has come back from `Wait`, or found the queue not empty, and has not popped. */
  predicate AboutToPop<T>(pc: Pc<T>) {
    pc.WaitReturned? || pc.PopWantsQueue? || pc.PopHasQueue?
  }

  /** Between operations, or asleep in the condition variable. */
  predicate AtRest<T>(pc: Pc<T>) {
    pc.Idle? || pc.Ready? || pc.Sleeping?
  }

  predicate Enabled<T>(s: State<T>, m: Move<T>) {
    match m
    case StartPush(t, x) => t in s.pcs && s.pcs[t].Idle?
    case StartUpdate => CONSUMER in s.pcs && s.pcs[CONSUMER].Ready?
    case SpuriousWake => CONSUMER in s.pcs && s.pcs[CONSUMER].Sleeping?
    case Advance(t) =>
      && t in s.pcs && !AtRest(s.pcs[t])
      && (WantsQueue(s.pcs[t]) ==> s.muxQueue == None)
      && (WantsBlocking(s.pcs[t]) ==> s.muxBlocking == None)
      && (s.pcs[t].PopHasQueue? ==> s.items != [])
  }

  function At<T>(s: State<T>, t: nat, pc: Pc<T>): State<T> {
    s.(pcs := s.pcs[t := pc])
  }

  /** `notify_one`: the only thread that ever waits is the consumer. */
  function Notify<T>(s: State<T>): State<T> {
    if CONSUMER in s.pcs && s.pcs[CONSUMER].Sleeping? then At(s, CONSUMER, Woken) else s
  }

  function Next<T>(s: State<T>, m: Move<T>): State<T>
    requires Enabled(s, m)
  {
    match m
    case StartPush(t, x) => At(s, t, PushWantsQueue(x))
    case StartUpdate => At(s, CONSUMER, TestWantsQueue(true))
    case SpuriousWake => At(s, CONSUMER, Woken)
    case Advance(t) =>
      match s.pcs[t]
      case PushWantsQueue(x) => At(s, t, PushHasQueue(x)).(muxQueue := Some(t))
      case PushHasQueue(x) => At(s, t, PushWantsBlocking).(items := s.items + [x], pushed := s.pushed + [x])
      case PushWantsBlocking => At(s, t, PushHasBoth).(muxBlocking := Some(t))
      case PushHasBoth => At(Notify(s), t, PushNotified)
      case PushNotified => At(s, t, PushHasReleased).(muxBlocking := None)
      case PushHasReleased => At(s, t, Idle).(muxQueue := None)
      case TestWantsQueue(waiting) => At(s, t, TestHasQueue(waiting)).(muxQueue := Some(t))
      case TestHasQueue(waiting) =>
        At(s, t, if s.items == [] then (if waiting then SawEmpty else Ready)
                 else if waiting then WaitReturned else PopWantsQueue).(muxQueue := None)
      case SawEmpty => At(s, t, WaitHasBlocking).(muxBlocking := Some(t))
      case WaitHasBlocking => At(s, t, Sleeping).(muxBlocking := None)
      case Woken => At(s, t, WaitAwake).(muxBlocking := Some(t))
      case WaitAwake => At(s, t, TestWantsQueue(true)).(muxBlocking := None)
      case WaitReturned => At(s, t, TestWantsQueue(false))
      case PopWantsQueue => At(s, t, PopHasQueue).(muxQueue := Some(t))
      case PopHasQueue =>
        At(s, t, TestWantsQueue(false)).(items := s.items[1..], popped := s.popped + [s.items[0]], muxQueue := None)
      case _ => s
  }

  predicate Executes<T>(s: State<T>, moves: seq<Move<T>>)
    decreases |moves|
  {
    moves == [] || (Enabled(s, moves[0]) && Executes(Next(s, moves[0]), moves[1..]))
  }

  function Exec<T>(s: State<T>, moves: seq<Move<T>>): State<T>
    requires Executes(s, moves)
    decreases |moves|
  {
    if moves == [] then s else Exec(Next(s, moves[0]), moves[1..])
  }

  // ---------------------------------------------------------------- the invariant

  predicate ProducerPc<T>(pc: Pc<T>) {
    || pc.Idle? || pc.PushWantsQueue? || pc.PushHasQueue? || pc.PushWantsBlocking?
    || pc.PushHasBoth? || pc.PushNotified? || pc.PushHasReleased?
  }

  /** A lock is held by exactly the thread whose program counter says so. */
  predicate LocksOk<T>(s: State<T>) {
    && CONSUMER in s.pcs
    && (forall t :: t in s.pcs ==> (ProducerPc(s.pcs[t]) <==> t != CONSUMER))
    && (forall t :: t in s.pcs ==> (HoldsQueue(s.pcs[t]) <==> s.muxQueue == Some(t)))
    && (forall t :: t in s.pcs ==> (HoldsBlocking(s.pcs[t]) <==> s.muxBlocking == Some(t)))
    && (s.muxQueue.Some? ==> s.muxQueue.value in s.pcs)
    && (s.muxBlocking.Some? ==> s.muxBlocking.value in s.pcs)
  }

  predicate HistoryOk<T(==)>(s: State<T>) {
    && s.pushed == s.popped + s.items
    && CONSUMER in s.pcs
    && (AboutToPop(s.pcs[CONSUMER]) ==> s.items != [])
  }

  /** What happens to a lock when thread `t` holds it, or does not, after its step. */
  function LockAfter(lock: Option<nat>, t: nat, holds: bool): Option<nat> {
    if holds then Some(t) else if lock == Some(t) then None else lock
  }

  /** A step of one thread that keeps its kind, takes only free locks and gives up only its own. */
  lemma StepKeepsLocks<T>(s: State<T>, s': State<T>, t: nat, pc: Pc<T>)
    requires LocksOk(s) && t in s.pcs && s'.pcs == s.pcs[t := pc]
    requires ProducerPc(pc) <==> t != CONSUMER
    requires HoldsQueue(pc) ==> s.muxQueue == None || s.muxQueue == Some(t)
    requires HoldsBlocking(pc) ==> s.muxBlocking == None || s.muxBlocking == Some(t)
    requires s'.muxQueue == LockAfter(s.muxQueue, t, HoldsQueue(pc))
    requires s'.muxBlocking == LockAfter(s.muxBlocking, t, HoldsBlocking(pc))
    ensures LocksOk(s')
  {
  }

  /** What the thread's own program counter says about the locks. */
  lemma OwnLocks<T>(s: State<T>, t: nat)
    requires LocksOk(s) && t in s.pcs
    ensures ProducerPc(s.pcs[t]) <==> t != CONSUMER
    ensures HoldsQueue(s.pcs[t]) <==> s.muxQueue == Some(t)
    ensures HoldsBlocking(s.pcs[t]) <==> s.muxBlocking == Some(t)
  {
  }

  lemma ProducerKeepsLocks<T>(s: State<T>, t: nat)
    requires LocksOk(s) && Enabled(s, Advance(t)) && t != CONSUMER
    ensures LocksOk(Next(s, Advance(t)))
  {
    OwnLocks(s, t);
    var s' := Next(s, Advance(t));
    hide LocksOk;
    if s.pcs[t].PushHasBoth? {
      NotifyKeepsLocks(s);
      StepKeepsLocks(Notify(s), s', t, s'.pcs[t]);
    } else {
      StepKeepsLocks(s, s', t, s'.pcs[t]);
    }
  }

  lemma ConsumerKeepsLocks<T>(s: State<T>)
    requires LocksOk(s) && Enabled(s, Advance(CONSUMER))
    ensures LocksOk(Next(s, Advance(CONSUMER)))
  {
    OwnLocks(s, CONSUMER);
    var s' := Next(s, Advance(CONSUMER));
    hide LocksOk;
    StepKeepsLocks(s, s', CONSUMER, s'.pcs[CONSUMER]);
  }

  lemma AdvanceKeepsLocks<T>(s: State<T>, t: nat)
    requires LocksOk(s) && Enabled(s, Advance(t))
    ensures LocksOk(Next(s, Advance(t)))
  {
    hide LocksOk, Next, Enabled;
    if t == CONSUMER {
      ConsumerKeepsLocks(s);
    } else {
      ProducerKeepsLocks(s, t);
    }
  }

  lemma NotifyKeepsLocks<T>(s: State<T>)
    requires LocksOk(s)
    ensures LocksOk(Notify(s))
  {
    if s.pcs[CONSUMER].Sleeping? {
      StepKeepsLocks(s, Notify(s), CONSUMER, Woken);
    }
  }

  lemma NextKeepsLocks<T>(s: State<T>, m: Move<T>)
    requires LocksOk(s) && Enabled(s, m)
    ensures LocksOk(Next(s, m))
  {
    match m
    case Advance(t) => AdvanceKeepsLocks(s, t);
    case StartPush(t, x) => StepKeepsLocks(s, Next(s, m), t, PushWantsQueue(x));
    case StartUpdate => StepKeepsLocks(s, Next(s, m), CONSUMER, TestWantsQueue(true));
    case SpuriousWake => StepKeepsLocks(s, Next(s, m), CONSUMER, Woken);
  }

  lemma NextKeepsHistory<T>(s: State<T>, m: Move<T>)
    requires LocksOk(s) && HistoryOk(s) && Enabled(s, m)
    ensures HistoryOk(Next(s, m))
  {
    hide LocksOk, Next;
    if !m.Advance? {
      StartKeepsHistory(s, m);
    } else if m.t == CONSUMER {
      ConsumerKeepsHistory(s);
    } else {
      ProducerKeepsHistory(s, m.t);
    }
  }

  lemma StartKeepsHistory<T>(s: State<T>, m: Move<T>)
    requires LocksOk(s) && HistoryOk(s) && Enabled(s, m) && !m.Advance?
    ensures HistoryOk(Next(s, m))
  {
    OwnLocks(s, CONSUMER);
    hide LocksOk;
  }

  lemma ConsumerKeepsHistory<T>(s: State<T>)
    requires LocksOk(s) && HistoryOk(s) && Enabled(s, Advance(CONSUMER))
    ensures HistoryOk(Next(s, Advance(CONSUMER)))
  {
    OwnLocks(s, CONSUMER);
    hide LocksOk;
    if s.pcs[CONSUMER].PopHasQueue? {
      assert s.items == [s.items[0]] + s.items[1..];
    }
  }

  lemma ProducerKeepsHistory<T>(s: State<T>, t: nat)
    requires LocksOk(s) && HistoryOk(s) && Enabled(s, Advance(t)) && t != CONSUMER
    ensures HistoryOk(Next(s, Advance(t)))
  {
    OwnLocks(s, t);
    hide LocksOk;
    if s.pcs[t].PushHasQueue? {
      var x := s.pcs[t].x;
      assert s.popped + s.items + [x] == s.popped + (s.items + [x]);
    }
  }

  lemma {:induction false} ExecKeepsOk<T>(s: State<T>, moves: seq<Move<T>>)
    requires LocksOk(s) && HistoryOk(s) && Executes(s, moves)
    ensures LocksOk(Exec(s, moves)) && HistoryOk(Exec(s, moves))
    decreases |moves|
  {
    if moves != [] {
      NextKeepsLocks(s, moves[0]);
      NextKeepsHistory(s, moves[0]);
      ExecKeepsOk(Next(s, moves[0]), moves[1..]);
    }
  }

  // ---------------------------------------------------------------- results

  /** In every run: at most one thread holds each lock; a thread that holds `muxBlocking` never
      waits for a lock, so no two threads wait for each other; what has been popped, followed by
      what is stored, is what was pushed, in order; and from the moment `Wait` returns until the
      consumer pops, the queue is not empty. */
  lemma QueueSafety<T>(s0: State<T>, moves: seq<Move<T>>)
    requires Initial(s0) && Executes(s0, moves)
    ensures var s := Exec(s0, moves);
            && (forall t, u :: t in s.pcs && u in s.pcs && HoldsQueue(s.pcs[t]) && HoldsQueue(s.pcs[u]) ==> t == u)
            && (forall t, u :: t in s.pcs && u in s.pcs && HoldsBlocking(s.pcs[t]) && HoldsBlocking(s.pcs[u]) ==>
              t == u)
            && (forall t :: t in s.pcs && HoldsBlocking(s.pcs[t]) ==> !WantsQueue(s.pcs[t]) && !WantsBlocking(s.pcs[t]))
            && s.pushed == s.popped + s.items
            && CONSUMER in s.pcs
            && (AboutToPop(s.pcs[CONSUMER]) ==> s.items != [])
  {
    ExecKeepsOk(s0, moves);
  }

  /** No deadlock: whenever a thread is inside an operation and not asleep, some such thread can
      take its next step. */
  lemma NoDeadlock<T>(s0: State<T>, moves: seq<Move<T>>, busy: nat) returns (t: nat)
    requires Initial(s0) && Executes(s0, moves)
    requires busy in Exec(s0, moves).pcs && !AtRest(Exec(s0, moves).pcs[busy])
    ensures Enabled(Exec(s0, moves), Advance(t))
  {
    ExecKeepsOk(s0, moves);
    hide Executes, Exec, LocksOk, HistoryOk, Enabled, Initial;
    t := SomeoneCanGoOn(Exec(s0, moves), busy);
  }

  lemma SomeoneCanGoOn<T>(s: State<T>, busy: nat) returns (t: nat)
    requires LocksOk(s) && HistoryOk(s)
    requires busy in s.pcs && !AtRest(s.pcs[busy])
    ensures Enabled(s, Advance(t))
  {
    if s.muxBlocking.Some? {
      t := s.muxBlocking.value;
    } else if s.muxQueue.Some? {
      t := s.muxQueue.value;
    } else {
      t := busy;
    }
  }

  lemma ExecOne<T>(s: State<T>, m: Move<T>, rest: seq<Move<T>>)
    requires Enabled(s, m) && Executes(Next(s, m), rest)
    ensures Executes(s, [m] + rest) && Exec(s, [m] + rest) == Exec(Next(s, m), rest)
  {
    assert ([m] + rest)[1..] == rest;
  }

  lemma {:induction false} ExecAppend<T>(s: State<T>, a: seq<Move<T>>, b: seq<Move<T>>)
    requires Executes(s, a) && Executes(Exec(s, a), b)
    ensures Executes(s, a + b) && Exec(s, a + b) == Exec(Exec(s, a), b)
    decreases |a|
  {
    if a == [] {
      assert a + b == b;
    } else {
      ExecAppend(Next(s, a[0]), a[1..], b);
      assert (a + b)[1..] == a[1..] + b;
    }
  }

  /** `n` steps of one thread that are all enabled and lead to `end`. */
  predicate Advances<T(==)>(s: State<T>, t: nat, n: nat, end: State<T>)
    decreases n
  {
    if n == 0 then s == end
    else Enabled(s, Advance(t)) && Advances(Next(s, Advance(t)), t, n - 1, end)
  }

  lemma {:induction false} AdvancesExec<T>(s: State<T>, t: nat, n: nat, end: State<T>)
    requires Advances(s, t, n, end)
    ensures var moves := seq(n, _ => Advance(t)); Executes(s, moves) && Exec(s, moves) == end
    decreases n
  {
    if n > 0 {
      AdvancesExec(Next(s, Advance(t)), t, n - 1, end);
      ExecOne(s, Advance(t), seq(n - 1, _ => Advance(t)));
      var m: Move<T> := Advance(t);
      assert seq(n, _ => m) == [m] + seq(n - 1, _ => m);
      assert seq(n, _ => Advance(t)) == seq(n, _ => m);
      assert seq(n - 1, _ => Advance(t)) == seq(n - 1, _ => m);
    }
  }

  predicate Unlocked<T>(s: State<T>) {
    s.muxQueue == None && s.muxBlocking == None
  }

  /** A whole `PushBack` that nobody interferes with, while the consumer is awake. */
  lemma PushAlone<T>(s: State<T>, p: nat, x: T) returns (s': State<T>)
    requires Unlocked(s) && p in s.pcs && s.pcs[p] == PushWantsQueue(x) && p != CONSUMER
    requires CONSUMER in s.pcs && !s.pcs[CONSUMER].Sleeping?
    ensures Advances(s, p, 6, s')
    ensures s' == At(s, p, Idle).(items := s.items + [x], pushed := s.pushed + [x])
  {
    var s1 := Next(s, Advance(p));
    var s2 := Next(s1, Advance(p));
    var s3 := Next(s2, Advance(p));
    var s4 := Next(s3, Advance(p));
    var s5 := Next(s4, Advance(p));
    s' := Next(s5, Advance(p));
    assert Advances(s4, p, 2, s');
    assert Advances(s2, p, 4, s');
  }

  lemma SeesEmpty<T>(s: State<T>) returns (s': State<T>)
    requires Unlocked(s) && s.items == [] && CONSUMER in s.pcs && s.pcs[CONSUMER] == TestWantsQueue(true)
    ensures Advances(s, CONSUMER, 2, s') && s' == At(s, CONSUMER, SawEmpty)
  {
    s' := Next(Next(s, Advance(CONSUMER)), Advance(CONSUMER));
  }

  lemma FallsAsleep<T>(s: State<T>) returns (s': State<T>)
    requires Unlocked(s) && CONSUMER in s.pcs && s.pcs[CONSUMER] == SawEmpty
    ensures Advances(s, CONSUMER, 2, s') && s' == At(s, CONSUMER, Sleeping)
  {
    s' := Next(Next(s, Advance(CONSUMER)), Advance(CONSUMER));
  }

  /** What is not safe to rely on: a producer can store and notify between the consumer's test and
      its sleep, and then the consumer sleeps on a queue that is not empty. */
  lemma WakeUpCanBeLost<T>(s0: State<T>, producer: nat, x: T) returns (moves: seq<Move<T>>)
    requires Initial(s0) && producer in s0.pcs && producer != CONSUMER
    ensures Executes(s0, moves)
    ensures var s := Exec(s0, moves);
            && s.items == [x] && CONSUMER in s.pcs && s.pcs[CONSUMER].Sleeping?
            && forall t :: t in s.pcs && t != CONSUMER ==> s.pcs[t].Idle?
  {
    var two: seq<Move<T>> := seq(2, _ => Advance(CONSUMER));
    var six: seq<Move<T>> := seq(6, _ => Advance(producer));
    var s1 := Next(s0, StartUpdate);
    var s2 := SeesEmpty(s1);
    var s3 := Next(s2, StartPush(producer, x));
    var s4 := PushAlone(s3, producer, x);
    var s5 := FallsAsleep(s4);
    AdvancesExec(s1, CONSUMER, 2, s2);
    AdvancesExec(s3, producer, 6, s4);
    AdvancesExec(s4, CONSUMER, 2, s5);
    hide Executes, Exec, Advances;
    ExecAppend(s3, six, two);
    ExecOne(s2, StartPush(producer, x), six + two);
    ExecAppend(s1, two, [StartPush(producer, x)] + (six + two));
    ExecOne(s0, StartUpdate, two + ([StartPush(producer, x)] + (six + two)));
    moves := [StartUpdate] + (two + ([StartPush(producer, x)] + (six + two)));
  }

  // ---------------------------------------------------------------- exactly when a wake-up is lost

  /** A producer that has stored its element and has not notified yet. */
  predicate Notifier<T>(pc: Pc<T>) {
    pc.PushWantsBlocking? || pc.PushHasBoth?
  }

  predicate NotifierPending<T>(s: State<T>) {
    exists t :: t in s.pcs && Notifier(s.pcs[t])
  }

  /** The consumer has seen the queue empty and has not been woken since. */
  predicate OnTheWayToSleep<T>(pc: Pc<T>) {
    pc.SawEmpty? || pc.WaitHasBlocking? || pc.Sleeping?
  }

  /** The consumer is asleep, or about to be, on a queue that is not empty, and nobody is going to
      notify it of what is there. */
  predicate Doomed<T(==)>(s: State<T>) {
    CONSUMER in s.pcs && OnTheWayToSleep(s.pcs[CONSUMER]) && s.items != [] && !NotifierPending(s)
  }

  /** A notification between the consumer's test and its lock: there is nobody to wake yet. */
  predicate Missed<T>(s: State<T>, m: Move<T>) {
    && m.Advance? && m.t in s.pcs && s.pcs[m.t].PushHasBoth?
    && CONSUMER in s.pcs && s.pcs[CONSUMER].SawEmpty?
  }

  /** From its store to its last unlock a producer keeps the consumer from popping. */
  predicate StoredOk<T(==)>(s: State<T>) {
    forall t :: t in s.pcs && (Notifier(s.pcs[t]) || s.pcs[t].PushNotified? || s.pcs[t].PushHasReleased?) ==>
      s.items != []
  }

  predicate AllOk<T(==)>(s: State<T>) {
    LocksOk(s) && HistoryOk(s) && StoredOk(s)
  }

  lemma NextKeepsStored<T>(s: State<T>, m: Move<T>)
    requires LocksOk(s) && StoredOk(s) && Enabled(s, m)
    ensures StoredOk(Next(s, m))
  {
    if m.Advance? && s.pcs[m.t].PopHasQueue? {
      assert HoldsQueue(s.pcs[m.t]);
    }
  }

  lemma NextKeepsAllOk<T>(s: State<T>, m: Move<T>)
    requires AllOk(s) && Enabled(s, m)
    ensures AllOk(Next(s, m))
  {
    NextKeepsLocks(s, m);
    NextKeepsHistory(s, m);
    NextKeepsStored(s, m);
  }

  /** Only one producer can be a notifier, because it holds `muxQueue`. */
  lemma NotifierHolds<T>(s: State<T>)
    requires LocksOk(s)
    ensures NotifierPending(s) <==>
              s.muxQueue.Some? && Notifier(s.pcs[s.muxQueue.value])
  {
  }

  /** Who has `muxQueue`, as far as notifications are concerned. */
  function HolderPc<T>(s: State<T>): Option<Pc<T>> {
    if s.muxQueue.Some? && s.muxQueue.value in s.pcs then Some(s.pcs[s.muxQueue.value]) else None
  }

  lemma DoomedIs<T>(s: State<T>)
    requires LocksOk(s)
    ensures Doomed(s) <==> OnTheWayToSleep(s.pcs[CONSUMER]) && s.items != []
                           && !(HolderPc(s).Some? && Notifier(HolderPc(s).value))
  {
    NotifierHolds(s);
    hide NotifierPending;
  }

  lemma ProducerDooms<T>(s: State<T>, t: nat)
    requires AllOk(s) && Enabled(s, Advance(t)) && t != CONSUMER && !Doomed(s)
    ensures Doomed(Next(s, Advance(t))) <==> Missed(s, Advance(t))
  {
    var s' := Next(s, Advance(t));
    NextKeepsLocks(s, Advance(t));
    DoomedIs(s);
    DoomedIs(s');
    assert HoldsQueue(s.pcs[t]) <==> s.muxQueue == Some(t);
    assert HoldsBlocking(s.pcs[t]) ==> !HoldsBlocking(s.pcs[CONSUMER]);
    assert Notifier(s.pcs[t]) ==> s.items != [];
    hide LocksOk, HistoryOk, StoredOk, Doomed;
  }

  lemma ConsumerDooms<T>(s: State<T>)
    requires AllOk(s) && Enabled(s, Advance(CONSUMER)) && !Doomed(s)
    ensures !Doomed(Next(s, Advance(CONSUMER)))
  {
    var s' := Next(s, Advance(CONSUMER));
    NextKeepsLocks(s, Advance(CONSUMER));
    DoomedIs(s);
    DoomedIs(s');
    assert ProducerPc(s.pcs[CONSUMER]) <==> false;
    assert HoldsQueue(s.pcs[CONSUMER]) <==> s.muxQueue == Some(CONSUMER);
    hide LocksOk, HistoryOk, StoredOk, Doomed;
  }

  lemma StartDooms<T>(s: State<T>, m: Move<T>)
    requires AllOk(s) && Enabled(s, m) && !m.Advance? && !Doomed(s)
    ensures !Doomed(Next(s, m))
  {
    var s' := Next(s, m);
    NextKeepsLocks(s, m);
    DoomedIs(s);
    DoomedIs(s');
    assert m.StartPush? ==> m.t != CONSUMER && s.muxQueue != Some(m.t);
    assert !m.StartPush? ==> s.muxQueue != Some(CONSUMER);
    hide LocksOk, HistoryOk, StoredOk, Doomed;
  }

  /** The consumer becomes doomed by a missed notification, and by nothing else. */
  lemma DoomedByMissing<T>(s: State<T>, m: Move<T>)
    requires AllOk(s) && Enabled(s, m) && !Doomed(s)
    ensures Doomed(Next(s, m)) <==> Missed(s, m)
  {
    hide Doomed, Enabled, Next, AllOk;
    if !m.Advance? {
      StartDooms(s, m);
    } else if m.t == CONSUMER {
      ConsumerDooms(s);
      assert !Missed(s, m) by { ConsumerMissesNothing(s); }
    } else {
      ProducerDooms(s, m.t);
    }
  }

  lemma ConsumerMissesNothing<T>(s: State<T>)
    requires AllOk(s)
    ensures !Missed(s, Advance(CONSUMER))
  {
  }

  predicate NoneMissed<T>(s: State<T>, moves: seq<Move<T>>)
    requires Executes(s, moves)
    decreases |moves|
  {
    moves == [] || (!Missed(s, moves[0]) && NoneMissed(Next(s, moves[0]), moves[1..]))
  }

  predicate NeverDoomed<T(==)>(s: State<T>, moves: seq<Move<T>>)
    requires Executes(s, moves)
    decreases |moves|
  {
    !Doomed(s) && (moves == [] || NeverDoomed(Next(s, moves[0]), moves[1..]))
  }

  lemma {:induction false} RunKeepsWakeUps<T>(s: State<T>, moves: seq<Move<T>>)
    requires AllOk(s) && !Doomed(s) && Executes(s, moves)
    ensures NeverDoomed(s, moves) <==> NoneMissed(s, moves)
    decreases |moves|
  {
    hide Doomed, Enabled, Next, AllOk, Missed;
    if moves != [] {
      DoomedByMissing(s, moves[0]);
      NextKeepsAllOk(s, moves[0]);
      if !Missed(s, moves[0]) {
        RunKeepsWakeUps(Next(s, moves[0]), moves[1..]);
      }
    }
  }

  lemma InitialOk<T>(s: State<T>)
    requires Initial(s)
    ensures AllOk(s) && !Doomed(s)
  {
  }

  /** Exactly when wake-ups are kept: along any run the consumer is never asleep, or on its way to
      sleep, on a queue that is not empty with nobody about to notify it, if and only if no
      notification of the run falls between the consumer's test and its lock. */
  lemma WakeUpsKeptIff<T>(s0: State<T>, moves: seq<Move<T>>)
    requires Initial(s0) && Executes(s0, moves)
    ensures NeverDoomed(s0, moves) <==> NoneMissed(s0, moves)
  {
    InitialOk(s0);
    RunKeepsWakeUps(s0, moves);
  }

  // ---------------------------------------------------------------- what a lost wake-up leads to

  /** Asleep on a queue that is not empty, and nobody about to notify. */
  predicate Lost<T(==)>(s: State<T>) {
    Doomed(s) && s.pcs[CONSUMER].Sleeping?
  }

  /** A step that neither stores nor notifies, nor wakes the consumer without a reason. */
  predicate QuietMove<T>(s: State<T>, m: Move<T>) {
    && m.Advance? && m.t in s.pcs
    && !s.pcs[m.t].PushHasQueue? && !s.pcs[m.t].PushHasBoth?
  }

  predicate QuietRun<T>(s: State<T>, moves: seq<Move<T>>)
    requires Executes(s, moves)
    decreases |moves|
  {
    moves == [] || (QuietMove(s, moves[0]) && QuietRun(Next(s, moves[0]), moves[1..]))
  }

  lemma QuietOne<T>(s: State<T>, m: Move<T>, rest: seq<Move<T>>)
    requires Enabled(s, m) && QuietMove(s, m) && Executes(Next(s, m), rest) && QuietRun(Next(s, m), rest)
    ensures Executes(s, [m] + rest) && QuietRun(s, [m] + rest) && Exec(s, [m] + rest) == Exec(Next(s, m), rest)
  {
    ExecOne(s, m, rest);
    assert ([m] + rest)[1..] == rest;
    hide Enabled, Next, QuietMove;
  }

  /** The producer that stands between the consumer and its lock can only be on its way out. */
  lemma DoomedBlocker<T>(s: State<T>)
    requires AllOk(s) && Doomed(s) && s.pcs[CONSUMER].SawEmpty? && s.muxBlocking.Some?
    ensures var t := s.muxBlocking.value;
            && t in s.pcs && t != CONSUMER && s.pcs[t].PushNotified?
            && Enabled(s, Advance(t)) && QuietMove(s, Advance(t))
            && Next(s, Advance(t)).muxBlocking == None
            && Next(s, Advance(t)).pcs[CONSUMER].SawEmpty?
  {
    var t := s.muxBlocking.value;
    assert Notifier(s.pcs[t]) ==> NotifierPending(s);
  }

  /** From a doomed state steps that store nothing and notify nobody put the consumer to sleep. */
  lemma {:induction false} DoomedSleeps<T>(s: State<T>) returns (more: seq<Move<T>>)
    requires AllOk(s) && Doomed(s)
    ensures Executes(s, more) && QuietRun(s, more) && Lost(Exec(s, more))
    ensures Exec(s, more).items == s.items
    decreases if s.pcs[CONSUMER].SawEmpty? then 2 else if s.pcs[CONSUMER].WaitHasBlocking? then 1 else 0,
      if s.muxBlocking.Some? then 1 else 0
  {
    if s.pcs[CONSUMER].Sleeping? {
      more := [];
    } else {
      var t := CONSUMER;
      if s.pcs[CONSUMER].SawEmpty? && s.muxBlocking.Some? {
        DoomedBlocker(s);
        t := s.muxBlocking.value;
      }
      QuietKeepsDoomed(s, t);
      NextKeepsAllOk(s, Advance(t));
      var rest := DoomedSleeps(Next(s, Advance(t)));
      QuietOne(s, Advance(t), rest);
      more := [Advance(t)] + rest;
    }
  }

  lemma QuietKeepsDoomed<T>(s: State<T>, t: nat)
    requires AllOk(s) && Doomed(s) && Enabled(s, Advance(t)) && QuietMove(s, Advance(t))
    ensures Doomed(Next(s, Advance(t))) && Next(s, Advance(t)).items == s.items
  {
    var s' := Next(s, Advance(t));
    NextKeepsLocks(s, Advance(t));
    DoomedIs(s);
    DoomedIs(s');
    assert HoldsQueue(s.pcs[t]) <==> s.muxQueue == Some(t);
    assert ProducerPc(s.pcs[t]) <==> t != CONSUMER;
    hide LocksOk, HistoryOk, StoredOk, Doomed;
  }

  /** A missed notification is a lost wake-up: from the state after it, in any run, steps that store
      nothing and notify nobody leave the consumer asleep on what was stored. */
  lemma MissedIsLost<T>(s0: State<T>, moves: seq<Move<T>>, m: Move<T>) returns (more: seq<Move<T>>)
    requires Initial(s0) && Executes(s0, moves)
    requires Enabled(Exec(s0, moves), m) && Missed(Exec(s0, moves), m)
    ensures var s := Next(Exec(s0, moves), m);
            Executes(s, more) && QuietRun(s, more) && Lost(Exec(s, more)) && Exec(s, more).items == s.items != []
  {
    InitialOk(s0);
    ExecKeepsAllOk(s0, moves);
    var s := Exec(s0, moves);
    NextKeepsAllOk(s, m);
    MissedDooms(s, m);
    more := DoomedSleeps(Next(s, m));
  }

  lemma {:induction false} ExecKeepsAllOk<T>(s: State<T>, moves: seq<Move<T>>)
    requires AllOk(s) && Executes(s, moves)
    ensures AllOk(Exec(s, moves))
    decreases |moves|
  {
    hide Enabled, Next, AllOk;
    if moves != [] {
      NextKeepsAllOk(s, moves[0]);
      ExecKeepsAllOk(Next(s, moves[0]), moves[1..]);
    }
  }

  lemma MissedDooms<T>(s: State<T>, m: Move<T>)
    requires AllOk(s) && Enabled(s, m) && Missed(s, m)
    ensures Doomed(Next(s, m))
  {
    NotifierIsOne(s, m.t);
    DoomedByMissing(s, m);
  }

  lemma NotifierIsOne<T>(s: State<T>, t: nat)
    requires t in s.pcs && Notifier(s.pcs[t])
    ensures !Doomed(s)
  {
  }
}
