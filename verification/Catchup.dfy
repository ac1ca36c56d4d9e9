/** The catchup subscriber's completion protocol: main takes the historical batch, then
    hands over to listener callbacks, and whoever sees the last live flag says so. */
module Catchup {
  import opened Base

  type Tid = nat

  /** `historical` and `live` samples, any number of callbacks besides main, which is
      thread 0. `recheck`: main looks once more after installing the listener.
      `deferred`: a callback reports only after its own take loop is over. */
  datatype Config = Config(historical: nat, live: nat, callbacks: nat, recheck: bool, deferred: bool)

  /** Taking to Drained is takeAvailable, its result `done` being becameDone; Returning
      leaves the callback that called it. Testing reads the
      live flags one at a time, Counting the historical ones. */
  datatype Pc =
    | Idle
    | Taking(done: bool)
    | Recording(n: nat, done: bool)
    | Asking(done: bool)
    | Confirmed(done: bool)
    | Testing(i: nat, done: bool)
    | Drained(done: bool)
    | Returning
    | AwaitHistory
    | Counting(i: nat, n: nat)
    | Confirming
    | Attaching
    | Rechecking(i: nat)
    | Polling
    | Deleting
    | Finished
    | Failed

  /** The flags the threads share, and the reader's queue. `reporters`: callbacks that
      have stored true into `allDone` and not returned yet; no step looks at it. */
  datatype Memory = Memory(
    queue: seq<nat>,
    arrived: set<nat>,
    hist: set<nat>,
    live: set<nat>,
    confirmed: bool,
    attached: bool,
    allDone: bool,
    reporters: set<Tid>)

  datatype State = State(threads: seq<Pc>, m: Memory)

  datatype Action = Arrive(n: nat) | Dispatch(t: Tid) | Advance(t: Tid, skip: bool)

  function Init(c: Config): State {
    State([AwaitHistory] + seq(c.callbacks, i requires 0 <= i < c.callbacks => Idle),
          Memory([], {}, {}, {}, false, false, false, {}))
  }

  predicate AllHistory(c: Config, arrived: set<nat>) {
    forall n :: 0 <= n < c.historical ==> n in arrived
  }

  predicate AllLive(c: Config, live: set<nat>) {
    forall i :: 0 <= i < c.live ==> i in live
  }

  /** A callback stores true into `allDone`. */
  function Report(m: Memory, t: Tid): Memory {
    m.(allDone := true, reporters := m.reporters + {t})
  }

  /** take(): a sample without data is skipped, and a deleted reader has none. */
  function Take(m: Memory, done: bool, gone: bool, skip: bool): (Pc, Memory) {
    if skip then (Taking(done), m)
    else if m.queue == [] || gone then (Drained(done), m)
    else (Recording(m.queue[0], done), m.(queue := m.queue[1..]))
  }

  function Record(c: Config, m: Memory, n: nat, done: bool): (Pc, Memory) {
    if n < c.historical then (Taking(done), m.(hist := m.hist + {n}))
    else if n < c.historical + c.live then (Asking(done), m.(live := m.live + {n - c.historical}))
    else (Failed, m)
  }

  /** The next step of takeAvailable by thread `t`, from `pc`. */
  function TakerNext(c: Config, t: Tid, pc: Pc, m: Memory, gone: bool, skip: bool): Option<(Pc, Memory)> {
    match pc
    case Taking(done) => Some(Take(m, done, gone, skip))
    case Recording(n, done) => Some(Record(c, m, n, done))
    case Asking(done) => Some((if m.allDone || done then Taking(done) else Confirmed(done), m))
    case Confirmed(done) => Some((if m.confirmed then Testing(0, done) else Taking(done), m))
    case Testing(i, done) =>
      Some(if i >= c.live then (Taking(true), if c.deferred || t == 0 then m else Report(m, t))
           else (if i in m.live then Testing(i + 1, done) else Taking(done), m))
    case Drained(done) =>
      Some(if t == 0 then (Counting(0, 0), m) else (Returning, if done then Report(m, t) else m))
    case Returning => Some((Idle, m.(reporters := m.reporters - {t})))
    case _ => None
  }

  /** The next step of main, outside takeAvailable. */
  function MainNext(c: Config, pc: Pc, m: Memory): Option<(Pc, Memory)> {
    match pc
    case AwaitHistory => if AllHistory(c, m.arrived) then Some((Taking(false), m)) else None
    case Counting(i, n) =>
      Some((if i < c.historical then Counting(i + 1, if i in m.hist then n + 1 else n)
            else if n == c.historical then Confirming else Failed, m))
    case Confirming => Some((Attaching, m.(confirmed := true)))
    case Attaching => Some((if c.recheck then Rechecking(0) else Polling, m.(attached := true)))
    case Rechecking(i) =>
      Some(if i >= c.live then (Polling, m.(allDone := true))
           else (if i in m.live then Rechecking(i + 1) else Polling, m))
    case Polling => Some((if m.allDone then Deleting else Polling, m))
    case Deleting => Some((Finished, m))
    case _ => None
  }

  /** A place only main can be in. */
  predicate Main(pc: Pc) {
    pc.AwaitHistory? || pc.Counting? || pc.Confirming? || pc.Attaching? || pc.Rechecking? || pc.Polling? || pc.Deleting?
    || pc.Finished?
  }

  function Next(c: Config, t: Tid, pc: Pc, m: Memory, gone: bool, skip: bool): Option<(Pc, Memory)> {
    if !Main(pc) then TakerNext(c, t, pc, m, gone, skip) else if t == 0 then MainNext(c, pc, m) else None
  }

  predicate Gone(threads: seq<Pc>) {
    |threads| > 0 && threads[0].Finished?
  }

  function Step(c: Config, s: State, a: Action): Option<State> {
    match a
    case Arrive(n) =>
      if n < c.historical + c.live && n !in s.m.arrived
      then Some(s.(m := s.m.(queue := s.m.queue + [n], arrived := s.m.arrived + {n}))) else None
    case Dispatch(t) =>
      if 0 < t < |s.threads| && s.threads[t].Idle? && s.m.attached
      then Some(s.(threads := s.threads[t := Taking(false)])) else None
    case Advance(t, skip) =>
      if t >= |s.threads| then None
      else
        var next := Next(c, t, s.threads[t], s.m, Gone(s.threads), skip);
        if next.None? then None else Some(State(s.threads[t := next.value.0], next.value.1))
  }

  function Run(c: Config, acts: seq<Action>): Option<State> {
    if acts == [] then Some(Init(c))
    else
      var before := Run(c, acts[..|acts| - 1]);
      if before.None? then None else Step(c, before.value, acts[|acts| - 1])
  }

  // ---- No false signal --------------------------------------------------------------

  /** Main has not confirmed the historical batch yet. */
  predicate Early(pc: Pc) {
    !pc.Attaching? && !pc.Rechecking? && !pc.Polling? && !pc.Deleting? && !pc.Finished?
  }

  /** What a thread's place says about the flags it has read. */
  predicate Knows(c: Config, t: Tid, pc: Pc, m: Memory) {
    match pc
    case Testing(i, done) => m.confirmed && !done && forall j :: 0 <= j < i && j < c.live ==> j in m.live
    case Rechecking(i) => t == 0 && m.confirmed && forall j :: 0 <= j < i && j < c.live ==> j in m.live
    case Counting(i, n) => t == 0 && i <= c.historical && n <= i && (n == i ==> forall j :: 0 <= j < i ==> j in m.hist)
    case Confirming => t == 0 && AllHistory(c, m.hist)
    case Attaching => t == 0 && m.confirmed
    case Confirmed(done) => !done
    case _ => (Done(pc) ==> m.confirmed && AllLive(c, m.live)) && (Main(pc) ==> t == 0)
  }

  /** The thread has seen every live flag set and not reported it. */
  predicate Done(pc: Pc) {
    match pc
    case Taking(done) => done
    case Recording(_, done) => done
    case Asking(done) => done
    case Drained(done) => done
    case _ => false
  }

  ghost predicate Believed(c: Config, m: Memory) {
    && (m.confirmed ==> AllHistory(c, m.hist))
    && (m.allDone ==> m.confirmed && AllLive(c, m.live))
  }

  /** Flags are only ever set. */
  predicate Grows(m: Memory, m': Memory) {
    m.hist <= m'.hist && m.live <= m'.live && (m.confirmed ==> m'.confirmed)
  }

  ghost predicate Sound(c: Config, s: State) {
    Believed(c, s.m) && forall t :: 0 <= t < |s.threads| ==> Knows(c, t, s.threads[t], s.m)
  }

  lemma TakerSound(c: Config, t: Tid, pc: Pc, m: Memory, gone: bool, skip: bool)
    requires Knows(c, t, pc, m) && Believed(c, m) && !Main(pc) && TakerNext(c, t, pc, m, gone, skip).Some?
    ensures var (pc', m') := TakerNext(c, t, pc, m, gone, skip).value;
            Knows(c, t, pc', m') && Believed(c, m')
  {
    match pc
    case Testing(i, done) =>
    case Recording(n, done) => RecordSound(c, m, n, done);
    case _ =>
  }

  lemma RecordSound(c: Config, m: Memory, n: nat, done: bool)
    requires Believed(c, m) && (done ==> m.confirmed && AllLive(c, m.live))
    ensures var (pc, m') := Record(c, m, n, done);
            Believed(c, m') && m'.confirmed == m.confirmed && (AllLive(c, m.live) ==> AllLive(c, m'.live))
  {
  }

  lemma MainSound(c: Config, pc: Pc, m: Memory)
    requires Knows(c, 0, pc, m) && Believed(c, m) && Main(pc) && MainNext(c, pc, m).Some?
    ensures var (pc', m') := MainNext(c, pc, m).value; Knows(c, 0, pc', m') && Believed(c, m')
  {
    match pc
    case Counting(i, n) =>
    case Rechecking(i) =>
    case _ =>
  }

  lemma NextSound(c: Config, t: Tid, pc: Pc, m: Memory, gone: bool, skip: bool)
    requires Knows(c, t, pc, m) && Believed(c, m) && Next(c, t, pc, m, gone, skip).Some?
    ensures var (pc', m') := Next(c, t, pc, m, gone, skip).value;
            Knows(c, t, pc', m') && Grows(m, m') && Believed(c, m')
  {
    NextGrows(c, t, pc, m, gone, skip);
    if Main(pc) { MainSound(c, pc, m); } else { TakerSound(c, t, pc, m, gone, skip); }
  }

  lemma NextGrows(c: Config, t: Tid, pc: Pc, m: Memory, gone: bool, skip: bool)
    requires Next(c, t, pc, m, gone, skip).Some?
    ensures Grows(m, Next(c, t, pc, m, gone, skip).value.1)
  {
  }

  lemma KnowsMore(c: Config, t: Tid, pc: Pc, m: Memory, m': Memory)
    requires Knows(c, t, pc, m) && Grows(m, m')
    ensures Knows(c, t, pc, m')
  {
  }

  lemma StepSound(c: Config, s: State, a: Action, s': State)
    requires Sound(c, s) && Step(c, s, a) == Some(s')
    ensures Sound(c, s')
  {
    if a.Advance? { NextSound(c, a.t, s.threads[a.t], s.m, Gone(s.threads), a.skip); }
    forall u | 0 <= u < |s'.threads| ensures Knows(c, u, s'.threads[u], s'.m) {
      if s'.threads[u] == s.threads[u] { KnowsMore(c, u, s.threads[u], s.m, s'.m); }
    }
  }

  // ---- No lost signal -----------------------------------------------------------------

  ghost predicate InHand(threads: seq<Pc>, n: nat) {
    exists t :: 0 <= t < |threads| && threads[t].Recording? && threads[t].n == n
  }

  predicate Recorded(c: Config, m: Memory, n: nat) {
    if n < c.historical then n in m.hist else n - c.historical in m.live
  }

  /** Where a sample that has arrived can be. */
  ghost predicate Placed(c: Config, threads: seq<Pc>, m: Memory, n: nat) {
    n in m.queue || InHand(threads, n) || Recorded(c, m, n)
  }

  ghost predicate Complete(c: Config, threads: seq<Pc>, m: Memory) {
    && (forall n :: n in m.arrived ==> n < c.historical + c.live && Placed(c, threads, m, n))
    && (forall n :: n in m.queue ==> n in m.arrived)
    && (forall t :: 0 <= t < |threads| && threads[t].Recording? ==> threads[t].n in m.arrived)
  }

  /** What main's place says; until the listener is there main alone takes. */
  ghost predicate Stage(c: Config, threads: seq<Pc>, m: Memory) {
    && |threads| == c.callbacks + 1 && (m.confirmed <==> !Early(threads[0]))
    && (m.attached <==> !Early(threads[0]) && !threads[0].Attaching?)
    && (!m.attached ==> forall t :: 1 <= t < |threads| ==> threads[t].Idle?)
    && (!threads[0].AwaitHistory? ==> AllHistory(c, m.arrived))
    && (threads[0].Drained? || threads[0].Counting? ==> AllHistory(c, m.hist))
    && (threads[0].Counting? ==> threads[0].n == threads[0].i <= c.historical)
    && !threads[0].Idle? && !threads[0].Returning? && forall t :: 0 <= t < |threads| ==> !threads[t].Failed?
  }

  /** What a step does to the queue and to the sample in the thread's hand. */
  lemma NextMoves(c: Config, t: Tid, pc: Pc, m: Memory, gone: bool, skip: bool)
    requires Next(c, t, pc, m, gone, skip).Some?
    ensures var (pc', m') := Next(c, t, pc, m, gone, skip).value;
            && m'.arrived == m.arrived && Grows(m, m')
            && (m'.queue == m.queue || (m.queue != [] && m'.queue == m.queue[1..] && !pc.Recording?))
            && (pc'.Recording? <==> m'.queue != m.queue) && (pc'.Recording? ==> pc'.n == m.queue[0])
            && (pc.Recording? && pc.n < c.historical + c.live ==> Recorded(c, m', pc.n))
  {
    NextGrows(c, t, pc, m, gone, skip);
  }

  lemma PlacedKept(c: Config, threads: seq<Pc>, m: Memory, t: Tid, pc: Pc, m': Memory, n: nat)
    requires t < |threads| && Placed(c, threads, m, n) && Grows(m, m')
    requires m'.queue == m.queue || (m.queue != [] && m'.queue == m.queue[1..] && pc.Recording? && pc.n == m.queue[0])
    requires threads[t].Recording? && threads[t].n == n ==> Recorded(c, m', n)
    ensures Placed(c, threads[t := pc], m', n)
  {
    if InHand(threads, n) && !(threads[t].Recording? && threads[t].n == n) {
      var u :| 0 <= u < |threads| && threads[u].Recording? && threads[u].n == n;
      assert threads[t := pc][u] == threads[u];
    } else if n in m.queue && n !in m'.queue {
      assert n == m.queue[0] && threads[t := pc][t].Recording?;
    }
  }

  lemma NextComplete(c: Config, threads: seq<Pc>, m: Memory, t: Tid, gone: bool, skip: bool)
    requires t < |threads| && Complete(c, threads, m) && Next(c, t, threads[t], m, gone, skip).Some?
    ensures var (pc', m') := Next(c, t, threads[t], m, gone, skip).value; Complete(c, threads[t := pc'], m')
  {
    var (pc', m') := Next(c, t, threads[t], m, gone, skip).value;
    NextMoves(c, t, threads[t], m, gone, skip);
    MovedComplete(c, threads, m, t, pc', m');
  }

  lemma MovedComplete(c: Config, threads: seq<Pc>, m: Memory, t: Tid, pc: Pc, m': Memory)
    requires t < |threads| && Complete(c, threads, m) && m'.arrived == m.arrived && Grows(m, m')
    requires m'.queue == m.queue || (m.queue != [] && m'.queue == m.queue[1..])
    requires pc.Recording? <==> m'.queue != m.queue
    requires pc.Recording? ==> pc.n == m.queue[0]
    requires threads[t].Recording? ==> Recorded(c, m', threads[t].n)
    ensures Complete(c, threads[t := pc], m')
  {
    forall n | n in m'.arrived ensures Placed(c, threads[t := pc], m', n) {
      PlacedKept(c, threads, m, t, pc, m', n);
    }
  }

  lemma StepComplete(c: Config, s: State, a: Action, s': State)
    requires Complete(c, s.threads, s.m) && Step(c, s, a) == Some(s')
    ensures Complete(c, s'.threads, s'.m)
  {
    match a
    case Arrive(x) =>
      assert s'.m.queue[|s.m.queue|] == x;
      forall n | n in s'.m.arrived ensures Placed(c, s'.threads, s'.m, n) {
        assert n != x ==> Placed(c, s.threads, s.m, n);
      }
    case Dispatch(t) =>
      forall n | n in s'.m.arrived ensures Placed(c, s'.threads, s'.m, n) {
        if InHand(s.threads, n) {
          var u :| 0 <= u < |s.threads| && s.threads[u].Recording? && s.threads[u].n == n;
          assert s'.threads[u] == s.threads[u];
        }
      }
    case Advance(t, skip) => NextComplete(c, s.threads, s.m, t, Gone(s.threads), skip);
  }

  /** When main alone takes and finds nothing more, every arrived sample is recorded. */
  lemma MainDrained(c: Config, threads: seq<Pc>, m: Memory)
    requires Complete(c, threads, m) && Stage(c, threads, m) && threads[0].Taking? && m.queue == []
    ensures AllHistory(c, m.hist)
  {
    forall n | 0 <= n < c.historical ensures n in m.hist {
      assert Placed(c, threads, m, n);
    }
  }

  lemma StepStage(c: Config, s: State, a: Action, s': State)
    requires Complete(c, s.threads, s.m) && Stage(c, s.threads, s.m) && Sound(c, s) && Step(c, s, a) == Some(s')
    ensures Stage(c, s'.threads, s'.m)
  {
    if a.Advance? {
      if a.t == 0 { MainStage(c, s, a.skip, s'); } else { TakerStage(c, s, a.t, a.skip, s'); }
    }
  }

  lemma MainStage(c: Config, s: State, skip: bool, s': State)
    requires Complete(c, s.threads, s.m) && Stage(c, s.threads, s.m) && Step(c, s, Advance(0, skip)) == Some(s')
    ensures Stage(c, s'.threads, s'.m)
  {
    var pc := s.threads[0];
    if pc.Taking? && s.m.queue == [] { MainDrained(c, s.threads, s.m); }
    if pc.Recording? { assert pc.n in s.m.arrived; }
  }

  lemma TakerStage(c: Config, s: State, t: Tid, skip: bool, s': State)
    requires Complete(c, s.threads, s.m) && Stage(c, s.threads, s.m)
    requires 0 < t < |s.threads| && Step(c, s, Advance(t, skip)) == Some(s')
    ensures Stage(c, s'.threads, s'.m)
  {
    if s.threads[t].Recording? { assert s.threads[t].n in s.m.arrived; }
    NextGrows(c, t, s.threads[t], s.m, Gone(s.threads), skip);
  }

  /** A thread that, if every live flag is set, will still report or find it reported. */
  predicate Obliged(c: Config, t: Tid, pc: Pc) {
    || (Early(pc) && t == 0)
    || (pc.Attaching? && c.recheck) || pc.Rechecking?
    || pc.Asking? || pc.Confirmed? || pc.Testing? || Done(pc)
  }

  ghost predicate Someone(c: Config, threads: seq<Pc>) {
    exists t :: 0 <= t < |threads| && Obliged(c, t, threads[t])
  }

  ghost predicate NotLost(c: Config, s: State) {
    AllLive(c, s.m.live) ==> s.m.allDone || Someone(c, s.threads)
  }

  /** With every live flag set an obliged thread stays so until it has been reported,
      unless it finds the batch unconfirmed, and then main is obliged. */
  lemma StaysObliged(c: Config, t: Tid, pc: Pc, m: Memory, gone: bool, skip: bool)
    requires c.recheck && Next(c, t, pc, m, gone, skip).Some? && AllLive(c, m.live)
    requires Obliged(c, t, pc) && (pc.Recording? ==> pc.n < c.historical + c.live)
    ensures var (pc', m') := Next(c, t, pc, m, gone, skip).value;
            m'.allDone || Obliged(c, t, pc') || (pc.Confirmed? && !m.confirmed)
  {
  }

  /** The thread that sets the last live flag is obliged. */
  lemma LastIsObliged(c: Config, t: Tid, pc: Pc, m: Memory, gone: bool, skip: bool)
    requires Next(c, t, pc, m, gone, skip).Some? && Next(c, t, pc, m, gone, skip).value.1.live != m.live
    ensures Obliged(c, t, Next(c, t, pc, m, gone, skip).value.0)
  {
  }

  lemma StepNotLost(c: Config, s: State, a: Action, s': State)
    requires c.recheck && Complete(c, s.threads, s.m) && Stage(c, s.threads, s.m) && NotLost(c, s) && Step(c, s, a) == Some(s')
    ensures NotLost(c, s')
  {
    if AllLive(c, s'.m.live) && !s'.m.allDone {
      if s'.m.live != s.m.live {
        LastIsObliged(c, a.t, s.threads[a.t], s.m, Gone(s.threads), a.skip);
        assert Obliged(c, a.t, s'.threads[a.t]);
      } else {
        KeepsSomeone(c, s, a, s');
      }
    }
  }

  lemma KeepsSomeone(c: Config, s: State, a: Action, s': State)
    requires c.recheck && Complete(c, s.threads, s.m) && Stage(c, s.threads, s.m) && Step(c, s, a) == Some(s')
    requires AllLive(c, s.m.live)
    requires s.m.allDone || Someone(c, s.threads)
    ensures s'.m.allDone || Someone(c, s'.threads)
  {
    if !s.m.allDone {
      var t :| 0 <= t < |s.threads| && Obliged(c, t, s.threads[t]);
      if a.Advance? && a.t == t {
        StaysObliged(c, t, s.threads[t], s.m, Gone(s.threads), a.skip);
        if s.threads[t].Confirmed? && !s.m.confirmed {
          assert Early(s'.threads[0]);
          assert Obliged(c, 0, s'.threads[0]);
        } else if !s'.m.allDone {
          assert Obliged(c, t, s'.threads[t]);
        }
      } else {
        assert Obliged(c, t, s'.threads[t]);
      }
    }
  }

  lemma {:induction false} RunKeeps(c: Config, acts: seq<Action>)
    requires Run(c, acts).Some?
    ensures var s := Run(c, acts).value;
            Sound(c, s) && Complete(c, s.threads, s.m) && Stage(c, s.threads, s.m) && (c.recheck ==> NotLost(c, s))
  {
    if acts == [] {
      assert Obliged(c, 0, Init(c).threads[0]);
    } else {
      var before, a := acts[..|acts| - 1], acts[|acts| - 1];
      RunKeeps(c, before);
      var s, s' := Run(c, before).value, Run(c, acts).value;
      StepSound(c, s, a, s');
      StepComplete(c, s, a, s');
      StepStage(c, s, a, s');
      if c.recheck { StepNotLost(c, s, a, s'); }
    }
  }

  // ---- Main results -------------------------------------------------------------------

  /** Completion is never reported early: every historical and every live flag is set. */
  lemma {:induction false} NoFalseSignal(c: Config, acts: seq<Action>, s: State)
    requires Run(c, acts) == Some(s) && s.m.allDone
    ensures AllHistory(c, s.m.hist) && AllLive(c, s.m.live)
  {
    RunKeeps(c, acts);
  }

  /** Once the wait has returned, main's count finds the whole historical batch. */
  lemma {:induction false} NoShortfall(c: Config, acts: seq<Action>, s: State)
    requires Run(c, acts) == Some(s)
    ensures forall t :: 0 <= t < |s.threads| ==> !s.threads[t].Failed?
  {
    RunKeeps(c, acts);
  }

  /** Every sample has arrived and been taken, no callback is running, and main is past
      its recheck. */
  ghost predicate Settled(c: Config, s: State) {
    && (forall n :: 0 <= n < c.historical + c.live ==> n in s.m.arrived) && s.m.queue == []
    && |s.threads| > 0 && (s.threads[0].Polling? || s.threads[0].Deleting? || s.threads[0].Finished?)
    && (forall t :: 1 <= t < |s.threads| ==> s.threads[t].Idle?)
  }

  /** However the live samples were split between main's take and the callbacks, once
      things have settled completion has been reported. */
  lemma {:induction false} NoLostSignal(c: Config, acts: seq<Action>, s: State)
    requires c.recheck && Run(c, acts) == Some(s) && Settled(c, s)
    ensures s.m.allDone
  {
    RunKeeps(c, acts);
    SettledIsComplete(c, s);
    assert forall t :: 0 <= t < |s.threads| ==> !Obliged(c, t, s.threads[t]);
  }

  lemma SettledIsComplete(c: Config, s: State)
    requires Complete(c, s.threads, s.m) && Settled(c, s)
    ensures AllLive(c, s.m.live)
  {
    forall i | 0 <= i < c.live ensures i in s.m.live {
      assert Placed(c, s.threads, s.m, c.historical + i);
    }
  }

  // ---- Runs that go wrong ---------------------------------------------------------------

  function Upto(n: nat): (r: set<nat>)
    ensures forall i: nat :: i in r <==> i < n
  {
    if n == 0 then {} else Upto(n - 1) + {n - 1}
  }

  function From(j: nat, k: nat): seq<nat>
    decreases k - j
  {
    if k <= j then [] else [j] + From(j + 1, k)
  }

  function Less(a: nat, b: nat): nat {
    if a < b then a else b
  }

  function Minus(a: nat, b: nat): nat {
    if a < b then 0 else a - b
  }

  /** Main at `pc`, no callback running. */
  function MainAt(c: Config, pc: Pc, m: Memory): State {
    State(Init(c).threads[0 := pc], m)
  }

  /** The first `k` samples have arrived, `j` of them are recorded. */
  function Before(c: Config, j: nat, k: nat): Memory {
    Memory(From(j, k), Upto(k), Upto(Less(j, c.historical)), Upto(Minus(j, c.historical)), false, false, false, {})
  }

  lemma MainSteps(c: Config, acts: seq<Action>, pc: Pc, m: Memory, pc': Pc, m': Memory) returns (more: seq<Action>)
    requires Run(c, acts) == Some(MainAt(c, pc, m)) && Next(c, 0, pc, m, pc.Finished?, false) == Some((pc', m'))
    ensures Run(c, more) == Some(MainAt(c, pc', m'))
  {
    var s, s' := MainAt(c, pc, m), MainAt(c, pc', m');
    assert s'.threads == s.threads[0 := pc'];
    more := Then(c, acts, s, Advance(0, false), s');
  }

  lemma {:induction false} FromGrows(j: nat, k: nat)
    requires j <= k
    ensures From(j, k + 1) == From(j, k) + [k]
    decreases k - j
  {
    if j < k { FromGrows(j + 1, k); }
  }

  lemma {:induction false} Arrives(c: Config, k: nat) returns (acts: seq<Action>)
    requires k <= c.historical + c.live
    ensures Run(c, acts) == Some(MainAt(c, AwaitHistory, Before(c, 0, k)))
  {
    if k == 0 {
      acts := [];
      assert Init(c) == MainAt(c, AwaitHistory, Before(c, 0, 0));
    } else {
      var before := Arrives(c, k - 1);
      acts := before + [Arrive(k - 1)];
      assert acts[..|before|] == before;
      FromGrows(0, k - 1);
      assert Upto(k) == Upto(k - 1) + {k - 1};
    }
  }

  lemma UptoGrows(c: Config, j: nat)
    ensures j < c.historical ==> Upto(Less(j + 1, c.historical)) == Upto(Less(j, c.historical)) + {j}
    ensures j < c.historical ==> Upto(Minus(j + 1, c.historical)) == Upto(Minus(j, c.historical))
    ensures j >= c.historical ==> Upto(Less(j + 1, c.historical)) == Upto(Less(j, c.historical))
    ensures j >= c.historical ==>
              Upto(Minus(j + 1, c.historical)) == Upto(Minus(j, c.historical)) + {j - c.historical}
  {
  }

  /** Main takes and records sample `j`. */
  lemma Takes(c: Config, acts: seq<Action>, j: nat, k: nat) returns (more: seq<Action>)
    requires j < k <= c.historical + c.live && Run(c, acts) == Some(MainAt(c, Taking(false), Before(c, j, k)))
    ensures Run(c, more) == Some(MainAt(c, Taking(false), Before(c, j + 1, k)))
  {
    var m, m' := Before(c, j, k), Before(c, j + 1, k);
    more := MainSteps(c, acts, Taking(false), m, Recording(j, false), m.(queue := From(j + 1, k)));
    UptoGrows(c, j);
    if j < c.historical {
      more := MainSteps(c, more, Recording(j, false), m.(queue := From(j + 1, k)), Taking(false), m');
    } else {
      more := MainSteps(c, more, Recording(j, false), m.(queue := From(j + 1, k)), Asking(false), m');
      more := MainSteps(c, more, Asking(false), m', Confirmed(false), m');
      more := MainSteps(c, more, Confirmed(false), m', Taking(false), m');
    }
  }

  lemma Awakes(c: Config, k: nat)
    requires c.historical <= k
    ensures var m := Before(c, 0, k); Next(c, 0, AwaitHistory, m, false, false) == Some((Taking(false), m))
  {
  }

  lemma {:induction false} TakesAll(c: Config, j: nat, k: nat) returns (acts: seq<Action>)
    requires j <= k && c.historical <= k <= c.historical + c.live
    ensures Run(c, acts) == Some(MainAt(c, Taking(false), Before(c, j, k)))
  {
    if j == 0 {
      var m := Before(c, 0, k);
      acts := Arrives(c, k);
      Awakes(c, k);
      acts := MainSteps(c, acts, AwaitHistory, m, Taking(false), m);
    } else {
      acts := TakesAll(c, j - 1, k);
      acts := Takes(c, acts, j - 1, k);
    }
  }

  lemma {:induction false} Counts(c: Config, i: nat, k: nat) returns (acts: seq<Action>)
    requires i <= c.historical <= k <= c.historical + c.live
    ensures Run(c, acts) == Some(MainAt(c, Counting(i, i), Before(c, k, k)))
  {
    var m := Before(c, k, k);
    if i == 0 {
      acts := TakesAll(c, k, k);
      acts := MainSteps(c, acts, Taking(false), m, Drained(false), m);
      acts := MainSteps(c, acts, Drained(false), m, Counting(0, 0), m);
    } else {
      acts := Counts(c, i - 1, k);
      acts := MainSteps(c, acts, Counting(i - 1, i - 1), m, Counting(i, i), m);
    }
  }

  /** Main has confirmed the batch with `k` samples recorded, and installed the listener. */
  function After(c: Config, k: nat): Memory {
    Before(c, k, k).(confirmed := true, attached := true)
  }

  lemma Attaches(c: Config, k: nat) returns (acts: seq<Action>)
    requires c.historical <= k <= c.historical + c.live
    ensures Run(c, acts) == Some(MainAt(c, if c.recheck then Rechecking(0) else Polling, After(c, k)))
  {
    var m := Before(c, k, k);
    acts := Counts(c, c.historical, k);
    acts := MainSteps(c, acts, Counting(c.historical, c.historical), m, Confirming, m);
    acts := MainSteps(c, acts, Confirming, m, Attaching, m.(confirmed := true));
    acts := MainSteps(c, acts, Attaching, m.(confirmed := true), if c.recheck then Rechecking(0) else Polling, After(c, k));
  }

  /** A settled state in which nobody has reported. */
  ghost predicate Lost(c: Config, s: State) {
    Settled(c, s) && !s.m.allDone
  }

  lemma LostWithoutRecheck(c: Config)
    requires !c.recheck
    ensures exists acts :: Run(c, acts).Some? && Lost(c, Run(c, acts).value)
  {
    var acts := Attaches(c, c.historical + c.live);
    assert Lost(c, Run(c, acts).value);
  }

  /** Completion is reported in every settled state exactly when main looks once more
      after installing the listener: main may have taken every live sample itself. */
  lemma NeverLostIffRecheck(c: Config)
    ensures c.recheck <==> forall acts :: Run(c, acts).Some? ==> !Lost(c, Run(c, acts).value)
  {
    if c.recheck {
      forall acts | Run(c, acts).Some? ensures !Lost(c, Run(c, acts).value) {
        if Settled(c, Run(c, acts).value) { NoLostSignal(c, acts, Run(c, acts).value); }
      }
    } else {
      LostWithoutRecheck(c);
    }
  }

  /** Inside takeAvailable, where the thread may still take from the reader. */
  predicate InTake(pc: Pc) {
    pc.Taking? || pc.Recording? || pc.Asking? || pc.Confirmed? || pc.Testing? || pc.Drained?
  }

  /** Main has deleted the reader, and a callback that reported completion is still
      inside takeAvailable. */
  ghost predicate OwnRace(s: State) {
    Gone(s.threads) && exists t :: t in s.m.reporters && t < |s.threads| && InTake(s.threads[t])
  }

  /** Whoever has reported is past its take loop, on its way out. */
  ghost predicate ReportersLeave(s: State) {
    forall t :: t in s.m.reporters ==> t < |s.threads| && s.threads[t].Returning?
  }

  /** In the source's design a step makes its thread a reporter only as it leaves its
      loop, and a reporter's next step is its return. */
  lemma NextReports(c: Config, t: Tid, pc: Pc, m: Memory, gone: bool, skip: bool)
    requires c.deferred && Next(c, t, pc, m, gone, skip).Some? && (t in m.reporters ==> pc.Returning?)
    ensures var (pc', m') := Next(c, t, pc, m, gone, skip).value;
            && (t in m'.reporters ==> pc'.Returning?)
            && forall u :: u != t ==> (u in m'.reporters <==> u in m.reporters)
  {
  }

  lemma {:induction false} Deferred(c: Config, acts: seq<Action>, s: State)
    requires c.deferred && Run(c, acts) == Some(s)
    ensures ReportersLeave(s)
  {
    if acts != [] {
      var before, a := acts[..|acts| - 1], acts[|acts| - 1];
      var s0 := Run(c, before).value;
      Deferred(c, before, s0);
      if a.Advance? { NextReports(c, a.t, s0.threads[a.t], s0.m, Gone(s0.threads), a.skip); }
    }
  }

  /** Main has looked at the first `i` live flags and found them set. */
  lemma {:induction false} Rechecks(c: Config, i: nat, k: nat) returns (acts: seq<Action>)
    requires c.recheck && c.historical + i <= k <= c.historical + c.live
    ensures Run(c, acts) == Some(MainAt(c, Rechecking(i), After(c, k)))
  {
    if i == 0 {
      acts := Attaches(c, k);
    } else {
      acts := Rechecks(c, i - 1, k);
      acts := MainSteps(c, acts, Rechecking(i - 1), After(c, k), Rechecking(i), After(c, k));
    }
  }

  /** Main polls, all live samples but the last recorded. */
  lemma Polls(c: Config) returns (acts: seq<Action>)
    requires c.live > 0
    ensures Run(c, acts) == Some(MainAt(c, Polling, After(c, c.historical + c.live - 1)))
  {
    var k := c.historical + c.live - 1;
    if c.recheck {
      acts := Rechecks(c, c.live - 1, k);
      acts := MainSteps(c, acts, Rechecking(c.live - 1), After(c, k), Polling, After(c, k));
    } else {
      acts := Attaches(c, k);
    }
  }

  /** Main at `main` and the first callback at `pc`. */
  function Both(c: Config, main: Pc, pc: Pc, m: Memory): State
    requires c.callbacks > 0
  {
    State(Init(c).threads[0 := main][1 := pc], m)
  }

  lemma CallbackSteps(c: Config, acts: seq<Action>, pc: Pc, m: Memory, pc': Pc, m': Memory) returns (more: seq<Action>)
    requires c.callbacks > 0 && Run(c, acts) == Some(Both(c, Polling, pc, m))
    requires Next(c, 1, pc, m, false, false) == Some((pc', m'))
    ensures Run(c, more) == Some(Both(c, Polling, pc', m'))
  {
    var s, s' := Both(c, Polling, pc, m), Both(c, Polling, pc', m');
    assert s'.threads == s.threads[1 := pc'];
    more := Then(c, acts, s, Advance(1, false), s');
  }

  lemma LastArrives(c: Config) returns (acts: seq<Action>)
    requires c.callbacks > 0 && c.live > 0
    ensures var k := c.historical + c.live - 1;
            Run(c, acts) == Some(Both(c, Polling, Taking(false), After(c, k).(queue := [k], arrived := Upto(k + 1))))
  {
    var k := c.historical + c.live - 1;
    acts := Polls(c);
    var m0 := After(c, k);
    var m := m0.(queue := [k], arrived := Upto(k + 1));
    LastQueued(c, k);
    Comes(c, k, m0, m);
    var s := MainAt(c, Polling, m);
    acts := Then(c, acts, MainAt(c, Polling, m0), Arrive(k), s);
    acts := Then(c, acts, s, Dispatch(1), Both(c, Polling, Taking(false), m));
  }

  lemma Comes(c: Config, k: nat, m0: Memory, m: Memory)
    requires k < c.historical + c.live && k !in m0.arrived
    requires m == m0.(queue := m0.queue + [k], arrived := m0.arrived + {k}) && c.callbacks > 0 && m.attached
    ensures Step(c, MainAt(c, Polling, m0), Arrive(k)) == Some(MainAt(c, Polling, m))
    ensures Step(c, MainAt(c, Polling, m), Dispatch(1)) == Some(Both(c, Polling, Taking(false), m))
  {
  }

  lemma LastQueued(c: Config, k: nat)
    ensures var m := After(c, k); m.queue + [k] == [k] && m.arrived + {k} == Upto(k + 1) && k !in m.arrived
  {
  }

  /** Recording the last sample completes the flags. */
  lemma LastFlag(c: Config, m: Memory)
    requires c.live > 0
    requires var n := c.historical + c.live; m == After(c, n - 1).(queue := [], arrived := Upto(n))
    ensures Record(c, m, c.historical + c.live - 1, false) == (Asking(false), After(c, c.historical + c.live))
  {
    UptoGrows(c, c.historical + c.live - 1);
  }

  lemma LastRecorded(c: Config) returns (acts: seq<Action>)
    requires c.callbacks > 0 && c.live > 0
    ensures Run(c, acts) == Some(Both(c, Polling, Asking(false), After(c, c.historical + c.live)))
  {
    var n := c.historical + c.live;
    acts := LastArrives(c);
    var m := After(c, n - 1).(queue := [n - 1], arrived := Upto(n));
    var m1, m2 := m.(queue := []), After(c, n);
    LastTaken(c, m);
    acts := CallbackSteps(c, acts, Taking(false), m, Recording(n - 1, false), m1);
    LastFlag(c, m1);
    LastKept(c, m1, m2);
    acts := CallbackSteps(c, acts, Recording(n - 1, false), m1, Asking(false), m2);
  }

  lemma LastTaken(c: Config, m: Memory)
    requires |m.queue| == 1
    ensures Next(c, 1, Taking(false), m, false, false) == Some((Recording(m.queue[0], false), m.(queue := [])))
  {
    assert m.queue[1..] == [];
  }

  lemma LastKept(c: Config, m: Memory, m': Memory)
    requires c.live > 0
    requires Record(c, m, c.historical + c.live - 1, false) == (Asking(false), m')
    ensures Next(c, 1, Recording(c.historical + c.live - 1, false), m, false, false) == Some((Asking(false), m'))
  {
  }

  /** The callback has recorded the last live sample and seen the first `i` flags set. */
  lemma {:induction false} Tests(c: Config, i: nat) returns (acts: seq<Action>)
    requires c.callbacks > 0 && 0 < c.live && i <= c.live
    ensures var n := c.historical + c.live;
            Run(c, acts) == Some(Both(c, Polling, Testing(i, false), After(c, n)))
  {
    var m := After(c, c.historical + c.live);
    if i == 0 {
      acts := LastRecorded(c);
      Looks(c, m);
      acts := CallbackSteps(c, acts, Asking(false), m, Confirmed(false), m);
      acts := CallbackSteps(c, acts, Confirmed(false), m, Testing(0, false), m);
    } else {
      acts := Tests(c, i - 1);
      SeesFlag(c, i - 1);
      acts := CallbackSteps(c, acts, Testing(i - 1, false), m, Testing(i, false), m);
    }
  }

  lemma Looks(c: Config, m: Memory)
    requires !m.allDone && m.confirmed
    ensures Next(c, 1, Asking(false), m, false, false) == Some((Confirmed(false), m))
    ensures Next(c, 1, Confirmed(false), m, false, false) == Some((Testing(0, false), m))
  {
  }

  lemma SeesFlag(c: Config, i: nat)
    requires i < c.live
    ensures var m := After(c, c.historical + c.live);
            Next(c, 1, Testing(i, false), m, false, false) == Some((Testing(i + 1, false), m))
  {
  }

  lemma Then(c: Config, acts: seq<Action>, s: State, a: Action, s': State) returns (more: seq<Action>)
    requires Run(c, acts) == Some(s) && Step(c, s, a) == Some(s')
    ensures Run(c, more) == Some(s')
  {
    more := acts + [a];
    assert more[..|acts|] == acts;
  }

  lemma RacesUndeferred(c: Config)
    requires !c.deferred && c.callbacks > 0 && c.live > 0
    ensures exists acts :: Run(c, acts).Some? && OwnRace(Run(c, acts).value)
  {
    var m := After(c, c.historical + c.live);
    var m' := Report(m, 1);
    var acts := Tests(c, c.live);
    ReportsEarly(c, m);
    acts := CallbackSteps(c, acts, Testing(c.live, false), m, Taking(true), m');
    MainDeletes(c, acts, Both(c, Polling, Taking(true), m'));
  }

  lemma ReportsEarly(c: Config, m: Memory)
    requires !c.deferred
    ensures Next(c, 1, Testing(c.live, false), m, false, false) == Some((Taking(true), Report(m, 1)))
  {
  }

  lemma MainDeletes(c: Config, acts: seq<Action>, s: State)
    requires Run(c, acts) == Some(s) && |s.threads| > 1 && s.threads[0].Polling? && s.m.allDone
    requires s.threads[1].Taking? && 1 in s.m.reporters
    ensures exists more :: Run(c, more).Some? && OwnRace(Run(c, more).value)
  {
    var s1 := s.(threads := s.threads[0 := Deleting]);
    var more := Then(c, acts, s, Advance(0, false), s1);
    var s2 := s1.(threads := s1.threads[0 := Finished]);
    more := Then(c, more, s1, Advance(0, false), s2);
    assert s2.threads[1].Taking?;
    assert OwnRace(s2);
  }

  /** Completion has been reported, everything is recorded, and main has finished with no
      callback running. */
  predicate Success(c: Config, s: State) {
    && s.m.allDone && AllHistory(c, s.m.hist) && AllLive(c, s.m.live)
    && |s.threads| > 0 && s.threads[0].Finished? && forall t :: 1 <= t < |s.threads| ==> s.threads[t].Idle?
  }

  lemma MainFinishes(c: Config, acts: seq<Action>, s: State)
    requires Run(c, acts) == Some(s) && |s.threads| > 0 && s.threads[0].Polling? && s.m.allDone
    requires forall t :: 1 <= t < |s.threads| ==> s.threads[t].Idle?
    ensures exists more :: Run(c, more).Some? && Success(c, Run(c, more).value)
  {
    var s1 := s.(threads := s.threads[0 := Deleting]);
    var more := Then(c, acts, s, Advance(0, false), s1);
    var s2 := s1.(threads := s1.threads[0 := Finished]);
    more := Then(c, more, s1, Advance(0, false), s2);
    NoFalseSignal(c, more, s2);
    assert Success(c, s2);
  }

  /** Main alone can take everything, report it and finish, if it looks once more. */
  lemma MainReports(c: Config)
    requires c.recheck
    ensures exists acts :: Run(c, acts).Some? && Success(c, Run(c, acts).value)
  {
    var m := After(c, c.historical + c.live);
    var acts := Rechecks(c, c.live, c.historical + c.live);
    var m' := m.(allDone := true);
    acts := MainSteps(c, acts, Rechecking(c.live), m, Polling, m');
    MainFinishes(c, acts, MainAt(c, Polling, m'));
  }

  /** A callback that takes the last live sample reports it, and main finishes, whichever
      place it reports from and whether or not main looks once more. */
  lemma CallbackReports(c: Config)
    requires c.callbacks > 0 && c.live > 0
    ensures exists acts :: Run(c, acts).Some? && Success(c, Run(c, acts).value)
  {
    var m := After(c, c.historical + c.live);
    var m1 := if c.deferred then m else Report(m, 1);
    var acts := Tests(c, c.live);
    LastTested(c, m);
    acts := CallbackSteps(c, acts, Testing(c.live, false), m, Taking(true), m1);
    LeavesLoop(c, m1);
    acts := CallbackSteps(c, acts, Taking(true), m1, Drained(true), m1);
    acts := CallbackSteps(c, acts, Drained(true), m1, Returning, Report(m1, 1));
    var m2 := Report(m1, 1);
    var m3 := m2.(reporters := m2.reporters - {1});
    acts := CallbackSteps(c, acts, Returning, m2, Idle, m3);
    MainFinishes(c, acts, Both(c, Polling, Idle, m3));
  }

  lemma LastTested(c: Config, m: Memory)
    ensures Next(c, 1, Testing(c.live, false), m, false, false) == Some((Taking(true), if c.deferred then m else Report(m, 1)))
  {
  }

  lemma LeavesLoop(c: Config, m: Memory)
    requires m.queue == []
    ensures Next(c, 1, Taking(true), m, false, false) == Some((Drained(true), m))
    ensures Next(c, 1, Drained(true), m, false, false) == Some((Returning, Report(m, 1)))
    ensures var m' := Report(m, 1);
            Next(c, 1, Returning, m', false, false) == Some((Idle, m'.(reporters := m'.reporters - {1})))
  {
  }

  /** A callback that reports completion is never still inside takeAvailable when main has
      deleted the reader, exactly when it reports after its own take loop. */
  lemma NoOwnRaceIffDeferred(c: Config)
    requires c.callbacks > 0 && c.live > 0
    ensures c.deferred <==> forall acts :: Run(c, acts).Some? ==> !OwnRace(Run(c, acts).value)
  {
    if c.deferred {
      forall acts | Run(c, acts).Some? ensures !OwnRace(Run(c, acts).value) { Deferred(c, acts, Run(c, acts).value); }
    } else {
      RacesUndeferred(c);
    }
  }
}
