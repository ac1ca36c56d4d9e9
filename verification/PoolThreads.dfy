/** The pool under any number of threads: each lock, load, store and unlock of
    alloc and free is one step, and steps of different threads interleave freely.
    Clients write into the blocks they own between any two steps. */
module PoolThreads {
  import opened Base
  import PoolSpec

  type Tid = nat

  /** Where a thread stands inside pool_alloc or pool_free. `start` is the length
      of the linearized history when the call was made, `at` its own place in it. */
  datatype Pc =
    | Idle
    | AllocEntry(start: nat)
    | AllocLocked(start: nat)
    | AllocLoadedHead(start: nat, node: nat)
    | AllocLoadedNext(start: nat, node: nat, next: Option<nat>)
    | AllocChanged(start: nat, at: nat, result: Option<nat>)
    | AllocReturning(start: nat, at: nat, result: Option<nat>)
    | FreeEntry(start: nat, block: nat)
    | FreeLocked(start: nat, block: nat)
    | FreeLinked(start: nat, block: nat)
    | FreeChanged(start: nat, at: nat, block: nat)
    | FreeReturning(start: nat, at: nat, block: nat)

  /** A thread: its place in the code and the blocks its client owns. */
  datatype Thread = Thread(pc: Pc, owned: set<nat>)

  /** What took effect, in the order in which it took effect. */
  datatype Event = Took(t: Tid, result: Option<nat>) | Gave(t: Tid, block: nat)

  /** A call that has returned. */
  datatype Call = Call(start: nat, at: nat, end: nat, effect: Event)

  datatype State = State(
    head: Option<nat>,
    link: seq<Option<nat>>,
    lock: Option<Tid>,
    threads: seq<Thread>,
    log: seq<Event>,
    calls: seq<Call>)

  datatype Action =
    | CallAlloc(t: Tid)
    | CallFree(t: Tid, b: nat)
    | Advance(t: Tid)
    | ClientWrite(t: Tid, b: nat, junk: Option<nat>)
    | HandOver(t: Tid, u: Tid, b: nat)

  /** `locking` is the library's own choice; without it the mutex is never taken. */
  datatype Config = Config(blocks: nat, threads: nat, locking: bool)

  function Init(c: Config): State {
    var free := PoolSpec.Pool.Fresh(c.blocks).free;
    State(First(free),
          seq(c.blocks, b requires 0 <= b < c.blocks => if b == 0 then None else Some(b - 1)),
          None, seq(c.threads, i requires 0 <= i < c.threads => Thread(Idle, {})), [], [])
  }

  function First(list: seq<nat>): Option<nat> {
    if list == [] then None else Some(list[0])
  }

  function Goto(s: State, t: Tid, pc: Pc): State
    requires t < |s.threads|
  {
    s.(threads := s.threads[t := s.threads[t].(pc := pc)])
  }

  function Own(s: State, t: Tid, pc: Pc, owned: set<nat>): State
    requires t < |s.threads|
  {
    s.(threads := s.threads[t := Thread(pc, owned)])
  }

  /** One step; None when the action is not possible in this state. */
  function Step(c: Config, s: State, a: Action): Option<State> {
    if a.t >= |s.threads| then None else
    var me := s.threads[a.t];
    match a
    case CallAlloc(t) =>
      if me.pc.Idle? then Some(Goto(s, t, AllocEntry(|s.log|))) else None
    case CallFree(t, b) =>
      if me.pc.Idle? && b in me.owned then Some(Own(s, t, FreeEntry(|s.log|, b), me.owned - {b})) else None
    case ClientWrite(t, b, junk) =>
      if b in me.owned && b < |s.link| then Some(s.(link := s.link[b := junk])) else None
    case HandOver(t, u, b) =>
      if b in me.owned && u < |s.threads| && u != t then
        var given := Own(s, t, me.pc, me.owned - {b});
        Some(Own(given, u, s.threads[u].pc, s.threads[u].owned + {b}))
      else None
    case Advance(t) => AdvanceThread(c, s, t)
  }

  /** The next load, store, lock or unlock of thread `t`. */
  function AdvanceThread(c: Config, s: State, t: Tid): Option<State>
    requires t < |s.threads|
  {
    var me := s.threads[t];
    match me.pc
    case Idle => None
    case AllocEntry(start) => Lock(c, s, t, AllocLocked(start))
    case AllocLocked(start) =>
      // node = g_free_list; an empty list makes the call fail here
      if s.head.None? then Some(Goto(s, t, AllocChanged(start, |s.log|, None)).(log := s.log + [Took(t, None)]))
      else Some(Goto(s, t, AllocLoadedHead(start, s.head.value)))
    case AllocLoadedHead(start, node) =>
      if node < |s.link| then Some(Goto(s, t, AllocLoadedNext(start, node, s.link[node]))) else None
    case AllocLoadedNext(start, node, next) =>
      Some(Goto(s, t, AllocChanged(start, |s.log|, Some(node))).(head := next, log := s.log + [Took(t, Some(node))]))
    case AllocChanged(start, at, result) => Some(Unlock(c, Goto(s, t, AllocReturning(start, at, result))))
    case AllocReturning(start, at, result) =>
      var owned := if result.Some? then me.owned + {result.value} else me.owned;
      Some(Own(s, t, Idle, owned).(calls := s.calls + [Call(start, at, |s.log|, Took(t, result))]))
    case FreeEntry(start, b) => Lock(c, s, t, FreeLocked(start, b))
    case FreeLocked(start, b) =>
      if b < |s.link| then Some(Goto(s, t, FreeLinked(start, b)).(link := s.link[b := s.head])) else None
    case FreeLinked(start, b) =>
      Some(Goto(s, t, FreeChanged(start, |s.log|, b)).(head := Some(b), log := s.log + [Gave(t, b)]))
    case FreeChanged(start, at, b) => Some(Unlock(c, Goto(s, t, FreeReturning(start, at, b))))
    case FreeReturning(start, at, b) => Some(Goto(s, t, Idle).(calls := s.calls + [Call(start, at, |s.log|, Gave(t, b))]))
  }

  function Lock(c: Config, s: State, t: Tid, pc: Pc): Option<State>
    requires t < |s.threads|
  {
    if !c.locking then Some(Goto(s, t, pc))
    else if s.lock.None? then Some(Goto(s, t, pc).(lock := Some(t)))
    else None
  }

  function Unlock(c: Config, s: State): State {
    if c.locking then s.(lock := None) else s
  }

  /** The state a whole schedule of steps leads to. */
  function Run(c: Config, acts: seq<Action>): Option<State> {
    if acts == [] then Some(Init(c))
    else
      var before := Run(c, acts[..|acts| - 1]);
      if before.None? then None else Step(c, before.value, acts[|acts| - 1])
  }

  // ---- What the history means ------------------------------------------------

  /** Replaying the history one whole operation at a time on the sequential
      allocator; None if some answer in it is not the sequential one. */
  function Replay(blocks: nat, log: seq<Event>): Option<PoolSpec.Pool> {
    if log == [] then Some(PoolSpec.Pool.Fresh(blocks))
    else
      var before := Replay(blocks, log[..|log| - 1]);
      if before.None? then None else Effect(before.value, log[|log| - 1])
  }

  function Effect(p: PoolSpec.Pool, e: Event): Option<PoolSpec.Pool> {
    match e
    case Took(_, result) =>
      var (q, a) := PoolSpec.Do(p, PoolSpec.Alloc(1, 1), 1);
      if a == PoolSpec.Block(result) then Some(q) else None
    case Gave(_, b) =>
      if b in p.held then Some(PoolSpec.Do(p, PoolSpec.Free(b), 1).0) else None
  }

  /** The block a thread is carrying in or out of a call. */
  function Carried(pc: Pc): set<nat> {
    match pc
    case AllocChanged(_, _, Some(b)) => {b}
    case AllocReturning(_, _, Some(b)) => {b}
    case FreeEntry(_, b) => {b}
    case FreeLocked(_, b) => {b}
    case FreeLinked(_, b) => {b}
    case _ => {}
  }

  function Stock(th: Thread): set<nat> {
    th.owned + Carried(th.pc)
  }

  predicate Critical(pc: Pc) {
    pc.AllocLocked? || pc.AllocLoadedHead? || pc.AllocLoadedNext? || pc.AllocChanged?
    || pc.FreeLocked? || pc.FreeLinked? || pc.FreeChanged?
  }

  // ---- The invariant ----------------------------------------------------------

  /** Following the links from the head visits exactly the free blocks, in order. */
  ghost predicate Chain(head: Option<nat>, link: seq<Option<nat>>, free: seq<nat>) {
    && head == First(free)
    && forall i :: 0 <= i < |free| ==> free[i] < |link| && link[free[i]] == First(free[i + 1..])
  }

  /** What a thread inside the critical section knows about the list. */
  ghost predicate Local(s: State, pc: Pc) {
    match pc
    case AllocLoadedHead(_, node) => s.head == Some(node)
    case AllocLoadedNext(_, node, next) => s.head == Some(node) && node < |s.link| && next == s.link[node]
    case FreeLinked(_, b) => b < |s.link| && s.link[b] == s.head
    case _ => true
  }

  /** The call's own entry in the history, and when it was made. */
  ghost predicate Logged(log: seq<Event>, t: Tid, pc: Pc) {
    match pc
    case Idle => true
    case AllocChanged(start, at, r) => start <= at < |log| && log[at] == Took(t, r)
    case AllocReturning(start, at, r) => start <= at < |log| && log[at] == Took(t, r)
    case FreeChanged(start, at, b) => start <= at < |log| && log[at] == Gave(t, b)
    case FreeReturning(start, at, b) => start <= at < |log| && log[at] == Gave(t, b)
    case _ => pc.start <= |log|
  }

  /** Exactly the thread in the critical section holds the lock. */
  ghost predicate ThreadOk(s: State, t: Tid)
    requires t < |s.threads|
  {
    && (Critical(s.threads[t].pc) <==> s.lock == Some(t))
    && Local(s, s.threads[t].pc)
    && Logged(s.log, t, s.threads[t].pc)
  }

  ghost predicate Threads(s: State) {
    forall t :: 0 <= t < |s.threads| ==> ThreadOk(s, t)
  }

  /** No block is in the hands of two threads, and the held blocks are exactly
      those in some thread's hands. */
  ghost predicate Ownership(threads: seq<Thread>, held: set<nat>) {
    && (forall t :: 0 <= t < |threads| ==> Stock(threads[t]) <= held)
    && (forall t :: 0 <= t < |threads| ==> threads[t].owned !! Carried(threads[t].pc))
    && (forall t, u :: 0 <= t < u < |threads| ==> Stock(threads[t]) !! Stock(threads[u]))
    && (forall b :: b in held ==> exists t :: 0 <= t < |threads| && b in Stock(threads[t]))
  }

  /** The memory of the pool represents the free blocks of `p`. */
  ghost predicate Represents(s: State, p: PoolSpec.Pool) {
    p.Partition(|s.link|) && Chain(s.head, s.link, p.free)
  }

  /** Calls that returned have their entry between their start and their end, and
      calls of one thread follow each other. */
  ghost predicate Ordered(s: State) {
    && (forall i :: 0 <= i < |s.calls| ==> Returned(s.log, s.calls[i]))
    && (forall i, j :: 0 <= i < j < |s.calls| && s.calls[i].effect.t == s.calls[j].effect.t ==>
          s.calls[i].end <= s.calls[j].start)
    && (forall i, t :: 0 <= i < |s.calls| && 0 <= t < |s.threads| && s.calls[i].effect.t == t && !s.threads[t].pc.Idle? ==>
          s.calls[i].end <= s.threads[t].pc.start)
  }

  ghost predicate Returned(log: seq<Event>, k: Call) {
    k.start <= k.at < k.end <= |log| && log[k.at] == k.effect
  }

  /** Every entry of the history belongs to a call, returned or in progress. */
  ghost predicate Complete(s: State) {
    forall i :: 0 <= i < |s.log| ==> Accounted(s, i)
  }

  ghost predicate Accounted(s: State, i: nat) {
    || (exists k :: 0 <= k < |s.calls| && s.calls[k].at == i)
    || (exists t :: 0 <= t < |s.threads| && Done(s.threads[t].pc) && s.threads[t].pc.at == i)
  }

  /** The call has taken effect and not yet returned. */
  predicate Done(pc: Pc) {
    pc.AllocChanged? || pc.AllocReturning? || pc.FreeChanged? || pc.FreeReturning?
  }

  ghost predicate Inv(c: Config, s: State) {
    && |s.link| == c.blocks && |s.threads| == c.threads
    && Replay(c.blocks, s.log).Some?
    && Represents(s, Abs(c, s))
    && Ownership(s.threads, Abs(c, s).held)
    && Threads(s) && Ordered(s) && Complete(s)
  }

  /** The sequential pool the history leads to. */
  ghost function Abs(c: Config, s: State): PoolSpec.Pool
    requires Replay(c.blocks, s.log).Some?
  {
    Replay(c.blocks, s.log).value
  }

  lemma InitInv(c: Config)
    ensures Inv(c, Init(c))
  {
    PoolSpec.FreshPartition(c.blocks);
    InitChain(c);
  }

  lemma InitChain(c: Config)
    ensures Chain(Init(c).head, Init(c).link, PoolSpec.Pool.Fresh(c.blocks).free)
  {
    var link, free := Init(c).link, PoolSpec.Pool.Fresh(c.blocks).free;
    forall i | 0 <= i < |free| ensures link[free[i]] == First(free[i + 1..]) {
      if i + 1 < |free| { assert free[i + 1..][0] == free[i + 1]; }
    }
  }

  // ---- Each step keeps it ----------------------------------------------------

  /** The history grows by one entry: its replay takes one more step. */
  lemma ReplayGrows(blocks: nat, log: seq<Event>, e: Event)
    requires Replay(blocks, log).Some?
    ensures Replay(blocks, log + [e]) == Effect(Replay(blocks, log).value, e)
  {
    assert (log + [e])[..|log|] == log;
  }

  /** Threads other than `t` are undisturbed: either the list is untouched, or `t`
      holds the lock and none of them is looking at it. */
  lemma OthersKept(s: State, t: Tid, s': State)
    requires Threads(s) && t < |s.threads| == |s'.threads| && s.log <= s'.log
    requires forall u :: 0 <= u < |s.threads| && u != t ==> s'.threads[u].pc == s.threads[u].pc
    requires forall u :: 0 <= u < |s.threads| && u != t ==> (s'.lock == Some(u) <==> s.lock == Some(u))
    requires (s'.head == s.head && s'.link == s.link) || s.lock == Some(t)
    requires ThreadOk(s', t)
    ensures Threads(s')
  {
    forall u | 0 <= u < |s.threads| ensures ThreadOk(s', u) {
      assert ThreadOk(s, u);
    }
  }

  /** Ownership depends only on what each thread has in its hands. */
  lemma StockKept(threads: seq<Thread>, threads': seq<Thread>, held: set<nat>)
    requires Ownership(threads, held) && |threads'| == |threads|
    requires forall t :: 0 <= t < |threads| ==> Stock(threads'[t]) == Stock(threads[t])
    requires forall t :: 0 <= t < |threads| ==> threads'[t].owned !! Carried(threads'[t].pc)
    ensures Ownership(threads', held)
  {
    forall b | b in held ensures exists t :: 0 <= t < |threads'| && b in Stock(threads'[t]) {
      var t :| 0 <= t < |threads| && b in Stock(threads[t]);
      assert b in Stock(threads'[t]);
    }
  }

  /** A block enters one thread's hands and the held set. */
  lemma StockGains(threads: seq<Thread>, t: Tid, th: Thread, b: nat, held: set<nat>)
    requires Ownership(threads, held) && t < |threads| && th.owned !! Carried(th.pc)
    requires b !in held && Stock(th) == Stock(threads[t]) + {b}
    ensures Ownership(threads[t := th], held + {b})
  {
    var threads' := threads[t := th];
    forall x | x in held + {b} ensures exists u :: 0 <= u < |threads'| && x in Stock(threads'[u]) {
      if x == b {
        assert x in Stock(threads'[t]);
      } else {
        var u :| 0 <= u < |threads| && x in Stock(threads[u]);
        assert x in Stock(threads'[u]);
      }
    }
  }

  lemma StillHeld(threads: seq<Thread>, t: Tid, th: Thread, b: nat, held: set<nat>)
    requires (forall x :: x in held ==> exists u :: 0 <= u < |threads| && x in Stock(threads[u]))
    requires t < |threads| && Stock(th) == Stock(threads[t]) - {b}
    ensures var threads' := threads[t := th];
            forall x :: x in held - {b} ==> exists u :: 0 <= u < |threads'| && x in Stock(threads'[u])
  {
    var threads' := threads[t := th];
    forall x | x in held - {b} ensures exists u :: 0 <= u < |threads'| && x in Stock(threads'[u]) {
      var u :| 0 <= u < |threads| && x in Stock(threads[u]);
      assert x in Stock(threads'[u]);
    }
  }

  /** A block leaves one thread's hands and the held set. */
  lemma StockLoses(threads: seq<Thread>, t: Tid, th: Thread, b: nat, held: set<nat>)
    requires Ownership(threads, held) && t < |threads| && th.owned !! Carried(th.pc)
    requires b in Stock(threads[t]) && Stock(th) == Stock(threads[t]) - {b}
    ensures Ownership(threads[t := th], held - {b})
  {
    var threads' := threads[t := th];
    StillHeld(threads, t, th, b, held);
    NobodyElseHas(threads, t, b, held);
    forall u | 0 <= u < |threads'| ensures Stock(threads'[u]) <= Stock(threads[u]) && b !in Stock(threads'[u]) {
      assert u != t ==> threads'[u] == threads[u];
    }
    forall u, v | 0 <= u < v < |threads'| ensures Stock(threads'[u]) !! Stock(threads'[v]) {
      assert Stock(threads'[u]) <= Stock(threads[u]) && Stock(threads'[v]) <= Stock(threads[v]);
    }
  }

  lemma NobodyElseHas(threads: seq<Thread>, t: Tid, b: nat, held: set<nat>)
    requires Ownership(threads, held) && t < |threads| && b in Stock(threads[t])
    ensures forall u :: 0 <= u < |threads| && u != t ==> b !in Stock(threads[u])
  {
  }

  lemma StockMoves(threads: seq<Thread>, t: Tid, u: Tid, b: nat, threads': seq<Thread>, held: set<nat>)
    requires Ownership(threads, held) && t < |threads| && u < |threads| && t != u && b in threads[t].owned
    requires threads' == threads[t := threads[t].(owned := threads[t].owned - {b})]
                                [u := threads[u].(owned := threads[u].owned + {b})]
    ensures Ownership(threads', held)
  {
    assert b in Stock(threads[t]);
    var giver := threads[t].(owned := threads[t].owned - {b});
    assert Stock(giver) == Stock(threads[t]) - {b};
    StockLoses(threads, t, giver, b, held);
    var taker := threads[u].(owned := threads[u].owned + {b});
    assert Stock(taker) == Stock(threads[u]) + {b};
    StockGains(threads[t := giver], u, taker, b, held - {b});
    assert held - {b} + {b} == held;
  }

  /** One thread moves inside its call; the history does not change. */
  lemma HistoryKept(s: State, t: Tid, s': State)
    requires Ordered(s) && Complete(s) && t < |s.threads| == |s'.threads|
    requires s'.log == s.log && s'.calls == s.calls
    requires forall u :: 0 <= u < |s.threads| && u != t ==> s'.threads[u].pc == s.threads[u].pc
    requires var pc, pc' := s.threads[t].pc, s'.threads[t].pc;
             || pc' == pc
             || (pc.Idle? && !pc'.Idle? && !Done(pc') && pc'.start == |s.log|)
             || (!pc.Idle? && !pc'.Idle? && pc'.start == pc.start && (Done(pc) ==> Done(pc') && pc'.at == pc.at))
    ensures Ordered(s') && Complete(s')
  {
    forall i | 0 <= i < |s.log| ensures Accounted(s', i) {
      assert Accounted(s, i);
      if u :| 0 <= u < |s.threads| && Done(s.threads[u].pc) && s.threads[u].pc.at == i {
        assert Done(s'.threads[u].pc) && s'.threads[u].pc.at == i;
      }
    }
  }

  /** One thread's call takes effect: the new entry is its own. */
  lemma HistoryGrows(s: State, t: Tid, s': State, e: Event)
    requires Ordered(s) && Complete(s) && t < |s.threads|
    requires !s.threads[t].pc.Idle? && !Done(s.threads[t].pc)
    requires |s'.threads| == |s.threads| && s'.log == s.log + [e] && s'.calls == s.calls
    requires forall u :: 0 <= u < |s.threads| && u != t ==> s'.threads[u].pc == s.threads[u].pc
    requires Done(s'.threads[t].pc) && s'.threads[t].pc.at == |s.log| && s'.threads[t].pc.start == s.threads[t].pc.start
    ensures Ordered(s') && Complete(s')
  {
    forall i | 0 <= i < |s'.log| ensures Accounted(s', i) {
      if i == |s.log| {
        assert Done(s'.threads[t].pc) && s'.threads[t].pc.at == i;
      } else {
        assert Accounted(s, i);
        if u :| 0 <= u < |s.threads| && Done(s.threads[u].pc) && s.threads[u].pc.at == i {
          assert Done(s'.threads[u].pc) && s'.threads[u].pc.at == i;
        }
      }
    }
  }

  /** One thread's call returns: its entry passes from the thread to the record. */
  lemma HistoryReturns(s: State, t: Tid, s': State)
    requires Ordered(s) && Complete(s) && t < |s.threads| && Done(s.threads[t].pc)
    requires Logged(s.log, t, s.threads[t].pc)
    requires |s'.threads| == |s.threads| && s'.threads[t].pc.Idle? && s'.log == s.log
    requires forall u :: 0 <= u < |s.threads| && u != t ==> s'.threads[u].pc == s.threads[u].pc
    requires var pc := s.threads[t].pc; s'.calls == s.calls + [Call(pc.start, pc.at, |s.log|, s.log[pc.at])]
    ensures Ordered(s') && Complete(s')
  {
    var k := |s.calls|;
    forall i | 0 <= i < |s'.log| ensures Accounted(s', i) {
      assert Accounted(s, i);
      if i == s.threads[t].pc.at {
        assert s'.calls[k].at == i;
      } else if j :| 0 <= j < |s.calls| && s.calls[j].at == i {
        assert s'.calls[j].at == i;
      } else {
        var u :| 0 <= u < |s.threads| && Done(s.threads[u].pc) && s.threads[u].pc.at == i;
        assert Done(s'.threads[u].pc) && s'.threads[u].pc.at == i;
      }
    }
  }

  /** One thread moves, with the same blocks in its hands; nothing else changes. */
  lemma Moves(c: Config, s: State, t: Tid, s': State)
    requires Inv(c, s) && t < |s.threads| == |s'.threads|
    requires s' == s.(threads := s.threads[t := s'.threads[t]], lock := s'.lock)
    requires Stock(s'.threads[t]) == Stock(s.threads[t]) && s'.threads[t].owned !! Carried(s'.threads[t].pc)
    requires forall u :: 0 <= u < |s.threads| && u != t ==> (s'.lock == Some(u) <==> s.lock == Some(u))
    requires ThreadOk(s', t)
    requires var pc, pc' := s.threads[t].pc, s'.threads[t].pc;
             || (pc.Idle? && !pc'.Idle? && !Done(pc') && pc'.start == |s.log|)
             || (!pc.Idle? && !pc'.Idle? && pc'.start == pc.start && (Done(pc) ==> Done(pc') && pc'.at == pc.at))
    ensures Inv(c, s')
  {
    StockKept(s.threads, s'.threads, Abs(c, s).held);
    OthersKept(s, t, s');
    HistoryKept(s, t, s');
  }

  lemma CallStep(c: Config, s: State, a: Action, s': State)
    requires Inv(c, s) && (a.CallAlloc? || a.CallFree?) && Step(c, s, a) == Some(s')
    ensures Inv(c, s')
  {
    assert ThreadOk(s, a.t);
    if a.CallFree? { assert Stock(s'.threads[a.t]) == Stock(s.threads[a.t]); }
    Moves(c, s, a.t, s');
  }

  lemma LoadStep(c: Config, s: State, t: Tid, s': State)
    requires Inv(c, s) && c.locking && t < |s.threads| && AdvanceThread(c, s, t) == Some(s')
    requires (s.threads[t].pc.AllocLocked? && s.head.Some?) || s.threads[t].pc.AllocLoadedHead?
    ensures Inv(c, s')
  {
    assert ThreadOk(s, t);
    Moves(c, s, t, s');
  }

  lemma LockStep(c: Config, s: State, t: Tid, s': State)
    requires Inv(c, s) && c.locking && t < |s.threads| && AdvanceThread(c, s, t) == Some(s')
    requires s.threads[t].pc.AllocEntry? || s.threads[t].pc.FreeEntry?
    ensures Inv(c, s')
  {
    assert ThreadOk(s, t);
    Moves(c, s, t, s');
  }

  lemma UnlockStep(c: Config, s: State, t: Tid, s': State)
    requires Inv(c, s) && c.locking && t < |s.threads| && AdvanceThread(c, s, t) == Some(s')
    requires s.threads[t].pc.AllocChanged? || s.threads[t].pc.FreeChanged?
    ensures Inv(c, s')
  {
    assert ThreadOk(s, t);
    Moves(c, s, t, s');
  }

  /** A client writes into a block it owns: neither the list nor anything another
      thread relies on is stored there. */
  lemma ClientWriteStep(c: Config, s: State, a: Action, s': State)
    requires Inv(c, s) && c.locking && a.ClientWrite? && Step(c, s, a) == Some(s')
    ensures Inv(c, s')
  {
    var p := Abs(c, s);
    assert a.b in Stock(s.threads[a.t]);
    LinkElsewhere(s.head, s.link, p.free, a.b, a.junk);
    forall t | 0 <= t < |s'.threads| ensures ThreadOk(s', t) {
      assert ThreadOk(s, t);
      UntouchedByClient(s, p, a.t, a.b, t);
    }
    HistoryKept(s, a.t, s');
  }

  lemma LinkElsewhere(head: Option<nat>, link: seq<Option<nat>>, free: seq<nat>, b: nat, junk: Option<nat>)
    requires Chain(head, link, free) && b < |link| && b !in free
    ensures Chain(head, link[b := junk], free)
  {
  }

  /** What a thread in the critical section has read or written is not the client's. */
  lemma UntouchedByClient(s: State, p: PoolSpec.Pool, t: Tid, b: nat, u: Tid)
    requires Represents(s, p) && Ownership(s.threads, p.held) && t < |s.threads| && u < |s.threads|
    requires ThreadOk(s, u) && b in s.threads[t].owned
    ensures s.threads[u].pc.AllocLoadedNext? ==> s.threads[u].pc.node != b
    ensures s.threads[u].pc.FreeLinked? ==> s.threads[u].pc.block != b
  {
    assert b in Stock(s.threads[t]);
    if s.threads[u].pc.AllocLoadedNext? {
      assert p.free[0] == s.threads[u].pc.node;
    } else if s.threads[u].pc.FreeLinked? {
      assert s.threads[u].pc.block in Stock(s.threads[u]);
    }
  }

  lemma HandOverStep(c: Config, s: State, a: Action, s': State)
    requires Inv(c, s) && c.locking && a.HandOver? && Step(c, s, a) == Some(s')
    ensures Inv(c, s')
  {
    HandOverIs(c, s, a, s');
    StockMoves(s.threads, a.t, a.u, a.b, s'.threads, Abs(c, s).held);
    assert ThreadOk(s, a.t);
    OthersKept(s, a.t, s');
    HistoryKept(s, a.t, s');
  }

  lemma HandOverIs(c: Config, s: State, a: Action, s': State)
    requires a.HandOver? && Step(c, s, a) == Some(s')
    ensures a.t < |s.threads| && a.u < |s.threads| && a.t != a.u && a.b in s.threads[a.t].owned
    ensures s' == s.(threads := s.threads[a.t := s.threads[a.t].(owned := s.threads[a.t].owned - {a.b})]
                                         [a.u := s.threads[a.u].(owned := s.threads[a.u].owned + {a.b})])
    ensures forall t :: 0 <= t < |s.threads| ==> s'.threads[t].pc == s.threads[t].pc
  {
  }

  lemma FreeLinkIs(c: Config, s: State, t: Tid, s': State)
    requires t < |s.threads| && s.threads[t].pc.FreeLocked? && AdvanceThread(c, s, t) == Some(s')
    ensures var pc := s.threads[t].pc;
            && pc.block in Stock(s.threads[t]) && pc.block < |s.link|
            && s' == Goto(s, t, FreeLinked(pc.start, pc.block)).(link := s.link[pc.block := s.head])
            && forall u :: 0 <= u < |s.threads| ==> Stock(s'.threads[u]) == Stock(s.threads[u])
  {
  }

  /** pool_free stores the old head into the block it was given, which is not free. */
  lemma FreeLinkStep(c: Config, s: State, t: Tid, s': State)
    requires Inv(c, s) && c.locking && t < |s.threads| && s.threads[t].pc.FreeLocked?
    requires AdvanceThread(c, s, t) == Some(s')
    ensures Inv(c, s')
  {
    FreeLinkIs(c, s, t, s');
    LinkElsewhere(s.head, s.link, Abs(c, s).free, s.threads[t].pc.block, s.head);
    StockKept(s.threads, s'.threads, Abs(c, s).held);
    FreeLinkThreads(s, t, s');
    HistoryKept(s, t, s');
  }

  lemma FreeLinkThreads(s: State, t: Tid, s': State)
    requires Threads(s) && t < |s.threads| && s.threads[t].pc.FreeLocked?
    requires var pc := s.threads[t].pc;
             && pc.block < |s.link|
             && s' == Goto(s, t, FreeLinked(pc.start, pc.block)).(link := s.link[pc.block := s.head])
    ensures Threads(s')
  {
    assert ThreadOk(s, t);
    OthersKept(s, t, s');
  }

  /** An empty list makes pool_alloc fail. */
  lemma AllocFailsStep(c: Config, s: State, t: Tid, s': State)
    requires Inv(c, s) && c.locking && t < |s.threads| && s.threads[t].pc.AllocLocked? && s.head.None?
    requires AdvanceThread(c, s, t) == Some(s')
    ensures Inv(c, s')
  {
    assert ThreadOk(s, t);
    assert Abs(c, s).free == [];
    ReplayGrows(c.blocks, s.log, Took(t, None));
    StockKept(s.threads, s'.threads, Abs(c, s).held);
    OthersKept(s, t, s');
    HistoryGrows(s, t, s', Took(t, None));
  }

  /** pool_alloc makes the second block the head: the first one changes hands. */
  lemma AllocTakesStep(c: Config, s: State, t: Tid, s': State)
    requires Inv(c, s) && c.locking && t < |s.threads| && s.threads[t].pc.AllocLoadedNext?
    requires AdvanceThread(c, s, t) == Some(s')
    ensures Inv(c, s')
  {
    var p, node := Abs(c, s), s.threads[t].pc.node;
    assert ThreadOk(s, t);
    ReplayGrows(c.blocks, s.log, Took(t, Some(node)));
    TakeFirst(s, p, s');
    assert Stock(s'.threads[t]) == Stock(s.threads[t]) + {node};
    StockGains(s.threads, t, s'.threads[t], node, p.held);
    OthersKept(s, t, s');
    HistoryGrows(s, t, s', Took(t, Some(node)));
  }

  lemma TakeFirst(s: State, p: PoolSpec.Pool, s': State)
    requires Represents(s, p) && s.head.Some? && s'.link == s.link
    requires s.head.value < |s.link| && s'.head == s.link[s.head.value]
    ensures PoolSpec.Do(p, PoolSpec.Alloc(1, 1), 1) ==
            (PoolSpec.Pool(p.free[1..], p.held + {s.head.value}), PoolSpec.Block(s.head))
    ensures s.head.value !in p.held
    ensures Represents(s', PoolSpec.Pool(p.free[1..], p.held + {s.head.value}))
  {
    var rest := p.free[1..];
    PoolSpec.DoKeepsPartition(p, PoolSpec.Alloc(1, 1), 1, |s.link|);
    assert forall i :: 0 <= i < |rest| ==> rest[i] == p.free[i + 1] && rest[i + 1..] == p.free[i + 2..];
  }

  /** pool_free makes its block the head. */
  lemma FreeGivesStep(c: Config, s: State, t: Tid, s': State)
    requires Inv(c, s) && c.locking && t < |s.threads| && s.threads[t].pc.FreeLinked?
    requires AdvanceThread(c, s, t) == Some(s')
    ensures Inv(c, s')
  {
    var p, b := Abs(c, s), s.threads[t].pc.block;
    assert ThreadOk(s, t);
    assert b in Stock(s.threads[t]);
    ReplayGrows(c.blocks, s.log, Gave(t, b));
    PutFirst(s, p, b, s');
    assert Stock(s'.threads[t]) == Stock(s.threads[t]) - {b};
    StockLoses(s.threads, t, s'.threads[t], b, p.held);
    OthersKept(s, t, s');
    HistoryGrows(s, t, s', Gave(t, b));
  }

  lemma PutFirst(s: State, p: PoolSpec.Pool, b: nat, s': State)
    requires Represents(s, p) && b in p.held && b < |s.link| && s.link[b] == s.head
    requires s'.link == s.link && s'.head == Some(b)
    ensures Represents(s', PoolSpec.Pool([b] + p.free, p.held - {b}))
  {
    var longer := [b] + p.free;
    PoolSpec.DoKeepsPartition(p, PoolSpec.Free(b), 1, |s.link|);
    assert longer[1..] == p.free;
    assert forall i :: 0 < i < |longer| ==> longer[i] == p.free[i - 1] && longer[i + 1..] == p.free[i..];
  }

  /** A call returns: its block, if any, becomes the client's, and it is recorded. */
  lemma ReturnStep(c: Config, s: State, t: Tid, s': State)
    requires Inv(c, s) && c.locking && t < |s.threads|
    requires s.threads[t].pc.AllocReturning? || s.threads[t].pc.FreeReturning?
    requires AdvanceThread(c, s, t) == Some(s')
    ensures Inv(c, s')
  {
    assert ThreadOk(s, t);
    assert Stock(s'.threads[t]) == Stock(s.threads[t]);
    StockKept(s.threads, s'.threads, Abs(c, s).held);
    OthersKept(s, t, s');
    HistoryReturns(s, t, s');
  }

  lemma StepKeepsInv(c: Config, s: State, a: Action, s': State)
    requires Inv(c, s) && c.locking && Step(c, s, a) == Some(s')
    ensures Inv(c, s')
  {
    match a
    case CallAlloc(_) => CallStep(c, s, a, s');
    case CallFree(_, _) => CallStep(c, s, a, s');
    case ClientWrite(_, _, _) => ClientWriteStep(c, s, a, s');
    case HandOver(_, _, _) => HandOverStep(c, s, a, s');
    case Advance(t) =>
      match s.threads[t].pc {
        case AllocEntry(_) => LockStep(c, s, t, s');
        case AllocLocked(_) =>
          if s.head.None? { AllocFailsStep(c, s, t, s'); } else { LoadStep(c, s, t, s'); }
        case AllocLoadedHead(_, _) => LoadStep(c, s, t, s');
        case AllocLoadedNext(_, _, _) => AllocTakesStep(c, s, t, s');
        case AllocChanged(_, _, _) => UnlockStep(c, s, t, s');
        case AllocReturning(_, _, _) => ReturnStep(c, s, t, s');
        case FreeEntry(_, _) => LockStep(c, s, t, s');
        case FreeLocked(_, _) => FreeLinkStep(c, s, t, s');
        case FreeLinked(_, _) => FreeGivesStep(c, s, t, s');
        case FreeChanged(_, _, _) => UnlockStep(c, s, t, s');
        case FreeReturning(_, _, _) => ReturnStep(c, s, t, s');
      }
  }

  // ---- Main results -------------------------------------------------------------

  /** `acts` is a schedule of the pool as it is written, and leads to `s`. */
  ghost predicate Reaches(c: Config, acts: seq<Action>, s: State) {
    c.locking && Run(c, acts) == Some(s)
  }

  /** The invariant holds after every schedule. */
  lemma {:induction false} RunKeepsInv(c: Config, acts: seq<Action>)
    requires c.locking && Run(c, acts).Some?
    ensures Inv(c, Run(c, acts).value)
  {
    if acts == [] {
      InitInv(c);
    } else {
      var before := acts[..|acts| - 1];
      RunKeepsInv(c, before);
      StepKeepsInv(c, Run(c, before).value, acts[|acts| - 1], Run(c, acts).value);
    }
  }

  /** Every schedule is equivalent to a sequential run: the history replays on the
      sequential allocator answer for answer, each returned call has its own entry
      in it, placed between its start and its end, and a call that returned before
      another one started comes first. */
  lemma {:induction false} Linearizable(c: Config, acts: seq<Action>, s: State)
    requires Reaches(c, acts, s)
    ensures Replay(c.blocks, s.log).Some?
    ensures forall i :: 0 <= i < |s.calls| ==> Returned(s.log, s.calls[i])
    ensures forall i, j :: 0 <= i < j < |s.calls| ==> s.calls[i].at != s.calls[j].at
    ensures forall i, j :: 0 <= i < |s.calls| && 0 <= j < |s.calls| && s.calls[i].end <= s.calls[j].start ==>
              s.calls[i].at < s.calls[j].at
    ensures forall i :: 0 <= i < |s.log| ==> Accounted(s, i)
  {
    RunKeepsInv(c, acts);
    forall i, j | 0 <= i < j < |s.calls| ensures s.calls[i].at != s.calls[j].at {
      assert Returned(s.log, s.calls[i]) && Returned(s.log, s.calls[j]);
    }
  }

  /** What a client asks of the pool. */
  datatype Request = Want | Give(block: nat)

  /** The request thread `t` makes by `a`, if it makes one. */
  function AskedBy(a: Action, t: Tid): seq<Request> {
    match a
    case CallAlloc(u) => if u == t then [Want] else []
    case CallFree(u, b) => if u == t then [Give(b)] else []
    case _ => []
  }

  function Asked(acts: seq<Action>, t: Tid): seq<Request> {
    if acts == [] then [] else Asked(acts[..|acts| - 1], t) + AskedBy(acts[|acts| - 1], t)
  }

  /** The requests of `t` that the recorded effects answer. */
  function Answered(calls: seq<Call>, t: Tid): seq<Request> {
    if calls == [] then []
    else Answered(calls[..|calls| - 1], t) + AnsweredBy(calls[|calls| - 1].effect, t)
  }

  function AnsweredBy(e: Event, t: Tid): seq<Request> {
    if e.t != t then [] else if e.Took? then [Want] else [Give(e.block)]
  }

  /** The request a thread is inside of. */
  function Pending(pc: Pc): seq<Request> {
    match pc
    case Idle => []
    case FreeEntry(_, b) => [Give(b)]
    case FreeLocked(_, b) => [Give(b)]
    case FreeLinked(_, b) => [Give(b)]
    case FreeChanged(_, _, b) => [Give(b)]
    case FreeReturning(_, _, b) => [Give(b)]
    case _ => [Want]
  }

  lemma AnsweredGrows(calls: seq<Call>, k: Call, t: Tid)
    ensures Answered(calls + [k], t) == Answered(calls, t) + AnsweredBy(k.effect, t)
  {
    assert (calls + [k])[..|calls|] == calls;
  }

  predicate Returns(pc: Pc) {
    pc.AllocReturning? || pc.FreeReturning?
  }

  /** Inside a call nothing is recorded and the request stays the same. */
  lemma InsideAsks(c: Config, s: State, u: Tid, s': State)
    requires u < |s.threads| && AdvanceThread(c, s, u) == Some(s') && !Returns(s.threads[u].pc)
    ensures s'.calls == s.calls && s'.threads == s.threads[u := s'.threads[u]]
    ensures Pending(s'.threads[u].pc) == Pending(s.threads[u].pc)
  {
  }

  /** A return records the answer to the thread's own request. */
  lemma ReturnAnswers(c: Config, s: State, u: Tid, s': State) returns (k: Call)
    requires u < |s.threads| && AdvanceThread(c, s, u) == Some(s') && Returns(s.threads[u].pc)
    ensures s'.calls == s.calls + [k] && k.effect.t == u && AnsweredBy(k.effect, u) == Pending(s.threads[u].pc)
    ensures s'.threads == s.threads[u := s'.threads[u]] && s'.threads[u].pc.Idle?
  {
    k := s'.calls[|s.calls|];
  }

  lemma AdvanceAnswers(c: Config, s: State, u: Tid, s': State, t: Tid)
    requires u < |s.threads| && t < |s.threads| && AdvanceThread(c, s, u) == Some(s')
    ensures |s'.threads| == |s.threads|
    ensures Answered(s'.calls, t) + Pending(s'.threads[t].pc) == Answered(s.calls, t) + Pending(s.threads[t].pc)
  {
    if Returns(s.threads[u].pc) {
      var k := ReturnAnswers(c, s, u, s');
      AnsweredGrows(s.calls, k, t);
    } else {
      InsideAsks(c, s, u, s');
    }
  }

  lemma ThreadsStay(c: Config, s: State, a: Action, s': State)
    requires Step(c, s, a) == Some(s')
    ensures |s'.threads| == |s.threads|
  {
  }

  lemma StepAnswers(c: Config, s: State, a: Action, s': State, t: Tid)
    requires Step(c, s, a) == Some(s') && t < |s.threads|
    ensures |s'.threads| == |s.threads|
    ensures Answered(s'.calls, t) + Pending(s'.threads[t].pc) ==
            Answered(s.calls, t) + Pending(s.threads[t].pc) + AskedBy(a, t)
  {
    if a.Advance? { AdvanceAnswers(c, s, a.t, s', t); }
    else if a.CallAlloc? || a.CallFree? { CallAsks(c, s, a, s', t); }
    else { ClientsStay(c, s, a, s', t); }
  }

  lemma CallAsks(c: Config, s: State, a: Action, s': State, t: Tid)
    requires Step(c, s, a) == Some(s') && t < |s.threads| && (a.CallAlloc? || a.CallFree?)
    ensures |s'.threads| == |s.threads| && s'.calls == s.calls
    ensures Pending(s'.threads[t].pc) == Pending(s.threads[t].pc) + AskedBy(a, t)
  {
  }

  lemma ClientsStay(c: Config, s: State, a: Action, s': State, t: Tid)
    requires Step(c, s, a) == Some(s') && t < |s.threads| && (a.ClientWrite? || a.HandOver?)
    ensures |s'.threads| == |s.threads| && s'.calls == s.calls && s'.threads[t].pc == s.threads[t].pc
  {
  }

  /** Whatever the schedule, the effects recorded for a thread are those of the calls it
      made, in order and each with the block it was made with; at most the last is
      still open. */
  lemma {:induction false} CallsAnsweredInOrder(c: Config, acts: seq<Action>, s: State, t: Tid)
    requires Run(c, acts) == Some(s) && t < |s.threads|
    ensures Asked(acts, t) == Answered(s.calls, t) + Pending(s.threads[t].pc)
  {
    if acts != [] {
      var before, a := acts[..|acts| - 1], acts[|acts| - 1];
      var s0 := Run(c, before).value;
      ThreadsStay(c, s0, a, s);
      CallsAnsweredInOrder(c, before, s0, t);
      StepAnswers(c, s0, a, s, t);
    }
  }

  lemma {:induction false} ReplayPrefix(blocks: nat, log: seq<Event>, k: nat)
    requires k <= |log| && Replay(blocks, log).Some?
    ensures Replay(blocks, log[..k]).Some?
  {
    if k < |log| {
      assert log[..|log| - 1][..k] == log[..k];
      ReplayPrefix(blocks, log[..|log| - 1], k);
    } else {
      assert log[..k] == log;
    }
  }

  /** An in-range request that returned NULL took effect when no block was free,
      and one that returned a block took it from the free ones. */
  lemma {:induction false} FailsOnlyWhenEmpty(c: Config, acts: seq<Action>, s: State, k: nat)
    requires Reaches(c, acts, s) && k < |s.calls|
    requires s.calls[k].effect.Took?
    ensures var call := s.calls[k];
            && call.at < |s.log| && Replay(c.blocks, s.log[..call.at]).Some?
            && var free := Replay(c.blocks, s.log[..call.at]).value.free;
            && (call.effect.result.None? <==> free == [])
            && (call.effect.result.Some? ==> call.effect.result.value in free)
  {
    RunKeepsInv(c, acts);
    var call := s.calls[k];
    assert Returned(s.log, call);
    TookWhenEmpty(c.blocks, s.log, call.at);
  }

  lemma TookWhenEmpty(blocks: nat, log: seq<Event>, at: nat)
    requires Replay(blocks, log).Some? && at < |log| && log[at].Took?
    ensures Replay(blocks, log[..at]).Some?
    ensures log[at].result.None? <==> Replay(blocks, log[..at]).value.free == []
    ensures log[at].result.Some? ==> log[at].result.value in Replay(blocks, log[..at]).value.free
  {
    var before, upto := log[..at], log[..at + 1];
    assert upto == before + [log[at]];
    ReplayPrefix(blocks, log, at);
    ReplayPrefix(blocks, log, at + 1);
    ReplayGrows(blocks, before, log[at]);
  }

  /** How many blocks the threads own or carry. */
  function InHands(threads: seq<Thread>): nat {
    if threads == [] then 0
    else InHands(threads[..|threads| - 1]) + |Stock(threads[|threads| - 1])|
  }

  lemma WithoutLast(threads: seq<Thread>, held: set<nat>)
    requires Ownership(threads, held) && threads != []
    ensures Ownership(threads[..|threads| - 1], held - Stock(threads[|threads| - 1]))
    ensures Stock(threads[|threads| - 1]) <= held
  {
    var k := |threads| - 1;
    var rest := threads[..k];
    forall b | b in held - Stock(threads[k]) ensures exists t :: 0 <= t < |rest| && b in Stock(rest[t]) {
      var t :| 0 <= t < |threads| && b in Stock(threads[t]);
      assert b in Stock(rest[t]);
    }
  }

  lemma {:induction false} CountHeld(threads: seq<Thread>, held: set<nat>)
    requires Ownership(threads, held)
    ensures InHands(threads) == |held|
  {
    if threads == [] {
      assert held == {};
    } else {
      var mine := Stock(threads[|threads| - 1]);
      WithoutLast(threads, held);
      CountHeld(threads[..|threads| - 1], held - mine);
      assert held == (held - mine) + mine;
    }
  }

  function Elements(list: seq<nat>): (s: set<nat>)
    ensures forall b :: b in s <==> b in list
  {
    if list == [] then {}
    else
      var k := |list| - 1;
      assert list == list[..k] + [list[k]];
      Elements(list[..k]) + {list[k]}
  }

  lemma {:induction false} CountDistinct(list: seq<nat>)
    requires forall i, j :: 0 <= i < j < |list| ==> list[i] != list[j]
    ensures |Elements(list)| == |list|
  {
    if list != [] {
      CountDistinct(list[..|list| - 1]);
    }
  }

  function Below(n: nat): (s: set<nat>)
    ensures |s| == n && forall b: nat :: b in s <==> b < n
  {
    if n == 0 then {} else Below(n - 1) + {n - 1}
  }

  lemma CountPartition(p: PoolSpec.Pool, n: nat)
    requires p.Partition(n)
    ensures |p.free| + |p.held| == n
  {
    CountDistinct(p.free);
    var free := Elements(p.free);
    assert Below(n) == free + p.held;
    assert free !! p.held;
  }

  /** No block is ever lost or duplicated: free blocks and blocks in some thread's
      hands add up to the pool, and no two threads have the same one. */
  lemma {:induction false} Conservation(c: Config, acts: seq<Action>, s: State)
    requires Reaches(c, acts, s)
    ensures Replay(c.blocks, s.log).Some?
    ensures |Abs(c, s).free| + InHands(s.threads) == c.blocks
    ensures !Shared(s)
  {
    RunKeepsInv(c, acts);
    var p := Abs(c, s);
    CountHeld(s.threads, p.held);
    CountPartition(p, c.blocks);
  }

  // ---- Every call comes back -------------------------------------------------------

  /** How many steps a call has yet to make, at most. */
  function Left(pc: Pc): nat {
    match pc
    case Idle => 0
    case AllocEntry(_) => 6
    case AllocLocked(_) => 5
    case AllocLoadedHead(_, _) => 4
    case AllocLoadedNext(_, _, _) => 3
    case AllocChanged(_, _, _) => 2
    case AllocReturning(_, _, _) => 1
    case FreeEntry(_, _) => 5
    case FreeLocked(_, _) => 4
    case FreeLinked(_, _) => 3
    case FreeChanged(_, _, _) => 2
    case FreeReturning(_, _, _) => 1
  }

  function AllLeft(threads: seq<Thread>): nat {
    if threads == [] then 0 else AllLeft(threads[..|threads| - 1]) + Left(threads[|threads| - 1].pc)
  }

  lemma {:induction false} LeftChanges(threads: seq<Thread>, t: Tid, th: Thread)
    requires t < |threads|
    ensures AllLeft(threads[t := th]) + Left(threads[t].pc) == AllLeft(threads) + Left(th.pc)
  {
    var n, threads' := |threads| - 1, threads[t := th];
    if t < n {
      LeftChanges(threads[..n], t, th);
      assert threads'[..n] == threads[..n][t := th];
    } else {
      assert threads'[..n] == threads[..n];
    }
  }

  lemma AdvanceShortens(c: Config, s: State, t: Tid, s': State)
    requires t < |s.threads| && AdvanceThread(c, s, t) == Some(s')
    ensures |s'.threads| == |s.threads| && s'.threads == s.threads[t := s'.threads[t]]
    ensures Left(s'.threads[t].pc) < Left(s.threads[t].pc)
  {
  }

  lemma LockStays(c: Config, s: State, a: Action, s': State)
    requires Step(c, s, a) == Some(s') && (s.lock.Some? ==> s.lock.value < |s.threads|)
    ensures s'.lock.Some? ==> s'.lock.value < |s'.threads|
  {
  }

  lemma {:induction false} LockIsOwned(c: Config, acts: seq<Action>, s: State)
    requires Run(c, acts) == Some(s)
    ensures s.lock.Some? ==> s.lock.value < |s.threads|
  {
    if acts != [] {
      var before := acts[..|acts| - 1];
      LockIsOwned(c, before, Run(c, before).value);
      LockStays(c, Run(c, before).value, acts[|acts| - 1], s);
    }
  }

  /** A thread goes on that does not have to wait for the mutex. */
  lemma CanAdvance(c: Config, s: State, t: Tid)
    requires c.locking && Inv(c, s) && t < |s.threads| && !s.threads[t].pc.Idle?
    requires s.lock.None? || s.lock == Some(t)
    ensures AdvanceThread(c, s, t).Some?
  {
    var th := s.threads[t];
    assert ThreadOk(s, t) && Stock(th) <= Abs(c, s).held;
    if th.pc.FreeLocked? { assert th.pc.block in Stock(th); }
  }

  /** No deadlock: while a call is in progress some thread can make a step. */
  lemma {:induction false} NoDeadlock(c: Config, acts: seq<Action>, s: State) returns (t: Tid)
    requires Reaches(c, acts, s) && !Resting(s)
    ensures t < |s.threads| && Step(c, s, Advance(t)).Some?
  {
    RunKeepsInv(c, acts);
    LockIsOwned(c, acts, s);
    t :| 0 <= t < |s.threads| && !s.threads[t].pc.Idle?;
    if s.lock.Some? {
      t := s.lock.value;
      assert ThreadOk(s, t);
    }
    CanAdvance(c, s, t);
  }

  ghost predicate Resting(s: State) {
    forall t :: 0 <= t < |s.threads| ==> s.threads[t].pc.Idle?
  }

  /** Every step of a call in progress leaves fewer to make. */
  lemma Shortens(c: Config, acts: seq<Action>, s: State, t: Tid, s': State)
    requires Reaches(c, acts, s) && Step(c, s, Advance(t)) == Some(s')
    ensures Reaches(c, acts + [Advance(t)], s') && AllLeft(s'.threads) < AllLeft(s.threads)
  {
    AdvanceShortens(c, s, t, s');
    LeftChanges(s.threads, t, s'.threads[t]);
    RunThen(c, acts, s, Advance(t));
  }

  lemma Grouped(acts: seq<Action>, a: Action, rest: seq<Action>)
    ensures acts + ([a] + rest) == acts + [a] + rest
  {
  }

  /** From every reachable state the calls in progress can all come back, and a step of
      any of them brings that nearer: a call cannot go on for ever. */
  lemma {:induction false} ComesToRest(c: Config, acts: seq<Action>, s: State) returns (more: seq<Action>, s': State)
    requires Reaches(c, acts, s)
    ensures Run(c, acts + more) == Some(s') && Resting(s') && forall i :: 0 <= i < |more| ==> more[i].Advance?
    decreases AllLeft(s.threads)
  {
    if Resting(s) {
      more, s' := [], s;
      assert acts + more == acts;
    } else {
      var t := NoDeadlock(c, acts, s);
      var a := Advance(t);
      var s1 := Step(c, s, a).value;
      Shortens(c, acts, s, t, s1);
      var rest;
      rest, s' := ComesToRest(c, acts + [a], s1);
      more := [a] + rest;
      Grouped(acts, a, rest);
    }
  }

  /** Two threads have the same block in their hands. */
  ghost predicate Shared(s: State) {
    exists t, u, b :: 0 <= t < u < |s.threads| && b in Stock(s.threads[t]) && b in Stock(s.threads[u])
  }

  lemma RunThen(c: Config, acts: seq<Action>, s: State, a: Action)
    requires Run(c, acts) == Some(s)
    ensures Run(c, acts + [a]) == Step(c, s, a)
  {
    assert (acts + [a])[..|acts|] == acts;
  }

  /** Thread `t` calls pool_alloc and loads the head without ever waiting. */
  lemma UnlockedLoad(c: Config, acts: seq<Action>, s: State, t: Tid, b: nat) returns (acts': seq<Action>, s': State)
    requires !c.locking && Run(c, acts) == Some(s) && t < |s.threads| && s.threads[t] == Thread(Idle, {})
    requires s.head == Some(b) && s.log == []
    ensures Run(c, acts') == Some(s')
    ensures s' == s.(threads := s.threads[t := Thread(AllocLoadedHead(0, b), {})])
  {
    var s1 := Goto(s, t, AllocEntry(0));
    acts' := Then(c, acts, s, CallAlloc(t), s1);
    var s2 := Goto(s1, t, AllocLocked(0));
    acts' := Then(c, acts', s1, Advance(t), s2);
    s' := Goto(s2, t, AllocLoadedHead(0, b));
    acts' := Then(c, acts', s2, Advance(t), s');
  }

  lemma Then(c: Config, acts: seq<Action>, s: State, a: Action, s': State) returns (more: seq<Action>)
    requires Run(c, acts) == Some(s) && Step(c, s, a) == Some(s')
    ensures Run(c, more) == Some(s')
  {
    more := acts + [a];
    assert more[..|acts|] == acts;
  }

  /** Thread `t` goes on from the head it loaded and takes that block. */
  lemma UnlockedTake(c: Config, acts: seq<Action>, s: State, t: Tid, b: nat) returns (acts': seq<Action>, s': State)
    requires Run(c, acts) == Some(s) && t < |s.threads| && b < |s.link|
    requires s.threads[t] == Thread(AllocLoadedHead(0, b), {})
    ensures Run(c, acts') == Some(s') && s'.link == s.link && |s'.threads| == |s.threads|
    ensures Stock(s'.threads[t]) == {b}
    ensures forall u :: 0 <= u < |s.threads| && u != t ==> s'.threads[u] == s.threads[u]
  {
    var s1 := Goto(s, t, AllocLoadedNext(0, b, s.link[b]));
    RunThen(c, acts, s, Advance(t));
    RunThen(c, acts + [Advance(t)], s1, Advance(t));
    acts' := acts + [Advance(t)] + [Advance(t)];
    s' := Step(c, s1, Advance(t)).value;
  }

  /** Without the mutex two threads can be given the same block. */
  lemma UnlockedShares(c: Config)
    requires !c.locking && c.blocks >= 1 && c.threads >= 2
    ensures exists acts :: Run(c, acts).Some? && Shared(Run(c, acts).value)
  {
    var s, b := Init(c), c.blocks - 1;
    var acts := [];
    acts, s := UnlockedLoad(c, acts, s, 0, b);
    acts, s := UnlockedLoad(c, acts, s, 1, b);
    acts, s := UnlockedTake(c, acts, s, 0, b);
    acts, s := UnlockedTake(c, acts, s, 1, b);
    assert b in Stock(s.threads[0]) && b in Stock(s.threads[1]);
    assert Run(c, acts).Some? && Shared(Run(c, acts).value);
  }

  /** The mutex is what makes the pool safe: with at least one block and two
      threads, no schedule shares a block exactly when the pool locks. */
  lemma SafeIffLocking(c: Config)
    requires c.blocks >= 1 && c.threads >= 2
    ensures c.locking <==> forall acts :: Run(c, acts).Some? ==> !Shared(Run(c, acts).value)
  {
    if c.locking {
      forall acts | Run(c, acts).Some? ensures !Shared(Run(c, acts).value) {
        Conservation(c, acts, Run(c, acts).value);
      }
    } else {
      UnlockedShares(c);
    }
  }
}
