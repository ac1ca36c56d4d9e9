/** The JNI class caches: several (class, constructor) pairs, each resolved once under
    one shared mutex and read outside it, by any number of threads. */
module ClassCache {
  import opened Base

  type Tid = nat
  type Slot = nat

  /** `locking` false drops the mutex. */
  datatype Config = Config(threads: nat, slots: nat, locking: bool)

  /** Both halves name the resolution they come from; a global class reference is
      named by its resolution too. */
  datatype Cache = Cache(cls: Option<nat>, ctor: Option<nat>)

  /** `Checking` to `Unlocking` run under the mutex. */
  datatype Pc =
    | Idle
    | Waiting(c: Slot)
    | Checking(c: Slot)
    | Finding(c: Slot)
    | Found(c: Slot)
    | Global(c: Slot, g: nat)
    | Resolved(c: Slot, g: nat)
    | HalfStored(c: Slot, g: nat)
    | Unlocking(c: Slot, ok: bool)
    | ReadingCls(c: Slot)
    | ReadingCtor(c: Slot, cls: Option<nat>)
    | Got(c: Slot, cls: Option<nat>, ctor: Option<nat>)

  datatype State = State(
    threads: seq<Pc>,
    lock: Option<Tid>,
    caches: seq<Cache>,
    globals: set<nat>,
    next: nat)

  datatype Action = Call(t: Tid, c: Slot) | Advance(t: Tid, ok: bool)

  function Init(cfg: Config): State {
    State(seq(cfg.threads, i requires 0 <= i < cfg.threads => Idle), None,
          seq(cfg.slots, i requires 0 <= i < cfg.slots => Cache(None, None)), {}, 0)
  }

  function At(s: State, t: Tid, pc: Pc): State
    requires t < |s.threads|
  {
    s.(threads := s.threads[t := pc])
  }

  function Release(cfg: Config, s: State): State {
    if cfg.locking then s.(lock := None) else s
  }

  /** One step of thread `t`; `ok` says whether the JNI call it makes succeeds. */
  function StepThread(cfg: Config, s: State, t: Tid, ok: bool): Option<State>
    requires t < |s.threads|
  {
    match s.threads[t]
    case Idle => None
    case Waiting(c) =>
      if !cfg.locking then Some(At(s, t, Checking(c)))
      else if s.lock.Some? then None
      else Some(At(s, t, Checking(c)).(lock := Some(t)))
    case Checking(c) =>
      if c >= |s.caches| then None
      else Some(At(s, t, if s.caches[c].cls.None? then Finding(c) else Unlocking(c, true)))
    case Finding(c) =>
      // FindClass
      Some(At(s, t, if ok then Found(c) else Unlocking(c, false)))
    case Found(c) =>
      // NewGlobalRef
      Some(if ok then At(s, t, Global(c, s.next)).(globals := s.globals + {s.next}, next := s.next + 1)
           else At(s, t, Unlocking(c, false)))
    case Global(c, g) =>
      // GetMethodID; a class without the constructor loses its global reference again
      Some(if ok then At(s, t, Resolved(c, g))
           else At(s, t, Unlocking(c, false)).(globals := s.globals - {g}))
    case Resolved(c, g) =>
      if c >= |s.caches| then None
      else Some(At(s, t, HalfStored(c, g)).(caches := s.caches[c := s.caches[c].(ctor := Some(g))]))
    case HalfStored(c, g) =>
      if c >= |s.caches| then None
      else Some(At(s, t, Unlocking(c, true)).(caches := s.caches[c := s.caches[c].(cls := Some(g))]))
    case Unlocking(c, found) =>
      Some(Release(cfg, At(s, t, if found then ReadingCls(c) else Idle)))
    case ReadingCls(c) =>
      if c >= |s.caches| then None else Some(At(s, t, ReadingCtor(c, s.caches[c].cls)))
    case ReadingCtor(c, cls) =>
      if c >= |s.caches| then None else Some(At(s, t, Got(c, cls, s.caches[c].ctor)))
    case Got(_, _, _) => Some(At(s, t, Idle))
  }

  function Step(cfg: Config, s: State, a: Action): Option<State> {
    match a
    case Call(t, c) =>
      if t < |s.threads| && s.threads[t].Idle? && c < |s.caches| then Some(At(s, t, Waiting(c))) else None
    case Advance(t, ok) =>
      if t < |s.threads| then StepThread(cfg, s, t, ok) else None
  }

  function From(cfg: Config, s: State, acts: seq<Action>): Option<State> {
    if acts == [] then Some(s)
    else
      var before := From(cfg, s, acts[..|acts| - 1]);
      if before.None? then None else Step(cfg, before.value, acts[|acts| - 1])
  }

  function Run(cfg: Config, acts: seq<Action>): Option<State> {
    From(cfg, Init(cfg), acts)
  }

  // ---- The invariant ----------------------------------------------------------

  predicate Critical(pc: Pc) {
    !pc.Idle? && !pc.Waiting? && !pc.ReadingCls? && !pc.ReadingCtor? && !pc.Got?
  }

  /** The global reference a thread has obtained and not yet cached. */
  function Carried(pc: Pc): set<nat> {
    if pc.Global? || pc.Resolved? || pc.HalfStored? then {pc.g} else {}
  }

  ghost predicate Locks(threads: seq<Pc>, lock: Option<Tid>) {
    && (lock.Some? ==> lock.value < |threads|)
    && forall t :: 0 <= t < |threads| ==> (Critical(threads[t]) <==> lock == Some(t))
  }

  /** The pair is complete or empty, except for the thread that is storing it. */
  predicate Whole(cache: Cache) {
    cache.cls == cache.ctor
  }

  /** What the thread at `pc` knows about the cache it works on. */
  predicate Knows(pc: Pc, caches: seq<Cache>) {
    && (!pc.Idle? ==> pc.c < |caches|)
    && match pc
       case Finding(c) => caches[c].cls.None?
       case Found(c) => caches[c].cls.None?
       case Global(c, g) => caches[c].cls.None?
       case Resolved(c, g) => caches[c].cls.None?
       case HalfStored(c, g) => caches[c] == Cache(None, Some(g))
       case Unlocking(c, ok) => caches[c].cls.Some? <==> ok
       case ReadingCls(c) => caches[c].cls.Some?
       case ReadingCtor(c, cls) => cls.Some? && caches[c].cls == cls
       case Got(c, cls, ctor) => cls.Some? && caches[c].cls == cls && ctor == cls
       case _ => true
  }

  predicate Storing(threads: seq<Pc>, lock: Option<Tid>, c: Slot) {
    lock.Some? && lock.value < |threads| && threads[lock.value].HalfStored? && threads[lock.value].c == c
  }

  ghost predicate Pairs(threads: seq<Pc>, lock: Option<Tid>, caches: seq<Cache>) {
    && (forall c :: 0 <= c < |caches| ==> Whole(caches[c]) || Storing(threads, lock, c))
    && (forall t :: 0 <= t < |threads| ==> Knows(threads[t], caches))
  }

  function Held(threads: seq<Pc>, lock: Option<Tid>): set<nat> {
    if lock.Some? && lock.value < |threads| then Carried(threads[lock.value]) else {}
  }

  function Classes(caches: seq<Cache>): set<nat> {
    set c | 0 <= c < |caches| && caches[c].cls.Some? :: caches[c].cls.value
  }

  /** Live global references: the cached classes, each cached once, and the one the
      thread under the mutex has just obtained. */
  ghost predicate Retained(caches: seq<Cache>, held: set<nat>, globals: set<nat>, next: nat) {
    && globals == Classes(caches) + held && Classes(caches) !! held
    && (forall c, d :: 0 <= c < |caches| && 0 <= d < |caches| && caches[c].cls.Some? && caches[c].cls == caches[d].cls ==> c == d)
    && forall g :: g in globals ==> g < next
  }

  ghost predicate Inv(cfg: Config, s: State) {
    && |s.threads| == cfg.threads && |s.caches| == cfg.slots
    && Locks(s.threads, s.lock) && Pairs(s.threads, s.lock, s.caches)
    && Retained(s.caches, Held(s.threads, s.lock), s.globals, s.next)
  }

  lemma LocksKept(s: State, t: Tid, pc: Pc, lock: Option<Tid>)
    requires Locks(s.threads, s.lock) && t < |s.threads|
    requires Critical(pc) <==> lock == Some(t)
    requires lock == s.lock || (s.lock == None && lock == Some(t)) || (s.lock == Some(t) && lock == None)
    ensures Locks(s.threads[t := pc], lock)
  {
  }

  /** A step that leaves the caches alone. */
  lemma ThreadMoves(cfg: Config, s: State, t: Tid, pc: Pc, lock: Option<Tid>, s': State)
    requires Inv(cfg, s) && t < |s.threads| && Knows(pc, s.caches)
    requires !s.threads[t].HalfStored? && !pc.HalfStored?
    requires Critical(pc) <==> lock == Some(t)
    requires lock == s.lock || (s.lock == None && lock == Some(t)) || (s.lock == Some(t) && lock == None)
    requires s' == At(s, t, pc).(lock := lock, globals := s'.globals, next := s'.next)
    requires Retained(s.caches, Held(s'.threads, lock), s'.globals, s'.next)
    ensures Inv(cfg, s')
  {
    LocksKept(s, t, pc, lock);
  }

  lemma StoreCtor(cfg: Config, s: State, t: Tid)
    requires Inv(cfg, s) && t < |s.threads| && s.threads[t].Resolved?
    ensures s.threads[t].c < |s.caches|
    ensures var pc := s.threads[t];
            Inv(cfg, At(s, t, HalfStored(pc.c, pc.g)).(caches := s.caches[pc.c := s.caches[pc.c].(ctor := Some(pc.g))]))
  {
    var pc := s.threads[t];
    assert Knows(pc, s.caches);
    var caches := s.caches[pc.c := s.caches[pc.c].(ctor := Some(pc.g))];
    LocksKept(s, t, HalfStored(pc.c, pc.g), s.lock);
    assert forall c :: 0 <= c < |caches| ==> caches[c].cls == s.caches[c].cls;
    assert Classes(caches) == Classes(s.caches);
    assert forall u :: 0 <= u < |s.threads| && u != t ==> Knows(s.threads[u], s.caches) && !Critical(s.threads[u]);
  }

  lemma Cached(caches: seq<Cache>, c: Slot, g: nat)
    requires c < |caches| && caches[c].cls.None?
    ensures Classes(caches[c := caches[c].(cls := Some(g))]) == Classes(caches) + {g}
  {
    var caches' := caches[c := caches[c].(cls := Some(g))];
    assert caches'[c].cls.value == g;
    forall d | 0 <= d < |caches| && caches[d].cls.Some? ensures caches[d].cls.value in Classes(caches') {
      assert caches'[d] == caches[d];
    }
  }

  lemma StoreCls(cfg: Config, s: State, t: Tid)
    requires Inv(cfg, s) && t < |s.threads| && s.threads[t].HalfStored?
    ensures s.threads[t].c < |s.caches|
    ensures var pc := s.threads[t];
            Inv(cfg, At(s, t, Unlocking(pc.c, true)).(caches := s.caches[pc.c := s.caches[pc.c].(cls := Some(pc.g))]))
  {
    var pc := s.threads[t];
    assert Knows(pc, s.caches);
    Cached(s.caches, pc.c, pc.g);
    LocksKept(s, t, Unlocking(pc.c, true), s.lock);
    assert forall u :: 0 <= u < |s.threads| && u != t ==> Knows(s.threads[u], s.caches) && !Critical(s.threads[u]);
    assert forall d :: 0 <= d < |s.caches| && s.caches[d].cls.Some? ==> s.caches[d].cls.value in Classes(s.caches);
  }

  lemma ThreadKeeps(cfg: Config, s: State, t: Tid, ok: bool, s': State)
    requires cfg.locking && Inv(cfg, s) && t < |s.threads| && StepThread(cfg, s, t, ok) == Some(s')
    ensures Inv(cfg, s')
  {
    assert Knows(s.threads[t], s.caches);
    match s.threads[t]
    case Resolved(_, _) => StoreCtor(cfg, s, t);
    case HalfStored(_, _) => StoreCls(cfg, s, t);
    case Idle =>
    case _ => ThreadMoves(cfg, s, t, s'.threads[t], s'.lock, s');
  }

  lemma StepKeepsInv(cfg: Config, s: State, a: Action, s': State)
    requires cfg.locking && Inv(cfg, s) && Step(cfg, s, a) == Some(s')
    ensures Inv(cfg, s')
  {
    match a
    case Call(t, c) => ThreadMoves(cfg, s, t, Waiting(c), s.lock, s');
    case Advance(t, ok) => ThreadKeeps(cfg, s, t, ok, s');
  }

  lemma {:induction false} RunKeepsInv(cfg: Config, acts: seq<Action>)
    requires cfg.locking && Run(cfg, acts).Some?
    ensures Inv(cfg, Run(cfg, acts).value)
  {
    if acts == [] {
      assert Classes(Init(cfg).caches) == {};
    } else {
      var before := acts[..|acts| - 1];
      RunKeepsInv(cfg, before);
      StepKeepsInv(cfg, Run(cfg, before).value, acts[|acts| - 1], Run(cfg, acts).value);
    }
  }

  // ---- Main results -------------------------------------------------------------

  /** `acts` is a schedule of the cache as it is written, and leads to `s`. */
  ghost predicate Reaches(cfg: Config, acts: seq<Action>, s: State) {
    cfg.locking && Run(cfg, acts) == Some(s)
  }

  /** A thread that was told true and has read the pair outside the mutex has the two
      halves of one resolution, still cached, whose class reference is live. */
  lemma {:induction false} ReadsOnePair(cfg: Config, acts: seq<Action>, s: State, t: Tid)
    requires Reaches(cfg, acts, s)
    requires t < |s.threads| && s.threads[t].Got?
    ensures var pc := s.threads[t];
            && pc.c < |s.caches| && pc.cls.Some? && pc.ctor == pc.cls
            && s.caches[pc.c] == Cache(pc.cls, pc.ctor) && pc.cls.value in s.globals
  {
    RunKeepsInv(cfg, acts);
    assert forall u :: 0 <= u < |s.threads| ==> Knows(s.threads[u], s.caches);
    assert s.caches[s.threads[t].c].cls.value in Classes(s.caches);
  }

  /** A thread about to answer false leaves its cache empty, so that the next call
      starts over; one about to answer true leaves it resolved. */
  lemma {:induction false} AnswerMatchesCache(cfg: Config, acts: seq<Action>, s: State, t: Tid)
    requires Reaches(cfg, acts, s)
    requires t < |s.threads| && s.threads[t].Unlocking?
    ensures var pc := s.threads[t];
            && pc.c < |s.caches| && Whole(s.caches[pc.c])
            && (pc.ok <==> s.caches[pc.c] != Cache(None, None))
  {
    RunKeepsInv(cfg, acts);
    assert Knows(s.threads[t], s.caches) && Critical(s.threads[t]);
  }

  /** Whenever nobody is under the mutex the live global references are those of the
      resolved caches, exactly one each; failed attempts retain none. */
  lemma {:induction false} OneGlobalPerCache(cfg: Config, acts: seq<Action>, s: State)
    requires Reaches(cfg, acts, s) && s.lock == None
    ensures forall g :: g in s.globals <==> exists c :: 0 <= c < |s.caches| && s.caches[c].cls == Some(g)
    ensures forall c, d :: 0 <= c < d < |s.caches| && s.caches[c].cls.Some? ==> s.caches[c].cls != s.caches[d].cls
    ensures forall c :: 0 <= c < |s.caches| ==> Whole(s.caches[c])
  {
    RunKeepsInv(cfg, acts);
    forall g | exists c :: 0 <= c < |s.caches| && s.caches[c].cls == Some(g) ensures g in s.globals {
      var c :| 0 <= c < |s.caches| && s.caches[c].cls == Some(g);
      assert s.caches[c].cls.value in Classes(s.caches);
    }
  }

  lemma StepKeepsPair(cfg: Config, s: State, a: Action, s': State, c: Slot)
    requires cfg.locking && Inv(cfg, s) && Step(cfg, s, a) == Some(s')
    requires c < |s.caches| && s.caches[c].cls.Some?
    ensures c < |s'.caches| && s'.caches[c] == s.caches[c]
  {
    if a.Advance? { assert Knows(s.threads[a.t], s.caches); }
  }

  /** Once resolved, a pair never changes, whatever happens afterwards. */
  lemma {:induction false} PairNeverChanges(cfg: Config, acts: seq<Action>, more: seq<Action>, c: Slot)
    requires cfg.locking && Run(cfg, acts).Some? && From(cfg, Run(cfg, acts).value, more).Some?
    requires c < |Run(cfg, acts).value.caches| && Run(cfg, acts).value.caches[c].cls.Some?
    ensures Run(cfg, acts + more) == From(cfg, Run(cfg, acts).value, more)
    ensures c < |Run(cfg, acts + more).value.caches|
    ensures Run(cfg, acts + more).value.caches[c] == Run(cfg, acts).value.caches[c]
  {
    if more == [] {
      assert acts + more == acts;
    } else {
      var before := more[..|more| - 1];
      PairNeverChanges(cfg, acts, before, c);
      assert (acts + more)[..|acts + more| - 1] == acts + before;
      RunKeepsInv(cfg, acts + before);
      StepKeepsPair(cfg, Run(cfg, acts + before).value, more[|more| - 1], Run(cfg, acts + more).value, c);
    }
  }

  // ---- The mutex is needed -------------------------------------------------------

  /** A thread has read the two halves of different resolutions. */
  ghost predicate Mixed(s: State) {
    exists t :: 0 <= t < |s.threads| && s.threads[t].Got? && s.threads[t].cls != s.threads[t].ctor
  }

  lemma Then(cfg: Config, acts: seq<Action>, s: State, a: Action, s': State) returns (more: seq<Action>)
    requires Run(cfg, acts) == Some(s) && Step(cfg, s, a) == Some(s')
    ensures more == acts + [a] && Run(cfg, more) == Some(s')
  {
    more := acts + [a];
    assert more[..|more| - 1] == acts;
  }

  lemma Goes(cfg: Config, acts: seq<Action>, s: State, t: Tid, pc: Pc, s0: State, pc': Pc, s1: State) returns (more: seq<Action>)
    requires t < |s.threads| && Run(cfg, acts) == Some(s0) && s0.threads == s.threads[t := pc]
    requires s1.threads == s.threads[t := pc']
    requires StepThread(cfg, s0, t, true) == Some(s1.(threads := s0.threads[t := pc']))
    ensures Run(cfg, more) == Some(s1)
  {
    assert s0.threads[t := pc'] == s1.threads;
    more := Then(cfg, acts, s0, Advance(t, true), s1);
  }

  /** A thread that calls while the mutex is free, every JNI call succeeding, is told true
      and has the pair: the one that was cached, or else a new one, which then is. */
  lemma {:induction false} SucceedsAlone(cfg: Config, acts: seq<Action>, s: State, t: Tid, c: Slot) returns (more: seq<Action>)
    requires Reaches(cfg, acts, s) && s.lock.None? && t < |s.threads| && s.threads[t].Idle? && c < |s.caches|
    ensures var known := s.caches[c].cls.Some?;
            var g := if known then s.caches[c].cls.value else s.next;
            Run(cfg, more) ==
            Some(s.(threads := s.threads[t := Got(c, Some(g), Some(g))], caches := s.caches[c := Cache(Some(g), Some(g))],
                    globals := if known then s.globals else s.globals + {g}, next := if known then s.next else s.next + 1))
  {
    RunKeepsInv(cfg, acts);
    var s1 := At(s, t, Waiting(c));
    more := Then(cfg, acts, s, Call(t, c), s1);
    var s2 := At(s, t, Checking(c)).(lock := Some(t));
    more := Goes(cfg, more, s, t, Waiting(c), s1, Checking(c), s2);
    if s.caches[c].cls.Some? {
      var s3 := At(s, t, Unlocking(c, true)).(lock := Some(t));
      more := Goes(cfg, more, s, t, Checking(c), s2, Unlocking(c, true), s3);
      more := Reads(cfg, more, s, t, c, s.caches[c].cls.value);
      assert s.caches[c := s.caches[c]] == s.caches;
    } else {
      more := ResolvesLocked(cfg, more, s, t, c);
    }
  }

  lemma ResolvesLocked(cfg: Config, acts: seq<Action>, s: State, t: Tid, c: Slot) returns (more: seq<Action>)
    requires cfg.locking && t < |s.threads| && c < |s.caches| && s.lock.None? && s.caches[c] == Cache(None, None)
    requires Run(cfg, acts) == Some(At(s, t, Checking(c)).(lock := Some(t)))
    ensures var g := s.next;
            Run(cfg, more) ==
            Some(s.(threads := s.threads[t := Got(c, Some(g), Some(g))], caches := s.caches[c := Cache(Some(g), Some(g))],
                    globals := s.globals + {g}, next := g + 1))
  {
    var g, s2 := s.next, At(s, t, Checking(c)).(lock := Some(t));
    var s3 := At(s, t, Finding(c)).(lock := Some(t));
    more := Goes(cfg, acts, s, t, Checking(c), s2, Finding(c), s3);
    var s4 := At(s, t, Found(c)).(lock := Some(t));
    more := Goes(cfg, more, s, t, Finding(c), s3, Found(c), s4);
    var s5 := At(s, t, Global(c, g)).(lock := Some(t), globals := s.globals + {g}, next := g + 1);
    more := Goes(cfg, more, s, t, Found(c), s4, Global(c, g), s5);
    var s6 := s5.(threads := s.threads[t := Resolved(c, g)]);
    more := Goes(cfg, more, s, t, Global(c, g), s5, Resolved(c, g), s6);
    more := Stores(cfg, more, s, t, c, s6);
    var s9 := s.(caches := s.caches[c := Cache(Some(g), Some(g))], globals := s.globals + {g}, next := g + 1);
    more := Reads(cfg, more, s9, t, c, g);
  }

  /** Both stores of a resolution. */
  lemma Stores(cfg: Config, acts: seq<Action>, s: State, t: Tid, c: Slot, s6: State) returns (more: seq<Action>)
    requires t < |s.threads| && c < |s.caches| && s.caches[c] == Cache(None, None) && Run(cfg, acts) == Some(s6)
    requires s6 == At(s, t, Resolved(c, s.next)).(lock := Some(t), globals := s.globals + {s.next}, next := s.next + 1)
    ensures var g := s.next;
            Run(cfg, more) == Some(s6.(threads := s.threads[t := Unlocking(c, true)], caches := s.caches[c := Cache(Some(g), Some(g))]))
  {
    var g := s.next;
    var s7 := s6.(threads := s.threads[t := HalfStored(c, g)], caches := s.caches[c := Cache(None, Some(g))]);
    more := Goes(cfg, acts, s, t, Resolved(c, g), s6, HalfStored(c, g), s7);
    var s8 := s6.(threads := s.threads[t := Unlocking(c, true)], caches := s.caches[c := Cache(Some(g), Some(g))]);
    assert s7.caches[c := Cache(Some(g), Some(g))] == s8.caches;
    more := Goes(cfg, more, s, t, HalfStored(c, g), s7, Unlocking(c, true), s8);
  }

  /** The mutex is released and both halves are read. */
  lemma Reads(cfg: Config, acts: seq<Action>, s: State, t: Tid, c: Slot, g: nat) returns (more: seq<Action>)
    requires cfg.locking && t < |s.threads| && c < |s.caches| && s.lock.None? && s.caches[c] == Cache(Some(g), Some(g))
    requires Run(cfg, acts) == Some(At(s, t, Unlocking(c, true)).(lock := Some(t)))
    ensures Run(cfg, more) == Some(At(s, t, Got(c, Some(g), Some(g))))
  {
    var s1 := At(s, t, ReadingCls(c));
    more := Goes(cfg, acts, s, t, Unlocking(c, true), At(s, t, Unlocking(c, true)).(lock := Some(t)), ReadingCls(c), s1);
    var s2 := At(s, t, ReadingCtor(c, Some(g)));
    more := Goes(cfg, more, s, t, ReadingCls(c), s1, ReadingCtor(c, Some(g)), s2);
    more := Goes(cfg, more, s, t, ReadingCtor(c, Some(g)), s2, Got(c, Some(g), Some(g)), At(s, t, Got(c, Some(g), Some(g))));
  }

  /** Without the mutex any thread can resolve an empty cache on its own. */
  lemma Resolves(cfg: Config, acts: seq<Action>, s: State, t: Tid) returns (more: seq<Action>, s': State)
    requires !cfg.locking && Run(cfg, acts) == Some(s)
    requires t < |s.threads| && s.threads[t].Idle? && |s.caches| > 0 && s.caches[0].cls.None?
    ensures Run(cfg, more) == Some(s')
    ensures s' == At(s, t, Resolved(0, s.next)).(globals := s'.globals, next := s.next + 1)
  {
    var s1 := At(s, t, Waiting(0));
    more := Then(cfg, acts, s, Call(t, 0), s1);
    var s2 := At(s1, t, Checking(0));
    more := Then(cfg, more, s1, Advance(t, true), s2);
    var s3 := At(s2, t, Finding(0));
    more := Then(cfg, more, s2, Advance(t, true), s3);
    var s4 := At(s3, t, Found(0));
    more := Then(cfg, more, s3, Advance(t, true), s4);
    var s5 := At(s4, t, Global(0, s.next)).(globals := s.globals + {s.next}, next := s.next + 1);
    more := Then(cfg, more, s4, Advance(t, true), s5);
    s' := At(s5, t, Resolved(0, s.next));
    more := Then(cfg, more, s5, Advance(t, true), s');
  }

  lemma UnlockedMixes(cfg: Config)
    requires !cfg.locking && cfg.threads > 1 && cfg.slots > 0
    ensures exists acts :: Run(cfg, acts).Some? && Mixed(Run(cfg, acts).value)
  {
    var acts, s := Resolves(cfg, [], Init(cfg), 0);
    var s1;
    acts, s1 := Resolves(cfg, acts, s, 1);
    var s2 := At(s1, 0, HalfStored(0, 0)).(caches := s1.caches[0 := Cache(None, Some(0))]);
    acts := Then(cfg, acts, s1, Advance(0, true), s2);
    var s3 := At(s2, 0, Unlocking(0, true)).(caches := s2.caches[0 := Cache(Some(0), Some(0))]);
    acts := Then(cfg, acts, s2, Advance(0, true), s3);
    var s4 := At(s3, 1, HalfStored(0, 1)).(caches := s3.caches[0 := Cache(Some(0), Some(1))]);
    acts := Then(cfg, acts, s3, Advance(1, true), s4);
    ReadsMixed(cfg, acts, s4);
  }

  lemma ReadsMixed(cfg: Config, acts: seq<Action>, s: State)
    requires !cfg.locking && Run(cfg, acts) == Some(s) && |s.threads| > 0 && s.threads[0] == Unlocking(0, true)
    requires |s.caches| > 0 && s.caches[0] == Cache(Some(0), Some(1))
    ensures exists more :: Run(cfg, more).Some? && Mixed(Run(cfg, more).value)
  {
    var s1 := At(s, 0, ReadingCls(0));
    var more := Then(cfg, acts, s, Advance(0, true), s1);
    var s2 := At(s1, 0, ReadingCtor(0, Some(0)));
    more := Then(cfg, more, s1, Advance(0, true), s2);
    var s3 := At(s2, 0, Got(0, Some(0), Some(1)));
    more := Then(cfg, more, s2, Advance(0, true), s3);
    assert s3.threads[0].Got?;
    assert Mixed(s3);
  }

  /** For two or more threads, every pair read is of one resolution exactly when the
      resolution runs under the mutex. */
  lemma OnePairIffLocking(cfg: Config)
    requires cfg.threads > 1 && cfg.slots > 0
    ensures cfg.locking <==> forall acts :: Run(cfg, acts).Some? ==> !Mixed(Run(cfg, acts).value)
  {
    if cfg.locking {
      forall acts | Run(cfg, acts).Some? ensures !Mixed(Run(cfg, acts).value) {
        RunKeepsInv(cfg, acts);
        var s := Run(cfg, acts).value;
        assert forall t :: 0 <= t < |s.threads| ==> Knows(s.threads[t], s.caches);
      }
    } else {
      UnlockedMixes(cfg);
    }
  }
}
