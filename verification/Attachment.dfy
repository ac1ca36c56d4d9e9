/** WaitSet::attach_condition in the C++ and Java bindings: release contexts that
    own a reference to the attached condition, offered to the core and released by
    whichever way the attachment ends. Any number of threads, every interleaving. */

module Attachment {
  import opened Base
  import opened References

  type Cond = nat
  type WaitSet = nat
  type CtxId = nat
  type Resource = nat
  type Tid = nat

  datatype Binding = Cpp | Jni

  /** Who holds a reference: the application, the argument of a call in progress, a
      release context, or nobody any more (a Java reference that was never deleted). */
  datatype Holder = App(i: nat) | Arg(t: nat) | InContext(x: nat) | Leaked(x: nat)

  /** Which of the core's two answers decides that the caller keeps the context. */
  datatype Cleanup = Both | RcOnly | AcceptedOnly

  /** `captured`: a context is returned to the memory resource it came from, rather
      than to whatever the process-wide default is when it is freed. */
  datatype Config = Config(binding: Binding, threads: nat, cleanup: Cleanup, captured: bool)

  datatype Rc = OK | OUT_OF_RESOURCES | ALREADY_DELETED

  /** Guard conditions end with their last C++ wrapper; the others with their entity. */
  datatype Condition = Condition(guard: bool, destroyed: bool)

  datatype Ctx = Ctx(cond: Cond, resource: Resource, pinned: bool)

  datatype Pc =
    | Idle
    | Called(ws: WaitSet, cond: Cond)
    | Allocated(ws: WaitSet, cond: Cond, x: CtxId)
    | Ready(ws: WaitSet, cond: Cond, x: CtxId)
    | Answered(ws: WaitSet, cond: Cond, x: CtxId, rc: Rc, accepted: bool)
    | Done(ws: WaitSet, cond: Cond, rc: Rc)

  /** Who must free a live context. Auxiliary: no step looks at it. */
  datatype Owner = Caller(t: Tid) | Stored(key: (WaitSet, Cond)) | Releasing

  datatype State = State(
    threads: seq<Pc>,
    conds: map<Cond, Condition>,
    waitsets: set<WaitSet>,
    attached: map<(WaitSet, Cond), CtxId>,
    pending: multiset<CtxId>,
    heap: map<CtxId, Ctx>,
    next: CtxId,
    freed: multiset<CtxId>,
    refs: map<Holder, Cond>,
    counts: map<Cond, nat>,
    default: Resource,
    outstanding: map<Resource, nat>,
    fault: bool,
    owner: map<CtxId, Owner>)

  /** The steps of attach_condition. */
  datatype CallAction =
    | Call(t: Tid, ws: WaitSet, i: nat)
    | Alloc(t: Tid, ok: bool)
    | Pin(t: Tid, ok: bool)
    | Offer(t: Tid)
    | Refuse(t: Tid, rc: Rc, accepted: bool)
    | Settle(t: Tid)
    | Leave(t: Tid)

  /** What the application does with its own references and settings. */
  datatype AppAction =
    | NewCondition(c: Cond, guard: bool, i: nat)
    | NewWaitSet(ws: WaitSet)
    | CopyRef(i: nat, j: nat)
    | DropRef(i: nat)
    | SetDefault(r: Resource)

  datatype Action =
    | Attach(call: CallAction)
    | Use(app: AppAction)
    | Detach(ws: WaitSet, c: Cond)
    | DestroyWaitSet(ws: WaitSet)
    | DestroyCondition(c: Cond)
    | Release(x: CtxId, env: bool)

  function Init(cfg: Config): State {
    State(seq(cfg.threads, i requires 0 <= i < cfg.threads => Idle), map[], {}, map[], multiset{},
          map[], 0, multiset{}, map[], map[], 0, map[], false, map[])
  }

  function At(s: State, t: Tid, pc: Pc): State
    requires t < |s.threads|
  {
    s.(threads := s.threads[t := pc])
  }

  /** Attachment records for which `gone` holds end; their contexts await release. */
  function End(s: State, gone: set<(WaitSet, Cond)>): State
    requires gone <= s.attached.Keys
  {
    s.(attached := s.attached - gone,
       pending := s.pending + multiset(set k | k in gone :: s.attached[k]),
       owner := Ended(s.owner, gone))
  }

  function Ended(owner: map<CtxId, Owner>, gone: set<(WaitSet, Cond)>): map<CtxId, Owner> {
    map x | x in owner :: if owner[x].Stored? && owner[x].key in gone then Releasing else owner[x]
  }

  /** A reference goes away. The wrapper of a guard condition goes with its last
      reference, and its destructor destroys the condition in the core. */
  function Drop(cfg: Config, s: State, h: Holder): State
    requires h in s.refs && s.refs[h] in s.counts
  {
    var c := s.refs[h];
    var n := if s.counts[c] > 0 then s.counts[c] - 1 else 0;
    var s' := s.(refs := s.refs - {h}, counts := s.counts[c := n]);
    if cfg.binding.Cpp? && n == 0 && c in s.conds && s.conds[c].guard then Destroy(s', c) else s'
  }

  /** The core destroys a condition: each of its attachments ends. */
  function Destroy(s: State, c: Cond): State
    requires c in s.conds
  {
    var s' := s.(conds := s.conds[c := s.conds[c].(destroyed := true)]);
    End(s', set k | k in s.attached && k.1 == c)
  }

  /** Return a context's memory. Freeing what is not live, or to a resource that has
      nothing outstanding, is a fault. */
  function FreeMemory(cfg: Config, s: State, x: CtxId): State {
    if x !in s.heap then s.(fault := true, freed := s.freed + multiset{x})
    else
      var r := if cfg.captured then s.heap[x].resource else s.default;
      var s' := s.(heap := s.heap - {x}, freed := s.freed + multiset{x}, owner := s.owner - {x});
      if r in s.outstanding && s.outstanding[r] > 0 then
        s'.(outstanding := s.outstanding[r := s.outstanding[r] - 1])
      else s'.(fault := true)
  }

  /** freeReleaseCtx, or DeleteGlobalRef and free: the reference goes, then the
      memory. Without a JNIEnv the trampoline cannot delete the Java reference. */
  function Free(cfg: Config, s: State, x: CtxId, env: bool): State {
    FreeMemory(cfg, Unpin(cfg, s, x, env), x)
  }

  function Unpin(cfg: Config, s: State, x: CtxId, env: bool): State {
    if InContext(x) !in s.refs || s.refs[InContext(x)] !in s.counts then s
    else if cfg.binding.Jni? && !env then
      s.(refs := (s.refs - {InContext(x)})[Leaked(x) := s.refs[InContext(x)]])
    else Drop(cfg, s, InContext(x))
  }

  /** The call returns; a Java argument is the caller's own reference again. */
  function Return(cfg: Config, s: State, t: Tid): State
    requires t < |s.threads|
  {
    var s' := At(s, t, Idle);
    if Arg(t) in s.refs && s.refs[Arg(t)] in s.counts then Drop(cfg, s', Arg(t)) else s'
  }

  predicate KeepsContext(cleanup: Cleanup, rc: Rc, accepted: bool) {
    match cleanup
    case Both => rc == OK && accepted
    case RcOnly => rc == OK
    case AcceptedOnly => accepted
  }

  /** The application hands one of its references to attach_condition. */
  function DoCall(s: State, t: Tid, ws: WaitSet, i: nat): State
    requires t < |s.threads| && App(i) in s.refs
  {
    var c := s.refs[App(i)];
    At(s, t, Called(ws, c)).(refs := (s.refs - {App(i)})[Arg(t) := c])
  }

  /** malloc, or the allocation half of allocReleaseCtx. In C++ the argument moves
      into the new context at once; Java has still to make its reference. */
  function DoAlloc(cfg: Config, s: State, t: Tid): State
    requires t < |s.threads| && s.threads[t].Called?
  {
    var pc, x := s.threads[t], s.next;
    var cpp := cfg.binding.Cpp?;
    At(s, t, if cpp then Ready(pc.ws, pc.cond, x) else Allocated(pc.ws, pc.cond, x)).(
      next := x + 1,
      heap := s.heap[x := Ctx(pc.cond, s.default, cpp)],
      outstanding := s.outstanding[s.default := Outstanding(s.outstanding, s.default) + 1],
      refs := if cpp then (s.refs - {Arg(t)})[InContext(x) := pc.cond] else s.refs,
      owner := s.owner[x := Caller(t)])
  }

  /** NewGlobalRef. */
  function DoPin(s: State, t: Tid): State
    requires t < |s.threads| && s.threads[t].Allocated? && s.threads[t].x in s.heap && s.threads[t].cond in s.counts
  {
    var pc := s.threads[t];
    At(s, t, Ready(pc.ws, pc.cond, pc.x)).(
      heap := s.heap[pc.x := s.heap[pc.x].(pinned := true)],
      refs := s.refs[InContext(pc.x) := pc.cond],
      counts := s.counts[pc.cond := s.counts[pc.cond] + 1])
  }

  /** The core's critical section: duplicate check, storage and answer are one step. */
  function DoOffer(s: State, t: Tid): State
    requires t < |s.threads| && s.threads[t].Ready?
  {
    if Key(s.threads[t]) in s.attached then At(s, t, Reply(s.threads[t], OK, false))
    else Store(At(s, t, Reply(s.threads[t], OK, true)), s.threads[t].x, Key(s.threads[t]))
  }

  function Key(pc: Pc): (WaitSet, Cond)
    requires !pc.Idle?
  {
    (pc.ws, pc.cond)
  }

  function Reply(pc: Pc, rc: Rc, accepted: bool): Pc
    requires pc.Ready?
  {
    Answered(pc.ws, pc.cond, pc.x, rc, accepted)
  }

  function Store(s: State, x: CtxId, key: (WaitSet, Cond)): State {
    s.(attached := s.attached[key := x], owner := s.owner[x := Stored(key)])
  }

  /** After the core answered: keep the context, or free it. */
  function DoSettle(cfg: Config, s: State, t: Tid): State
    requires t < |s.threads| && s.threads[t].Answered?
  {
    var pc := s.threads[t];
    var s' := At(s, t, Done(pc.ws, pc.cond, pc.rc));
    if KeepsContext(cfg.cleanup, pc.rc, pc.accepted) then s' else Free(cfg, s', pc.x, true)
  }

  /** NewGlobalRef failed: free the bare context. */
  function DoUnalloc(cfg: Config, s: State, t: Tid): State
    requires t < |s.threads| && s.threads[t].Allocated?
  {
    var pc := s.threads[t];
    Free(cfg, At(s, t, Done(pc.ws, pc.cond, OUT_OF_RESOURCES)), pc.x, true)
  }

  /** One step of a call; None when it is not possible in this state. */
  function StepCall(cfg: Config, s: State, a: CallAction): Option<State> {
    match a
    case Call(t, ws, i) =>
      if Idling(s, t) && ws in s.waitsets && App(i) in s.refs then Some(DoCall(s, t, ws, i)) else None
    case Alloc(t, ok) =>
      if t >= |s.threads| || !s.threads[t].Called? then None
      else Some(if ok then DoAlloc(cfg, s, t) else Return(cfg, s, t))
    case Pin(t, ok) =>
      if t >= |s.threads| || !s.threads[t].Allocated? || s.threads[t].x !in s.heap || s.threads[t].cond !in s.counts then None
      else Some(if ok then DoPin(s, t) else DoUnalloc(cfg, s, t))
    case Offer(t) =>
      if t < |s.threads| && Attachable(s, s.threads[t]) then Some(DoOffer(s, t)) else None
    case Refuse(t, rc, accepted) =>
      // nothing is stored; the core may have set out_accepted before it failed
      if t >= |s.threads| || !s.threads[t].Ready? || rc == OK then None
      else Some(At(s, t, Reply(s.threads[t], rc, accepted)))
    case Settle(t) =>
      if t < |s.threads| && s.threads[t].Answered? then Some(DoSettle(cfg, s, t)) else None
    case Leave(t) =>
      if t < |s.threads| && s.threads[t].Done? then Some(Return(cfg, s, t)) else None
  }

  /** One step of the application; None when it is not possible in this state. */
  function StepApp(cfg: Config, s: State, a: AppAction): Option<State> {
    match a
    case NewCondition(c, guard, i) =>
      if c in s.conds || App(i) in s.refs then None
      else Some(s.(conds := s.conds[c := Condition(guard, false)],
                   refs := s.refs[App(i) := c], counts := s.counts[c := 1]))
    case NewWaitSet(ws) => Some(s.(waitsets := s.waitsets + {ws}))
    case CopyRef(i, j) =>
      if App(i) !in s.refs || App(j) in s.refs || s.refs[App(i)] !in s.counts then None
      else var c := s.refs[App(i)];
           Some(s.(refs := s.refs[App(j) := c], counts := s.counts[c := s.counts[c] + 1]))
    case DropRef(i) =>
      if App(i) !in s.refs || s.refs[App(i)] !in s.counts then None else Some(Drop(cfg, s, App(i)))
    case SetDefault(r) => Some(s.(default := r))
  }

  /** One step of anyone; None when it is not possible in this state. */
  function Step(cfg: Config, s: State, a: Action): Option<State> {
    match a
    case Attach(call) => StepCall(cfg, s, call)
    case Use(app) => StepApp(cfg, s, app)
    case Detach(ws, c) =>
      if (ws, c) in s.attached then Some(End(s, {(ws, c)})) else None
    case DestroyWaitSet(ws) =>
      if ws !in s.waitsets || InUse(s, ws) then None
      else Some(End(s, set k | k in s.attached && k.0 == ws).(waitsets := s.waitsets - {ws}))
    case DestroyCondition(c) =>
      if c !in s.conds || s.conds[c].destroyed || (cfg.binding.Cpp? && s.conds[c].guard) then None
      else Some(Destroy(s, c))
    case Release(x, env) =>
      if x !in s.pending then None
      else Some(Free(cfg, s.(pending := s.pending - multiset{x}), x, env))
  }

  predicate Idling(s: State, t: Tid) {
    t < |s.threads| && s.threads[t].Idle?
  }

  predicate Attachable(s: State, pc: Pc) {
    pc.Ready? && pc.ws in s.waitsets && pc.cond in s.conds && !s.conds[pc.cond].destroyed
  }

  /** A WaitSet is destroyed only when no call on it is in progress. */
  predicate InUse(s: State, ws: WaitSet) {
    exists t :: 0 <= t < |s.threads| && !s.threads[t].Idle? && s.threads[t].ws == ws
  }

  function Outstanding(outstanding: map<Resource, nat>, r: Resource): nat {
    if r in outstanding then outstanding[r] else 0
  }

  function Run(cfg: Config, acts: seq<Action>): Option<State> {
    if acts == [] then Some(Init(cfg))
    else
      var before := Run(cfg, acts[..|acts| - 1]);
      if before.None? then None else Step(cfg, before.value, acts[|acts| - 1])
  }

  // ---- The invariant ----------------------------------------------------------

  /** The context a thread must still store or free. */
  function Carries(pc: Pc): Option<CtxId> {
    match pc
    case Idle => None
    case Called(_, _) => None
    case Allocated(_, _, x) => Some(x)
    case Ready(_, _, x) => Some(x)
    case Answered(_, _, x, rc, accepted) => if rc == OK && accepted then None else Some(x)
    case Done(_, _, _) => None
  }

  ghost predicate CallersOwn(threads: seq<Pc>, owner: map<CtxId, Owner>) {
    && (forall t :: 0 <= t < |threads| && Carries(threads[t]).Some? ==>
          var x := Carries(threads[t]).value; x in owner && owner[x] == Caller(t))
    && (forall x :: x in owner && owner[x].Caller? ==>
          owner[x].t < |threads| && Carries(threads[owner[x].t]) == Some(x))
  }

  ghost predicate RecordsOwn(attached: map<(WaitSet, Cond), CtxId>, owner: map<CtxId, Owner>) {
    && (forall k :: k in attached ==> attached[k] in owner && owner[attached[k]] == Stored(k))
    && (forall x :: x in owner && owner[x].Stored? ==> owner[x].key in attached && attached[owner[x].key] == x)
  }

  ghost predicate ReleaserOwns(pending: multiset<CtxId>, owner: map<CtxId, Owner>) {
    forall x: nat :: pending[x] == if x in owner && owner[x].Releasing? then 1 else 0
  }

  /** Every context ever allocated is live or was freed once. */
  ghost predicate FreedOnce(heap: map<CtxId, Ctx>, next: CtxId, freed: multiset<CtxId>) {
    && (forall x :: x in heap ==> x < next)
    && (forall x: nat :: freed[x] == if x < next && x !in heap then 1 else 0)
  }

  /** A pinned live context holds a reference to its condition, and no dead one does. */
  ghost predicate ContextRefs(cfg: Config, heap: map<CtxId, Ctx>, refs: map<Holder, Cond>, next: CtxId) {
    && (forall x: nat :: InContext(x) in refs <==> x in heap && heap[x].pinned)
    && (forall x: nat :: InContext(x) in refs ==> refs[InContext(x)] == heap[x].cond)
    && (forall x: nat :: Leaked(x) in refs ==> x < next && x !in heap && cfg.binding.Jni?)
  }

  predicate HasArgument(cfg: Config, pc: Pc) {
    pc.Called? || (cfg.binding.Jni? && !pc.Idle?)
  }

  ghost predicate ArgRefs(cfg: Config, threads: seq<Pc>, refs: map<Holder, Cond>) {
    && (forall t: nat :: Arg(t) in refs <==> t < |threads| && HasArgument(cfg, threads[t]))
    && (forall t: nat :: Arg(t) in refs ==> refs[Arg(t)] == threads[t].cond)
    && (forall t :: 0 <= t < |threads| && threads[t].Allocated? ==> cfg.binding.Jni?)
  }

  /** A guard condition is destroyed in C++ only when nothing refers to it any more. */
  ghost predicate Destroyed(cfg: Config, conds: map<Cond, Condition>, counts: map<Cond, nat>) {
    && counts.Keys == conds.Keys
    && (cfg.binding.Cpp? ==> forall c :: c in conds && conds[c].destroyed && conds[c].guard ==> counts[c] == 0)
  }

  /** What records say about conditions, WaitSets and contexts is true of them. */
  ghost predicate Records(attached: map<(WaitSet, Cond), CtxId>, waitsets: set<WaitSet>,
                          conds: map<Cond, Condition>, heap: map<CtxId, Ctx>) {
    forall k :: k in attached ==>
      && k.0 in waitsets && k.1 in conds && !conds[k.1].destroyed
      && attached[k] in heap && heap[attached[k]].cond == k.1 && heap[attached[k]].pinned
  }

  ghost predicate Calls(threads: seq<Pc>, waitsets: set<WaitSet>, conds: map<Cond, Condition>) {
    forall t :: 0 <= t < |threads| && !threads[t].Idle? ==> threads[t].ws in waitsets && threads[t].cond in conds
  }

  /** A caller's own context names the caller's condition. */
  ghost predicate CallContexts(threads: seq<Pc>, heap: map<CtxId, Ctx>) {
    forall t :: 0 <= t < |threads| && Carries(threads[t]).Some? ==>
      threads[t].x in heap && heap[threads[t].x].cond == threads[t].cond
      && (heap[threads[t].x].pinned <==> !threads[t].Allocated?)
  }

  ghost predicate PendingPinned(pending: multiset<CtxId>, heap: map<CtxId, Ctx>) {
    forall x :: x in pending ==> x in heap && heap[x].pinned
  }

  ghost predicate Named(heap: map<CtxId, Ctx>, conds: map<Cond, Condition>) {
    forall x :: x in heap ==> heap[x].cond in conds
  }

  function From(heap: map<CtxId, Ctx>, r: Resource): set<CtxId> {
    set x | x in heap && heap[x].resource == r
  }

  /** What a resource has outstanding is what lives in it. */
  ghost predicate Resources(heap: map<CtxId, Ctx>, outstanding: map<Resource, nat>) {
    forall r: nat :: Outstanding(outstanding, r) == |From(heap, r)|
  }

  /** Each live context has exactly one owner: a caller, a record or the releaser. */
  ghost predicate Owners(s: State) {
    && s.owner.Keys == s.heap.Keys
    && CallersOwn(s.threads, s.owner)
    && RecordsOwn(s.attached, s.owner)
    && ReleaserOwns(s.pending, s.owner)
  }

  ghost predicate Referenced(cfg: Config, s: State) {
    && Counted(s.refs, s.counts)
    && ContextRefs(cfg, s.heap, s.refs, s.next)
    && ArgRefs(cfg, s.threads, s.refs)
    && Destroyed(cfg, s.conds, s.counts)
  }

  ghost predicate Consistent(s: State) {
    && Records(s.attached, s.waitsets, s.conds, s.heap)
    && Calls(s.threads, s.waitsets, s.conds)
    && CallContexts(s.threads, s.heap)
    && PendingPinned(s.pending, s.heap)
    && Named(s.heap, s.conds)
  }

  ghost predicate Memory(s: State) {
    FreedOnce(s.heap, s.next, s.freed) && Resources(s.heap, s.outstanding) && !s.fault
  }

  ghost predicate Inv(cfg: Config, s: State) {
    |s.threads| == cfg.threads && Owners(s) && Referenced(cfg, s) && Consistent(s) && Memory(s)
  }

  predicate Faithful(cfg: Config) {
    cfg.cleanup.Both? && cfg.captured
  }

  lemma EndKeepsReleaser(s: State, gone: set<(WaitSet, Cond)>)
    requires RecordsOwn(s.attached, s.owner) && ReleaserOwns(s.pending, s.owner) && gone <= s.attached.Keys
    ensures ReleaserOwns(End(s, gone).pending, Ended(s.owner, gone))
  {
    var xs := set k | k in gone :: s.attached[k];
    forall x: nat ensures End(s, gone).pending[x] == s.pending[x] + (if x in xs then 1 else 0) {}
    forall x: nat ensures x in xs <==> x in s.owner && s.owner[x].Stored? && s.owner[x].key in gone {
      if x in xs {
        var k :| k in gone && s.attached[k] == x;
      }
    }
  }

  lemma EndKeeps(s: State, gone: set<(WaitSet, Cond)>)
    requires Owners(s) && gone <= s.attached.Keys
    ensures Owners(End(s, gone))
  {
    var s' := End(s, gone);
    EndKeepsReleaser(s, gone);
    assert CallersOwn(s.threads, s'.owner);
    assert RecordsOwn(s'.attached, s'.owner);
  }

  lemma FreeMemoryKeeps(cfg: Config, s: State, x: CtxId)
    requires cfg.captured && x in s.heap && Memory(s)
    ensures var s' := FreeMemory(cfg, s, x);
            && Memory(s')
            && s' == s.(heap := s.heap - {x}, freed := s'.freed, owner := s.owner - {x}, outstanding := s'.outstanding)
  {
    var r := s.heap[x].resource;
    var s' := FreeMemory(cfg, s, x);
    assert Outstanding(s.outstanding, r) == |From(s.heap, r)|;
    assert x in From(s.heap, r);
    forall q: nat ensures Outstanding(s'.outstanding, q) == |From(s'.heap, q)| {
      assert From(s'.heap, q) == From(s.heap, q) - (if q == r then {x} else {});
      assert Outstanding(s.outstanding, q) == |From(s.heap, q)|;
    }
  }

  /** No record hangs on the reference `h` alone. */
  ghost predicate Spare(s: State, h: Holder)
    requires h in s.refs
  {
    forall k :: k in s.attached && k.1 == s.refs[h] ==>
      InContext(s.attached[k]) in s.refs && s.refs[InContext(s.attached[k])] == k.1 && InContext(s.attached[k]) != h
  }

  ghost predicate Last(cfg: Config, s: State, c: Cond)
    requires c in s.counts && c in s.conds
  {
    cfg.binding.Cpp? && s.counts[c] == 1 && s.conds[c].guard
  }

  /** What dropping a reference does: the count falls, and if a guard condition's
      wrapper goes with it there was no attachment left to end. */
  lemma DropEffect(cfg: Config, s: State, h: Holder)
    requires Counted(s.refs, s.counts) && s.counts.Keys == s.conds.Keys && h in s.refs && Spare(s, h)
    ensures var c := s.refs[h];
            && c in s.counts && s.counts[c] > 0
            && var conds := if Last(cfg, s, c) then s.conds[c := s.conds[c].(destroyed := true)] else s.conds;
            && Drop(cfg, s, h) == s.(refs := s.refs - {h}, counts := s.counts[c := s.counts[c] - 1], conds := conds)
            && Counted(s.refs - {h}, s.counts[c := s.counts[c] - 1])
            && (Last(cfg, s, c) ==> forall k :: k in s.attached ==> k.1 != c)
  {
    var c := s.refs[h];
    Removed(s.refs, s.counts, h);
    if Last(cfg, s, c) {
      var refs' := s.refs - {h};
      assert To(refs', c) == {};
      assert forall k :: k in s.attached && k.1 == c ==> InContext(s.attached[k]) in To(refs', c);
      assert (set k | k in s.attached && k.1 == c) == {};
      var s1 := s.(refs := refs', counts := s.counts[c := 0]);
      var s2 := s1.(conds := s.conds[c := s.conds[c].(destroyed := true)]);
      EndNothing(s2);
    }
  }

  lemma EndNothing(s: State)
    ensures End(s, {}) == s
  {
    assert Ended(s.owner, {}) == s.owner;
    assert s.attached - {} == s.attached;
  }

  // ---- Each step keeps it ----------------------------------------------------

  /** Owners: a thread moves on with the same context in its hands, or none. */
  lemma CallerMoves(threads: seq<Pc>, t: Tid, pc: Pc, owner: map<CtxId, Owner>)
    requires CallersOwn(threads, owner) && t < |threads| && Carries(pc) == Carries(threads[t])
    ensures CallersOwn(threads[t := pc], owner)
  {
  }

  /** Owners: a thread gets a new context, or parts with the one it has. */
  lemma CallerGets(threads: seq<Pc>, t: Tid, pc: Pc, owner: map<CtxId, Owner>, x: CtxId)
    requires CallersOwn(threads, owner) && t < |threads| && Carries(threads[t]).None? && x !in owner
    requires Carries(pc) == Some(x)
    ensures CallersOwn(threads[t := pc], owner[x := Caller(t)])
  {
  }

  lemma CallerParts(threads: seq<Pc>, t: Tid, pc: Pc, owner: map<CtxId, Owner>, x: CtxId, to: Owner)
    requires CallersOwn(threads, owner) && t < |threads| && Carries(threads[t]) == Some(x) && Carries(pc).None?
    requires !to.Caller?
    ensures CallersOwn(threads[t := pc], owner[x := to])
    ensures CallersOwn(threads[t := pc], owner - {x})
  {
  }

  /** Owners: a context that no record and no pending release names may change hands. */
  lemma OthersUnmoved(s: State, x: CtxId, to: Owner)
    requires RecordsOwn(s.attached, s.owner) && ReleaserOwns(s.pending, s.owner)
    requires (x in s.owner ==> s.owner[x].Caller?) && to.Caller?
    ensures RecordsOwn(s.attached, s.owner[x := to]) && ReleaserOwns(s.pending, s.owner[x := to])
    ensures RecordsOwn(s.attached, s.owner - {x}) && ReleaserOwns(s.pending, s.owner - {x})
  {
  }

  lemma RecordGets(s: State, x: CtxId, key: (WaitSet, Cond))
    requires RecordsOwn(s.attached, s.owner) && ReleaserOwns(s.pending, s.owner)
    requires x in s.owner && s.owner[x].Caller? && key !in s.attached
    ensures RecordsOwn(s.attached[key := x], s.owner[x := Stored(key)])
    ensures ReleaserOwns(s.pending, s.owner[x := Stored(key)])
  {
  }

  lemma ReleaserParts(s: State, x: CtxId)
    requires Owners(s) && x in s.pending
    ensures x in s.owner && s.owner[x].Releasing?
    ensures CallersOwn(s.threads, s.owner - {x}) && RecordsOwn(s.attached, s.owner - {x})
    ensures ReleaserOwns(s.pending - multiset{x}, s.owner - {x})
  {
    assert s.pending[x] > 0;
  }

  /** References: only the application's own ones come and go. */
  lemma AppRefs(cfg: Config, s: State, refs: map<Holder, Cond>)
    requires ContextRefs(cfg, s.heap, s.refs, s.next) && ArgRefs(cfg, s.threads, s.refs)
    requires forall h: Holder :: !h.App? ==> (h in refs <==> h in s.refs) && (h in refs ==> refs[h] == s.refs[h])
    ensures ContextRefs(cfg, s.heap, refs, s.next) && ArgRefs(cfg, s.threads, refs)
  {
    forall x: nat ensures InContext(x) in refs <==> x in s.heap && s.heap[x].pinned {
      var h := InContext(x);
      assert !h.App?;
    }
    forall x: nat ensures InContext(x) in refs ==> refs[InContext(x)] == s.heap[x].cond {
      var h := InContext(x);
      assert !h.App?;
    }
    forall x: nat ensures Leaked(x) in refs ==> x < s.next && x !in s.heap && cfg.binding.Jni? {
      var h := Leaked(x);
      assert !h.App?;
    }
    forall t: nat ensures Arg(t) in refs <==> t < |s.threads| && HasArgument(cfg, s.threads[t]) {
      var h := Arg(t);
      assert !h.App?;
    }
    forall t: nat ensures Arg(t) in refs ==> refs[Arg(t)] == s.threads[t].cond {
      var h := Arg(t);
      assert !h.App?;
    }
  }

  /** References: a call starts, or ends, with its argument. */
  lemma ArgumentMoves(cfg: Config, threads: seq<Pc>, refs: map<Holder, Cond>, t: Tid, pc: Pc)
    requires ArgRefs(cfg, threads, refs) && t < |threads|
    requires HasArgument(cfg, pc) == HasArgument(cfg, threads[t]) && (HasArgument(cfg, pc) ==> pc.cond == threads[t].cond)
    requires pc.Allocated? ==> cfg.binding.Jni?
    ensures ArgRefs(cfg, threads[t := pc], refs)
  {
  }

  lemma ArgumentTaken(cfg: Config, threads: seq<Pc>, refs: map<Holder, Cond>, t: Tid, pc: Pc, gone: Holder)
    requires ArgRefs(cfg, threads, refs) && t < |threads| && HasArgument(cfg, pc) && !gone.Arg? && !pc.Allocated?
    ensures ArgRefs(cfg, threads[t := pc], (refs - {gone})[Arg(t) := pc.cond])
  {
    var refs', threads' := (refs - {gone})[Arg(t) := pc.cond], threads[t := pc];
    forall u: nat ensures Arg(u) in refs' <==> u < |threads'| && HasArgument(cfg, threads'[u]) {
      assert u != t ==> (Arg(u) in refs' <==> Arg(u) in refs);
    }
  }

  lemma ArgumentGone(cfg: Config, threads: seq<Pc>, refs: map<Holder, Cond>, t: Tid, pc: Pc)
    requires ArgRefs(cfg, threads, refs) && t < |threads| && !HasArgument(cfg, pc) && !pc.Allocated?
    ensures ArgRefs(cfg, threads[t := pc], refs - {Arg(t)})
  {
    var refs', threads' := refs - {Arg(t)}, threads[t := pc];
    forall u: nat ensures Arg(u) in refs' <==> u < |threads'| && HasArgument(cfg, threads'[u]) {
      assert u != t ==> (Arg(u) in refs' <==> Arg(u) in refs);
    }
  }

  lemma OtherRefs(cfg: Config, threads: seq<Pc>, refs: map<Holder, Cond>, refs': map<Holder, Cond>)
    requires ArgRefs(cfg, threads, refs)
    requires forall t: nat :: (Arg(t) in refs' <==> Arg(t) in refs) && (Arg(t) in refs ==> refs'[Arg(t)] == refs[Arg(t)])
    ensures ArgRefs(cfg, threads, refs')
  {
  }

  /** Consistency: one thread moves. */
  lemma CallMoves(s: State, t: Tid, pc: Pc)
    requires Calls(s.threads, s.waitsets, s.conds) && CallContexts(s.threads, s.heap) && t < |s.threads|
    requires !pc.Idle? ==> pc.ws in s.waitsets && pc.cond in s.conds
    requires Carries(pc).Some? ==>
               pc.x in s.heap && s.heap[pc.x].cond == pc.cond && (s.heap[pc.x].pinned <==> !pc.Allocated?)
    ensures Calls(s.threads[t := pc], s.waitsets, s.conds) && CallContexts(s.threads[t := pc], s.heap)
  {
  }

  lemma NewConditionConsistent(s: State, c: Cond, guard: bool)
    requires Consistent(s) && c !in s.conds
    ensures Consistent(s.(conds := s.conds[c := Condition(guard, false)]))
  {
  }

  lemma NewConditionKeeps(cfg: Config, s: State, c: Cond, guard: bool, i: nat)
    requires Inv(cfg, s) && c !in s.conds && App(i) !in s.refs
    ensures Inv(cfg, s.(conds := s.conds[c := Condition(guard, false)],
                        refs := s.refs[App(i) := c], counts := s.counts[c := 1]))
  {
    Introduced(s.refs, s.counts, App(i), c);
    NewConditionConsistent(s, c, guard);
    AppRefs(cfg, s, s.refs[App(i) := c]);
  }

  lemma CopyRefKeeps(cfg: Config, s: State, c: Cond, i: nat, j: nat)
    requires Inv(cfg, s) && App(i) in s.refs && s.refs[App(i)] == c && App(j) !in s.refs && c in s.counts
    ensures Inv(cfg, s.(refs := s.refs[App(j) := c], counts := s.counts[c := s.counts[c] + 1]))
  {
    Added(s.refs, s.counts, App(j), c);
    AppRefs(cfg, s, s.refs[App(j) := c]);
    assert App(i) in To(s.refs, c);
  }

  lemma RecordIsSpare(cfg: Config, s: State, h: Holder)
    requires ContextRefs(cfg, s.heap, s.refs, s.next) && Records(s.attached, s.waitsets, s.conds, s.heap)
    requires h in s.refs && (h.InContext? ==> forall k :: k in s.attached ==> s.attached[k] != h.x)
    ensures Spare(s, h)
  {
  }

  /** Destroying a condition no record mentions changes nothing else. */
  lemma MarkDestroyed(s: State, c: Cond)
    requires Consistent(s) && c in s.conds && (forall k :: k in s.attached ==> k.1 != c)
    ensures Consistent(s.(conds := s.conds[c := s.conds[c].(destroyed := true)]))
  {
  }

  lemma DropRefKeeps(cfg: Config, s: State, i: nat)
    requires Inv(cfg, s) && App(i) in s.refs
    ensures s.refs[App(i)] in s.counts && Inv(cfg, Drop(cfg, s, App(i)))
  {
    RecordIsSpare(cfg, s, App(i));
    DropKeeps(cfg, s, App(i));
    AppRefs(cfg, s, s.refs - {App(i)});
  }

  /** Dropping a spare reference keeps everything but, perhaps, whose it was. */
  lemma DropKeeps(cfg: Config, s: State, h: Holder)
    requires Counted(s.refs, s.counts) && Destroyed(cfg, s.conds, s.counts) && Consistent(s)
    requires h in s.refs && Spare(s, h)
    ensures s.refs[h] in s.counts
    ensures var s' := Drop(cfg, s, h);
            && s' == s.(refs := s.refs - {h}, counts := s'.counts, conds := s'.conds)
            && Counted(s'.refs, s'.counts) && Destroyed(cfg, s'.conds, s'.counts) && Consistent(s')
  {
    var c := s.refs[h];
    DropEffect(cfg, s, h);
    if Last(cfg, s, c) { MarkDestroyed(s, c); }
  }

  lemma CallKeeps(cfg: Config, s: State, t: Tid, ws: WaitSet, i: nat)
    requires Inv(cfg, s) && Idling(s, t) && ws in s.waitsets && App(i) in s.refs
    ensures Inv(cfg, DoCall(s, t, ws, i))
  {
    var pc := Called(ws, s.refs[App(i)]);
    Moved(s.refs, s.counts, App(i), Arg(t));
    ArgumentTaken(cfg, s.threads, s.refs, t, pc, App(i));
    CallerMoves(s.threads, t, pc, s.owner);
    CallMoves(s, t, pc);
    OwnRefs(cfg, s.heap, s.refs, DoCall(s, t, ws, i).refs, s.next);
  }

  /** References: none of a context's own ones changes. */
  lemma OwnRefs(cfg: Config, heap: map<CtxId, Ctx>, refs: map<Holder, Cond>, refs': map<Holder, Cond>, next: CtxId)
    requires ContextRefs(cfg, heap, refs, next)
    requires forall x: nat :: (InContext(x) in refs' <==> InContext(x) in refs) && (InContext(x) in refs ==> refs'[InContext(x)] == refs[InContext(x)])
    requires forall x: nat :: Leaked(x) in refs' <==> Leaked(x) in refs
    ensures ContextRefs(cfg, heap, refs', next)
  {
  }

  /** A call that stored nothing keeps its context and moves on. */
  lemma ReplyKeeps(cfg: Config, s: State, t: Tid, rc: Rc, accepted: bool)
    requires Inv(cfg, s) && t < |s.threads| && s.threads[t].Ready? && !(rc == OK && accepted)
    ensures Inv(cfg, At(s, t, Reply(s.threads[t], rc, accepted)))
  {
    var pc := Reply(s.threads[t], rc, accepted);
    CallerMoves(s.threads, t, pc, s.owner);
    ArgumentMoves(cfg, s.threads, s.refs, t, pc);
    CallMoves(s, t, pc);
  }

  lemma StoreOwners(s: State, t: Tid, key: (WaitSet, Cond))
    requires Owners(s) && t < |s.threads| && s.threads[t].Ready? && key !in s.attached
    ensures Owners(Store(At(s, t, Reply(s.threads[t], OK, true)), s.threads[t].x, key))
  {
    var pc := s.threads[t];
    assert Carries(pc) == Some(pc.x);
    CallerParts(s.threads, t, Reply(pc, OK, true), s.owner, pc.x, Stored(key));
    RecordGets(s, pc.x, key);
  }

  lemma StoreRecords(s: State, x: CtxId, key: (WaitSet, Cond))
    requires Records(s.attached, s.waitsets, s.conds, s.heap)
    requires key.0 in s.waitsets && key.1 in s.conds && !s.conds[key.1].destroyed
    requires x in s.heap && s.heap[x].cond == key.1 && s.heap[x].pinned
    ensures Records(s.attached[key := x], s.waitsets, s.conds, s.heap)
  {
  }

  lemma StoreKeeps(cfg: Config, s: State, t: Tid)
    requires Inv(cfg, s) && t < |s.threads| && Attachable(s, s.threads[t]) && Key(s.threads[t]) !in s.attached
    ensures Inv(cfg, DoOffer(s, t))
  {
    var pc := s.threads[t];
    StoreOwners(s, t, Key(pc));
    assert Carries(pc) == Some(pc.x);
    StoreRecords(s, pc.x, Key(pc));
    CallMoves(s, t, Reply(pc, OK, true));
    ArgumentMoves(cfg, s.threads, s.refs, t, Reply(pc, OK, true));
  }

  /** Everything but ownership, which `x` has already left. */
  ghost predicate Leaving(cfg: Config, s: State, x: CtxId) {
    && |s.threads| == cfg.threads && x in s.heap
    && s.owner.Keys == s.heap.Keys
    && CallersOwn(s.threads, s.owner - {x})
    && RecordsOwn(s.attached, s.owner - {x})
    && ReleaserOwns(s.pending, s.owner - {x})
    && Referenced(cfg, s) && Consistent(s) && Memory(s)
  }

  /** Nothing in the state names `x` any more. */
  lemma Unnamed(cfg: Config, s: State, x: CtxId)
    requires Leaving(cfg, s, x)
    ensures forall k :: k in s.attached ==> s.attached[k] != x
    ensures x !in s.pending
    ensures forall t :: 0 <= t < |s.threads| ==> Carries(s.threads[t]) != Some(x)
  {
    var rest := s.owner - {x};
    assert s.pending[x] == 0;
    assert x !in rest;
    forall k | k in s.attached ensures s.attached[k] != x {
      assert s.attached[k] in rest;
    }
  }

  lemma HeapShrinks(s: State, x: CtxId)
    requires Consistent(s)
    requires forall k :: k in s.attached ==> s.attached[k] != x
    requires x !in s.pending
    requires forall t :: 0 <= t < |s.threads| ==> Carries(s.threads[t]) != Some(x)
    ensures Consistent(s.(heap := s.heap - {x}))
  {
    forall t | 0 <= t < |s.threads| && Carries(s.threads[t]).Some? ensures s.threads[t].x in s.heap - {x} {
      assert Carries(s.threads[t]) == Some(s.threads[t].x);
    }
  }

  /** The context's own reference goes, or is leaked when there is no JNIEnv. */
  lemma UnpinKeeps(cfg: Config, s: State, x: CtxId, env: bool)
    requires Leaving(cfg, s, x)
    ensures var s' := Unpin(cfg, s, x, env);
            && s' == s.(refs := s'.refs, counts := s'.counts, conds := s'.conds)
            && Counted(s'.refs, s'.counts) && Destroyed(cfg, s'.conds, s'.counts) && Consistent(s')
            && s'.refs == (if InContext(x) !in s.refs then s.refs
                           else if cfg.binding.Jni? && !env then (s.refs - {InContext(x)})[Leaked(x) := s.heap[x].cond]
                           else s.refs - {InContext(x)})
  {
    if InContext(x) in s.refs {
      Unnamed(cfg, s, x);
      RecordIsSpare(cfg, s, InContext(x));
      if cfg.binding.Jni? && !env {
        Moved(s.refs, s.counts, InContext(x), Leaked(x));
      } else {
        DropKeeps(cfg, s, InContext(x));
      }
    }
  }

  lemma UnpinRefs(cfg: Config, threads: seq<Pc>, heap: map<CtxId, Ctx>, refs: map<Holder, Cond>, next: CtxId, x: CtxId,
                  refs': map<Holder, Cond>)
    requires ContextRefs(cfg, heap, refs, next) && ArgRefs(cfg, threads, refs) && x in heap && x < next
    requires || (InContext(x) !in refs && refs' == refs)
             || refs' == refs - {InContext(x)}
             || (cfg.binding.Jni? && refs' == (refs - {InContext(x)})[Leaked(x) := heap[x].cond])
    ensures ContextRefs(cfg, heap - {x}, refs', next) && ArgRefs(cfg, threads, refs')
  {
    RefsWithout(cfg, heap, refs, refs', next, x);
    OtherRefs(cfg, threads, refs, refs');
  }

  lemma RefsWithout(cfg: Config, heap: map<CtxId, Ctx>, refs: map<Holder, Cond>, refs': map<Holder, Cond>, next: CtxId, x: CtxId)
    requires ContextRefs(cfg, heap, refs, next) && x < next && InContext(x) !in refs'
    requires forall y: nat :: y != x ==> (InContext(y) in refs' <==> InContext(y) in refs)
    requires forall y: nat :: y != x && InContext(y) in refs ==> refs'[InContext(y)] == refs[InContext(y)]
    requires forall y: nat :: Leaked(y) in refs' ==> Leaked(y) in refs || (y == x && cfg.binding.Jni?)
    ensures ContextRefs(cfg, heap - {x}, refs', next)
  {
  }

  lemma FreeConsistent(cfg: Config, s: State, x: CtxId, s1: State)
    requires Leaving(cfg, s, x) && s1 == s.(refs := s1.refs, counts := s1.counts, conds := s1.conds) && Consistent(s1)
    ensures Consistent(s1.(heap := s.heap - {x}))
  {
    Unnamed(cfg, s, x);
    HeapShrinks(s1, x);
  }

  lemma FreeUnpinned(cfg: Config, s: State, x: CtxId)
    requires cfg.captured && |s.threads| == cfg.threads && x in s.heap && s.owner.Keys == s.heap.Keys
    requires CallersOwn(s.threads, s.owner - {x}) && RecordsOwn(s.attached, s.owner - {x})
    requires ReleaserOwns(s.pending, s.owner - {x})
    requires Referenced(cfg, s.(heap := s.heap - {x})) && Consistent(s.(heap := s.heap - {x})) && Memory(s)
    ensures Inv(cfg, FreeMemory(cfg, s, x))
  {
    FreeMemoryKeeps(cfg, s, x);
  }

  /** Freeing a context that nothing names keeps the invariant. */
  lemma FreeKeeps(cfg: Config, s: State, x: CtxId, env: bool)
    requires cfg.captured && Leaving(cfg, s, x)
    ensures Inv(cfg, Free(cfg, s, x, env))
  {
    var s1 := Unpin(cfg, s, x, env);
    UnpinKeeps(cfg, s, x, env);
    UnpinRefs(cfg, s.threads, s.heap, s.refs, s.next, x, s1.refs);
    FreeConsistent(cfg, s, x, s1);
    FreeUnpinned(cfg, s1, x);
  }

  lemma ReleaserLeaves(cfg: Config, s: State, x: CtxId)
    requires Inv(cfg, s) && x in s.pending
    ensures Leaving(cfg, s.(pending := s.pending - multiset{x}), x)
    ensures InContext(x) in s.refs && Leaked(x) !in s.refs
  {
    ReleaserParts(s, x);
  }

  lemma ReleaseKeeps(cfg: Config, s: State, x: CtxId, env: bool)
    requires cfg.captured && Inv(cfg, s) && x in s.pending
    ensures Inv(cfg, Free(cfg, s.(pending := s.pending - multiset{x}), x, env))
  {
    ReleaserLeaves(cfg, s, x);
    FreeKeeps(cfg, s.(pending := s.pending - multiset{x}), x, env);
  }

  /** A caller frees the context it could not place. */
  lemma DiscardKeeps(cfg: Config, s: State, t: Tid, x: CtxId, rc: Rc)
    requires cfg.captured && Inv(cfg, s) && t < |s.threads| && Carries(s.threads[t]) == Some(x)
    ensures Inv(cfg, Free(cfg, At(s, t, Done(s.threads[t].ws, s.threads[t].cond, rc)), x, true))
  {
    var pc := Done(s.threads[t].ws, s.threads[t].cond, rc);
    CallerParts(s.threads, t, pc, s.owner, x, Releasing);
    OthersUnmoved(s, x, Caller(t));
    ArgumentMoves(cfg, s.threads, s.refs, t, pc);
    CallMoves(s, t, pc);
    FreeKeeps(cfg, At(s, t, pc), x, true);
  }

  lemma SettleKeeps(cfg: Config, s: State, t: Tid)
    requires Faithful(cfg) && Inv(cfg, s) && t < |s.threads| && s.threads[t].Answered?
    ensures Inv(cfg, DoSettle(cfg, s, t))
  {
    var pc := s.threads[t];
    if pc.rc == OK && pc.accepted {
      CallerMoves(s.threads, t, Done(pc.ws, pc.cond, pc.rc), s.owner);
      ArgumentMoves(cfg, s.threads, s.refs, t, Done(pc.ws, pc.cond, pc.rc));
      CallMoves(s, t, Done(pc.ws, pc.cond, pc.rc));
    } else {
      DiscardKeeps(cfg, s, t, pc.x, pc.rc);
    }
  }

  /** A call with no context left to place returns. */
  lemma ReturnKeeps(cfg: Config, s: State, t: Tid)
    requires Inv(cfg, s) && t < |s.threads| && Carries(s.threads[t]).None?
    ensures Inv(cfg, Return(cfg, s, t))
  {
    CallerMoves(s.threads, t, Idle, s.owner);
    CallMoves(s, t, Idle);
    if Arg(t) in s.refs {
      ReturnArgument(cfg, s, t);
    } else {
      ArgumentMoves(cfg, s.threads, s.refs, t, Idle);
    }
  }

  lemma ReturnArgument(cfg: Config, s: State, t: Tid)
    requires Referenced(cfg, s) && t < |s.threads| && Arg(t) in s.refs && Consistent(At(s, t, Idle))
    ensures var s' := Return(cfg, s, t);
            && s' == At(s, t, Idle).(refs := s'.refs, counts := s'.counts, conds := s'.conds)
            && Referenced(cfg, s') && Consistent(s')
  {
    var s1 := At(s, t, Idle);
    RecordIsSpare(cfg, s1, Arg(t));
    DropKeeps(cfg, s1, Arg(t));
    ArgumentGone(cfg, s.threads, s.refs, t, Idle);
    OwnRefs(cfg, s.heap, s.refs, s.refs - {Arg(t)}, s.next);
  }

  lemma HeapGrows(s: State, x: CtxId, ctx: Ctx)
    requires Consistent(s) && x !in s.heap && ctx.cond in s.conds
    ensures Consistent(s.(heap := s.heap[x := ctx]))
  {
  }

  lemma AllocMemory(heap: map<CtxId, Ctx>, outstanding: map<Resource, nat>, x: CtxId, ctx: Ctx)
    requires Resources(heap, outstanding) && x !in heap
    ensures Resources(heap[x := ctx], outstanding[ctx.resource := Outstanding(outstanding, ctx.resource) + 1])
  {
    var r, heap' := ctx.resource, heap[x := ctx];
    var outstanding' := outstanding[r := Outstanding(outstanding, r) + 1];
    forall q: nat ensures Outstanding(outstanding', q) == |From(heap', q)| {
      assert Outstanding(outstanding, q) == |From(heap, q)|;
      if q == r {
        assert From(heap', q) == From(heap, q) + {x};
      } else {
        assert From(heap', q) == From(heap, q);
      }
    }
  }

  lemma AllocRefs(cfg: Config, s: State, t: Tid)
    requires Referenced(cfg, s) && t < |s.threads| && s.threads[t].Called? && (forall y :: y in s.heap ==> y < s.next)
    ensures Referenced(cfg, DoAlloc(cfg, s, t))
  {
    var pc, x := s.threads[t], s.next;
    var s' := DoAlloc(cfg, s, t);
    assert Arg(t) in s.refs && s.refs[Arg(t)] == pc.cond;
    assert InContext(x) !in s.refs;
    if cfg.binding.Cpp? {
      Moved(s.refs, s.counts, Arg(t), InContext(x));
      ArgumentGone(cfg, s.threads, s.refs, t, s'.threads[t]);
      OtherRefs(cfg, s'.threads, s.refs - {Arg(t)}, s'.refs);
    } else {
      ArgumentMoves(cfg, s.threads, s.refs, t, s'.threads[t]);
    }
    RefsWith(cfg, s.heap, s.refs, s'.refs, x, s'.heap[x]);
  }

  /** References: a new context, pinned or not yet. */
  lemma RefsWith(cfg: Config, heap: map<CtxId, Ctx>, refs: map<Holder, Cond>, refs': map<Holder, Cond>, x: CtxId, ctx: Ctx)
    requires ContextRefs(cfg, heap, refs, x) && x !in heap
    requires forall y: nat :: y != x ==> (InContext(y) in refs' <==> InContext(y) in refs)
    requires forall y: nat :: y != x && InContext(y) in refs ==> refs'[InContext(y)] == refs[InContext(y)]
    requires forall y: nat :: Leaked(y) in refs' ==> Leaked(y) in refs
    requires InContext(x) in refs' <==> ctx.pinned
    requires ctx.pinned ==> refs'[InContext(x)] == ctx.cond
    ensures ContextRefs(cfg, heap[x := ctx], refs', x + 1)
  {
  }

  lemma AllocOwners(cfg: Config, s: State, t: Tid)
    requires Owners(s) && t < |s.threads| && s.threads[t].Called? && s.next !in s.heap
    ensures Owners(DoAlloc(cfg, s, t))
  {
    var s', x := DoAlloc(cfg, s, t), s.next;
    assert x !in s.owner;
    CallerGets(s.threads, t, s'.threads[t], s.owner, x);
    OthersUnmoved(s, x, Caller(t));
  }

  lemma AllocConsistent(cfg: Config, s: State, t: Tid)
    requires Consistent(s) && t < |s.threads| && s.threads[t].Called? && s.next !in s.heap
    ensures Consistent(DoAlloc(cfg, s, t))
  {
    var s', x := DoAlloc(cfg, s, t), s.next;
    HeapGrows(s, x, s'.heap[x]);
    CallMoves(s.(heap := s'.heap), t, s'.threads[t]);
  }

  lemma AllocKeeps(cfg: Config, s: State, t: Tid)
    requires Inv(cfg, s) && t < |s.threads| && s.threads[t].Called?
    ensures Inv(cfg, DoAlloc(cfg, s, t))
  {
    assert Memory(s) && s.next !in s.heap;
    AllocOwners(cfg, s, t);
    AllocRefs(cfg, s, t);
    AllocConsistent(cfg, s, t);
    AllocatedMemory(cfg, s, t);
  }

  lemma AllocatedMemory(cfg: Config, s: State, t: Tid)
    requires Memory(s) && t < |s.threads| && s.threads[t].Called?
    ensures s.next !in s.heap && Memory(DoAlloc(cfg, s, t))
  {
    AllocMemory(s.heap, s.outstanding, s.next, DoAlloc(cfg, s, t).heap[s.next]);
  }

  lemma HeapPins(s: State, x: CtxId, t: Tid)
    requires Consistent(s) && x in s.heap && !s.heap[x].pinned
    requires t < |s.threads| && s.threads[t].Allocated? && s.threads[t].x == x
    requires forall u :: 0 <= u < |s.threads| && u != t ==> Carries(s.threads[u]) != Some(x)
    ensures var pc := s.threads[t];
            Consistent(At(s, t, Ready(pc.ws, pc.cond, x)).(heap := s.heap[x := s.heap[x].(pinned := true)]))
  {
    assert Carries(s.threads[t]) == Some(x);
    forall u | 0 <= u < |s.threads| && u != t && Carries(s.threads[u]).Some? ensures s.threads[u].x != x {
      assert Carries(s.threads[u]) == Some(s.threads[u].x);
    }
  }

  lemma PinRefs(cfg: Config, s: State, t: Tid)
    requires Referenced(cfg, s) && t < |s.threads| && s.threads[t].Allocated? && cfg.binding.Jni?
    requires s.threads[t].x in s.heap && !s.heap[s.threads[t].x].pinned && s.heap[s.threads[t].x].cond == s.threads[t].cond
    requires s.threads[t].cond in s.conds
    ensures s.threads[t].cond in s.counts && Referenced(cfg, DoPin(s, t))
  {
    var pc := s.threads[t];
    var x := pc.x;
    var s' := DoPin(s, t);
    assert InContext(x) !in s.refs;
    Added(s.refs, s.counts, InContext(x), pc.cond);
    ArgumentMoves(cfg, s.threads, s.refs, t, s'.threads[t]);
    OtherRefs(cfg, s'.threads, s.refs, s'.refs);
    assert forall y: nat :: y != x ==> (InContext(y) in s'.refs <==> InContext(y) in s.refs);
    assert ContextRefs(cfg, s'.heap, s'.refs, s.next);
  }

  lemma PinMemory(s: State, x: CtxId)
    requires Memory(s) && x in s.heap
    ensures Memory(s.(heap := s.heap[x := s.heap[x].(pinned := true)]))
  {
    var heap' := s.heap[x := s.heap[x].(pinned := true)];
    forall q: nat ensures Outstanding(s.outstanding, q) == |From(heap', q)| {
      assert From(heap', q) == From(s.heap, q);
    }
  }

  lemma PinOwners(s: State, t: Tid)
    requires Owners(s) && t < |s.threads| && s.threads[t].Allocated? && s.threads[t].x in s.heap && s.threads[t].cond in s.counts
    ensures Owners(DoPin(s, t))
    ensures forall u :: 0 <= u < |s.threads| && u != t ==> Carries(s.threads[u]) != Some(s.threads[t].x)
  {
    CallerMoves(s.threads, t, DoPin(s, t).threads[t], s.owner);
    assert Carries(s.threads[t]) == Some(s.threads[t].x);
  }

  lemma PinKeeps(cfg: Config, s: State, t: Tid)
    requires Inv(cfg, s) && t < |s.threads| && s.threads[t].Allocated?
    ensures s.threads[t].x in s.heap && s.threads[t].cond in s.counts && Inv(cfg, DoPin(s, t))
  {
    assert Carries(s.threads[t]) == Some(s.threads[t].x);
    PinRefs(cfg, s, t);
    PinOwners(s, t);
    HeapPins(s, s.threads[t].x, t);
    PinMemory(s, s.threads[t].x);
  }

  /** Records end, their WaitSet or condition goes: what remains is still right. */
  lemma EndConsistent(cfg: Config, s: State, gone: set<(WaitSet, Cond)>)
    requires Consistent(s) && gone <= s.attached.Keys
    ensures Consistent(End(s, gone))
  {
    var xs := set k | k in gone :: s.attached[k];
    forall x | x in End(s, gone).pending ensures x in s.heap && s.heap[x].pinned {
      if x !in s.pending {
        assert x in xs;
      }
    }
  }

  lemma EndInv(cfg: Config, s: State, gone: set<(WaitSet, Cond)>)
    requires Inv(cfg, s) && gone <= s.attached.Keys
    ensures Inv(cfg, End(s, gone))
  {
    EndKeeps(s, gone);
    EndConsistent(cfg, s, gone);
  }

  lemma DestroyWaitSetKeeps(cfg: Config, s: State, ws: WaitSet)
    requires Inv(cfg, s) && !InUse(s, ws)
    ensures Inv(cfg, End(s, set k | k in s.attached && k.0 == ws).(waitsets := s.waitsets - {ws}))
  {
    var gone := set k | k in s.attached && k.0 == ws;
    EndInv(cfg, s, gone);
    var s1 := End(s, gone);
    assert forall k :: k in s1.attached ==> k in s.attached && k !in gone;
    WaitSetGone(s1, ws);
  }

  lemma WaitSetGone(s: State, ws: WaitSet)
    requires Consistent(s) && !InUse(s, ws) && forall k :: k in s.attached ==> k.0 != ws
    ensures Consistent(s.(waitsets := s.waitsets - {ws}))
  {
  }

  lemma DestroyConditionKeeps(cfg: Config, s: State, c: Cond)
    requires Inv(cfg, s) && c in s.conds && !(cfg.binding.Cpp? && s.conds[c].guard)
    ensures Inv(cfg, Destroy(s, c))
  {
    var gone := set k | k in s.attached && k.1 == c;
    EndInv(cfg, s, gone);
    assert forall k :: k in End(s, gone).attached ==> k in s.attached && k !in gone;
    MarkedInv(cfg, End(s, gone), c);
  }

  lemma MarkedInv(cfg: Config, s: State, c: Cond)
    requires Inv(cfg, s) && c in s.conds && !(cfg.binding.Cpp? && s.conds[c].guard)
    requires forall k :: k in s.attached ==> k.1 != c
    ensures Inv(cfg, s.(conds := s.conds[c := s.conds[c].(destroyed := true)]))
  {
    MarkDestroyed(s, c);
  }

  lemma NewWaitSetKeeps(cfg: Config, s: State, ws: WaitSet)
    requires Inv(cfg, s)
    ensures Inv(cfg, s.(waitsets := s.waitsets + {ws}))
  {
  }

  lemma CallStepKeepsInv(cfg: Config, s: State, a: CallAction, s': State)
    requires Faithful(cfg) && Inv(cfg, s) && StepCall(cfg, s, a) == Some(s')
    ensures Inv(cfg, s')
  {
    if a.Call? || a.Alloc? || a.Pin? { EarlyStepKeepsInv(cfg, s, a, s'); } else { LateStepKeepsInv(cfg, s, a, s'); }
  }

  /** A call's steps before it offers its context. */
  lemma EarlyStepKeepsInv(cfg: Config, s: State, a: CallAction, s': State)
    requires Faithful(cfg) && Inv(cfg, s) && (a.Call? || a.Alloc? || a.Pin?) && StepCall(cfg, s, a) == Some(s')
    ensures Inv(cfg, s')
  {
    match a
    case Call(t, ws, i) => CallKeeps(cfg, s, t, ws, i);
    case Alloc(t, ok) => if ok { AllocKeeps(cfg, s, t); } else { ReturnKeeps(cfg, s, t); }
    case Pin(t, ok) =>
      if ok { PinKeeps(cfg, s, t); } else { DiscardKeeps(cfg, s, t, s.threads[t].x, OUT_OF_RESOURCES); }
  }

  lemma LateStepKeepsInv(cfg: Config, s: State, a: CallAction, s': State)
    requires Faithful(cfg) && Inv(cfg, s) && !a.Call? && !a.Alloc? && !a.Pin? && StepCall(cfg, s, a) == Some(s')
    ensures Inv(cfg, s')
  {
    match a
    case Offer(t) =>
      if Key(s.threads[t]) in s.attached { ReplyKeeps(cfg, s, t, OK, false); } else { StoreKeeps(cfg, s, t); }
    case Refuse(t, rc, accepted) => ReplyKeeps(cfg, s, t, rc, accepted);
    case Settle(t) => SettleKeeps(cfg, s, t);
    case Leave(t) => ReturnKeeps(cfg, s, t);
  }

  lemma AppStepKeepsInv(cfg: Config, s: State, a: AppAction, s': State)
    requires Faithful(cfg) && Inv(cfg, s) && StepApp(cfg, s, a) == Some(s')
    ensures Inv(cfg, s')
  {
    match a
    case NewCondition(c, guard, i) => NewConditionKeeps(cfg, s, c, guard, i);
    case NewWaitSet(ws) => NewWaitSetKeeps(cfg, s, ws);
    case CopyRef(i, j) => CopyRefKeeps(cfg, s, s.refs[App(i)], i, j);
    case DropRef(i) => DropRefKeeps(cfg, s, i);
    case SetDefault(_) =>
  }

  lemma StepKeepsInv(cfg: Config, s: State, a: Action, s': State)
    requires Faithful(cfg) && Inv(cfg, s) && Step(cfg, s, a) == Some(s')
    ensures Inv(cfg, s')
  {
    match a
    case Attach(call) => CallStepKeepsInv(cfg, s, call, s');
    case Use(app) => AppStepKeepsInv(cfg, s, app, s');
    case Detach(ws, c) => EndInv(cfg, s, {(ws, c)});
    case DestroyWaitSet(ws) => DestroyWaitSetKeeps(cfg, s, ws);
    case DestroyCondition(c) => DestroyConditionKeeps(cfg, s, c);
    case Release(x, env) => ReleaseKeeps(cfg, s, x, env);
  }

  /** The invariant holds after every schedule. */
  lemma {:induction false} RunKeepsInv(cfg: Config, acts: seq<Action>)
    requires Faithful(cfg) && Run(cfg, acts).Some?
    ensures Inv(cfg, Run(cfg, acts).value)
  {
    if acts == [] {
      assert forall r: nat :: From(map[], r) == {};
    } else {
      var before := acts[..|acts| - 1];
      RunKeepsInv(cfg, before);
      StepKeepsInv(cfg, Run(cfg, before).value, acts[|acts| - 1], Run(cfg, acts).value);
    }
  }

  // ---- Main results -------------------------------------------------------------

  /** `acts` is a schedule of the protocol as it is written, and leads to `s`. */
  ghost predicate Reaches(cfg: Config, acts: seq<Action>, s: State) {
    Faithful(cfg) && Run(cfg, acts) == Some(s)
  }

  /** No call in progress and no release outstanding. */
  predicate Quiescent(s: State) {
    (forall t :: 0 <= t < |s.threads| ==> s.threads[t].Idle?) && s.pending == multiset{}
  }

  /** Whatever still has to free a context, or names it, names a live one. */
  ghost predicate NothingDangles(s: State) {
    && (forall t :: 0 <= t < |s.threads| && Carries(s.threads[t]).Some? ==> Carries(s.threads[t]).value in s.heap)
    && (forall k :: k in s.attached ==> s.attached[k] in s.heap)
    && (forall x :: x in s.pending ==> x in s.heap)
  }

  /** In every interleaving each context ever allocated is freed at most once, by
      whoever has it to free; once calls and releases are over the live contexts
      are exactly those of the attachment records, one each. */
  lemma {:induction false} ReleasedExactlyOnce(cfg: Config, acts: seq<Action>, s: State)
    requires Reaches(cfg, acts, s)
    ensures !s.fault && NothingDangles(s)
    ensures forall x: nat :: x < s.next ==> s.freed[x] == if x in s.heap then 0 else 1
    ensures forall x: nat :: x >= s.next ==> s.freed[x] == 0
    ensures forall k, l :: k in s.attached && l in s.attached && k != l ==> s.attached[k] != s.attached[l]
    ensures Quiescent(s) ==> forall x :: x in s.heap <==> x in s.attached.Values
  {
    RunKeepsInv(cfg, acts);
    assert FreedOnce(s.heap, s.next, s.freed);
    forall t | 0 <= t < |s.threads| && Carries(s.threads[t]).Some? ensures Carries(s.threads[t]).value in s.heap {
      assert Carries(s.threads[t]).value in s.owner;
    }
    if Quiescent(s) {
      forall x | x in s.heap ensures x in s.attached.Values {
        assert x in s.owner && s.pending[x] == 0;
        assert s.owner[x].Stored?;
      }
    }
  }

  /** The live contexts that keep a condition. */
  function Keepers(s: State, c: Cond): set<CtxId> {
    set x | x in s.heap && s.heap[x].pinned && s.heap[x].cond == c
  }

  lemma {:induction false} Injected(xs: set<CtxId>, hs: set<Holder>)
    requires forall x :: x in xs ==> InContext(x) in hs
    ensures |xs| <= |hs|
  {
    if xs != {} {
      var x :| x in xs;
      Injected(xs - {x}, hs - {InContext(x)});
    }
  }

  /** A condition's count is never below the number of live contexts naming it; so a
      guard condition's destructor never runs while it is attached anywhere. */
  lemma {:induction false} Keepalive(cfg: Config, acts: seq<Action>, s: State, c: Cond)
    requires Reaches(cfg, acts, s)
    requires c in s.conds
    ensures c in s.counts && |Keepers(s, c)| <= s.counts[c]
    ensures forall ws :: (ws, c) in s.attached ==> s.attached[(ws, c)] in Keepers(s, c) && s.counts[c] > 0
    ensures cfg.binding.Cpp? && s.conds[c].guard && s.conds[c].destroyed ==>
              Keepers(s, c) == {} && forall ws :: (ws, c) !in s.attached
  {
    RunKeepsInv(cfg, acts);
    assert Referenced(cfg, s) && Consistent(s);
    forall x | x in Keepers(s, c) ensures InContext(x) in To(s.refs, c) {
      assert InContext(x) in s.refs;
    }
    Injected(Keepers(s, c), To(s.refs, c));
    forall ws | (ws, c) in s.attached ensures s.attached[(ws, c)] in Keepers(s, c) && s.counts[c] > 0 {
      assert s.attached[(ws, c)] in Keepers(s, c);
    }
  }

  /** A call the core answers with OK leaves, at that very step, an attachment of its
      condition whose context is live and holds a reference, whether the context is
      the caller's own or, for a duplicate, the earlier one. */
  lemma {:induction false} OkIsProtected(cfg: Config, acts: seq<Action>, s: State, t: Tid)
    requires Reaches(cfg, acts, s)
    requires t < |s.threads|
    requires var pc := s.threads[t]; Attachable(s, pc)
    ensures var pc := s.threads[t]; var s' := DoOffer(s, t);
            && s'.threads[t].rc == OK && Key(pc) in s'.attached
            && var x := s'.attached[Key(pc)];
            && (s'.threads[t].accepted <==> x == pc.x)
            && x in s'.heap && s'.heap[x].cond == pc.cond && s'.heap[x].pinned
            && InContext(x) in s'.refs && s'.refs[InContext(x)] == pc.cond
  {
    RunKeepsInv(cfg, acts);
    var pc := s.threads[t];
    assert Carries(pc) == Some(pc.x) && s.owner[pc.x] == Caller(t);
    if Key(pc) in s.attached {
      assert s.owner[s.attached[Key(pc)]] == Stored(Key(pc));
    }
    OfferedProtected(cfg, s, t);
  }

  lemma OfferedProtected(cfg: Config, s: State, t: Tid)
    requires Inv(cfg, s) && t < |s.threads| && Attachable(s, s.threads[t])
    ensures var pc := s.threads[t]; var s' := DoOffer(s, t);
            && Key(pc) in s'.attached
            && var x := s'.attached[Key(pc)];
            && x in s'.heap && s'.heap[x].cond == pc.cond && s'.heap[x].pinned
            && InContext(x) in s'.refs && s'.refs[InContext(x)] == pc.cond
  {
    assert Carries(s.threads[t]) == Some(s.threads[t].x);
  }

  /** Whatever the default resource is set to and whenever, what a resource has
      outstanding is the number of live contexts that came from it, and nothing once
      every attachment and every call is over. */
  lemma {:induction false} ResourcesMatch(cfg: Config, acts: seq<Action>, s: State, r: Resource)
    requires Reaches(cfg, acts, s)
    ensures Outstanding(s.outstanding, r) == |From(s.heap, r)|
    ensures Quiescent(s) && s.attached == map[] ==> Outstanding(s.outstanding, r) == 0
  {
    RunKeepsInv(cfg, acts);
    ReleasedExactlyOnce(cfg, acts, s);
    assert Resources(s.heap, s.outstanding);
    if Quiescent(s) && s.attached == map[] {
      assert s.attached.Values == {};
      assert From(s.heap, r) == {};
    }
  }

  /** A Java reference is lost exactly by a release that finds no JNIEnv. */
  lemma {:induction false} LeaksWithoutEnv(cfg: Config, acts: seq<Action>, s: State, x: CtxId, env: bool)
    requires Reaches(cfg, acts, s) && x in s.pending
    ensures var after := Step(cfg, s, Release(x, env));
            && after.Some? && x !in after.value.heap
            && InContext(x) in s.refs && InContext(x) !in after.value.refs
            && (Leaked(x) in after.value.refs <==> cfg.binding.Jni? && !env)
  {
    RunKeepsInv(cfg, acts);
    ReleaseIsFree(cfg, s, x, env);
    ReleaseRefs(cfg, s, x, env);
  }

  lemma ReleaseIsFree(cfg: Config, s: State, x: CtxId, env: bool)
    requires x in s.pending
    ensures Step(cfg, s, Release(x, env)) == Some(Free(cfg, s.(pending := s.pending - multiset{x}), x, env))
  {
  }

  lemma FreeRefs(cfg: Config, s: State, x: CtxId, env: bool)
    requires Leaving(cfg, s, x)
    ensures Free(cfg, s, x, env).refs == Unpin(cfg, s, x, env).refs
    ensures x !in Free(cfg, s, x, env).heap
  {
    UnpinKeeps(cfg, s, x, env);
  }

  lemma ReleaseRefs(cfg: Config, s: State, x: CtxId, env: bool)
    requires Inv(cfg, s) && x in s.pending
    ensures var s' := Free(cfg, s.(pending := s.pending - multiset{x}), x, env);
            && InContext(x) in s.refs && InContext(x) !in s'.refs && x !in s'.heap
            && (Leaked(x) in s'.refs <==> cfg.binding.Jni? && !env)
  {
    ReleaserLeaves(cfg, s, x);
    FreedRefs(cfg, s.(pending := s.pending - multiset{x}), x, env);
  }

  lemma FreedRefs(cfg: Config, s: State, x: CtxId, env: bool)
    requires Leaving(cfg, s, x) && InContext(x) in s.refs && Leaked(x) !in s.refs
    ensures var s' := Free(cfg, s, x, env);
            InContext(x) !in s'.refs && x !in s'.heap && (Leaked(x) in s'.refs <==> cfg.binding.Jni? && !env)
  {
    UnpinKeeps(cfg, s, x, env);
    FreeRefs(cfg, s, x, env);
  }
}
