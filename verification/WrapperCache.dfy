/** One wrapper object per C handle: the family cache of weak references behind
    _getOrCreate and wrapGuardConditionHandle, under any number of threads. */
module WrapperCache {
  import opened Base
  import opened References

  type Handle = nat
  type Tag = nat
  type Wid = nat
  type Tid = nat
  type Key = (Handle, Tag)

  /** `pinned`: callers keep a handle alive for as long as a call is using it. */
  datatype Config = Config(threads: nat, pinned: bool)

  /** A wrapper object, live while its count is positive. `life` is the life of the
      handle it was made for; `retired` once the core has freed that handle. */
  datatype Wrapper = Wrapper(key: Key, life: nat, retired: bool)

  datatype Holder = App(i: nat) | Local(t: Tid)

  /** Where a thread stands. Everything from Looking to Leaving is under the family
      mutex; `Private` is a new guard condition whose handle nobody else knows. */
  datatype Pc =
    | Idle
    | Waiting(key: Key, life: nat)
    | Private(key: Key, life: nat, w: Wid)
    | Looking(key: Key, life: nat)
    | Found(key: Key, life: nat, w: Wid)
    | Locked(key: Key, life: nat, w: Wid)
    | Missing(key: Key, life: nat)
    | Made(key: Key, life: nat, w: Wid)
    | Leaving(key: Key, life: nat, w: Wid)

  /** `makers` says which thread is still making a wrapper; no step looks at it. */
  datatype State = State(
    threads: seq<Pc>,
    lock: Option<Tid>,
    lives: map<Handle, nat>,
    births: nat,
    published: set<Handle>,
    cache: map<Key, Wid>,
    wrappers: map<Wid, Wrapper>,
    refs: map<Holder, Wid>,
    counts: map<Wid, nat>,
    next: Wid,
    makers: map<Wid, Tid>,
    fault: bool)

  datatype Action =
    | Mint(h: Handle)
    | Retire(h: Handle)
    | Call(t: Tid, key: Key)
    | Wrap(t: Tid, key: Key)
    | Advance(t: Tid, ok: bool, i: nat)
    | Copy(i: nat, j: nat)
    | Drop(i: nat)

  function Init(c: Config): State {
    State(seq(c.threads, i requires 0 <= i < c.threads => Idle), None, map[], 0, {}, map[], map[], map[], map[], 0, map[], false)
  }

  function At(s: State, t: Tid, pc: Pc): State
    requires t < |s.threads|
  {
    s.(threads := s.threads[t := pc])
  }

  function Count(counts: map<Wid, nat>, w: Wid): nat {
    if w in counts then counts[w] else 0
  }

  predicate Live(s: State, w: Wid) {
    w in s.wrappers && Count(s.counts, w) > 0
  }

  /** allocate_shared: a new wrapper with one reference, the thread's own. */
  function Construct(s: State, t: Tid, key: Key, life: nat): State {
    var w := s.next;
    s.(wrappers := s.wrappers[w := Wrapper(key, life, false)], next := w + 1, makers := s.makers[w := t],
       refs := s.refs[Local(t) := w], counts := s.counts[w := 1])
  }

  /** A reference goes away; at zero the object is gone and only its cache entry stays. */
  function Release(s: State, h: Holder): State
    requires h in s.refs
  {
    var w := s.refs[h];
    var n := Count(s.counts, w);
    s.(refs := s.refs - {h}, counts := s.counts[w := if n > 0 then n - 1 else 0])
  }

  /** The core frees a handle: its entries leave the cache and its wrappers retire. */
  function DoRetire(s: State, h: Handle): State
    requires h in s.lives
  {
    s.(lives := s.lives - {h}, published := s.published - {h},
       cache := map k | k in s.cache && k.0 != h :: s.cache[k],
       wrappers := map w | w in s.wrappers ::
         if s.wrappers[w].key.0 == h && s.wrappers[w].life == s.lives[h] then s.wrappers[w].(retired := true)
         else s.wrappers[w])
  }

  /** _familyInsert: a dead wrapper's entry, if any, is replaced. */
  function DoInsert(s: State, t: Tid, pc: Pc): State
    requires t < |s.threads| && pc.Made?
  {
    At(s, t, Leaving(pc.key, pc.life, pc.w)).(
      cache := s.cache[pc.key := pc.w], published := s.published + {pc.key.0}, makers := s.makers - {pc.w})
  }

  /** weak_ptr::lock succeeds: the thread gets a reference of its own. */
  function DoLock(s: State, t: Tid, pc: Pc): State
    requires t < |s.threads| && pc.Found?
  {
    At(s, t, Locked(pc.key, pc.life, pc.w)).(refs := s.refs[Local(t) := pc.w],
                                             counts := s.counts[pc.w := Count(s.counts, pc.w) + 1])
  }

  /** The call returns; the application keeps the reference as its `i`-th. */
  function DoLeave(s: State, t: Tid, i: nat): State
    requires t < |s.threads| && Local(t) in s.refs
  {
    At(s, t, Idle).(lock := None, refs := (s.refs - {Local(t)})[App(i) := s.refs[Local(t)]])
  }

  /** The core creates a handle; `published` unless its maker keeps it to itself. */
  function DoMint(s: State, h: Handle, published: set<Handle>): State {
    s.(lives := s.lives[h := s.births], births := s.births + 1, published := published)
  }

  /** wrapGuardConditionHandle: a handle of one's own and its wrapper. */
  function DoWrap(s: State, t: Tid, key: Key): State
    requires t < |s.threads|
  {
    At(Construct(DoMint(s, key.0, s.published), t, key, s.births), t, Private(key, s.births, s.next))
  }

  function DoCopy(s: State, i: nat, j: nat): State
    requires App(i) in s.refs
  {
    var w := s.refs[App(i)];
    s.(refs := s.refs[App(j) := w], counts := s.counts[w := Count(s.counts, w) + 1])
  }

  predicate Using(s: State, h: Handle) {
    exists t :: 0 <= t < |s.threads| && !s.threads[t].Idle? && s.threads[t].key.0 == h
  }

  /** One step; None when the action is not possible in this state. */
  function Step(c: Config, s: State, a: Action): Option<State> {
    match a
    case Mint(h) =>
      if h in s.lives then None else Some(DoMint(s, h, s.published + {h}))
    case Retire(h) =>
      if h !in s.lives || s.lock.Some? || (c.pinned && Using(s, h)) then None else Some(DoRetire(s, h))
    case Call(t, key) =>
      if t < |s.threads| && s.threads[t].Idle? && key.0 in s.lives && key.0 in s.published
      then Some(At(s, t, Waiting(key, s.lives[key.0]))) else None
    case Wrap(t, key) =>
      if t < |s.threads| && s.threads[t].Idle? && key.0 !in s.lives && Local(t) !in s.refs
      then Some(DoWrap(s, t, key)) else None
    case Advance(t, ok, i) =>
      if t < |s.threads| then AdvanceThread(s, t, ok, i) else None
    case Copy(i, j) =>
      if App(i) in s.refs && App(j) !in s.refs then Some(DoCopy(s, i, j)) else None
    case Drop(i) => if App(i) in s.refs then Some(Release(s, App(i))) else None
  }

  /** The next step of thread `t`; `ok` is whether an allocation succeeds, `i` the
      name under which the application keeps the returned reference. */
  function AdvanceThread(s: State, t: Tid, ok: bool, i: nat): Option<State>
    requires t < |s.threads|
  {
    match s.threads[t]
    case Idle => None
    case Waiting(key, life) =>
      if s.lock.None? then Some(At(s, t, Looking(key, life)).(lock := Some(t))) else None
    case Private(key, life, w) =>
      if s.lock.None? then Some(At(s, t, Made(key, life, w)).(lock := Some(t))) else None
    case Looking(key, life) =>
      if key in s.cache then Some(At(s, t, Found(key, life, s.cache[key]))) else Some(At(s, t, Missing(key, life)))
    case Found(key, life, w) =>
      // weak_ptr::lock
      if Count(s.counts, w) > 0 && Local(t) !in s.refs then Some(DoLock(s, t, s.threads[t]))
      else Some(At(s, t, Missing(key, life)))
    case Locked(key, life, w) =>
      // the cached object pointer is used here
      Some(At(s, t, Leaving(key, life, w)).(fault := s.fault || !Live(s, w)))
    case Missing(key, life) =>
      if ok && Local(t) !in s.refs then Some(At(Construct(s, t, key, life), t, Made(key, life, s.next)))
      else Some(At(s, t, Idle).(lock := None))
    case Made(key, life, w) =>
      Some(DoInsert(s, t, s.threads[t]))
    case Leaving(key, life, w) =>
      if Local(t) in s.refs && App(i) !in s.refs then Some(DoLeave(s, t, i)) else None
  }

  function Run(c: Config, acts: seq<Action>): Option<State> {
    if acts == [] then Some(Init(c))
    else
      var before := Run(c, acts[..|acts| - 1]);
      if before.None? then None else Step(c, before.value, acts[|acts| - 1])
  }

  // ---- The invariant ----------------------------------------------------------

  predicate Critical(pc: Pc) {
    pc.Looking? || pc.Found? || pc.Locked? || pc.Missing? || pc.Made? || pc.Leaving?
  }

  /** The wrapper a thread has made and not yet put into the cache. */
  function Making(pc: Pc): Option<Wid> {
    match pc
    case Private(_, _, w) => Some(w)
    case Made(_, _, w) => Some(w)
    case _ => None
  }

  /** The wrapper a thread holds a reference to. */
  function Holding(pc: Pc): Option<Wid> {
    match pc
    case Private(_, _, w) => Some(w)
    case Made(_, _, w) => Some(w)
    case Locked(_, _, w) => Some(w)
    case Leaving(_, _, w) => Some(w)
    case _ => None
  }

  ghost predicate Locks(threads: seq<Pc>, lock: Option<Tid>) {
    forall t :: 0 <= t < |threads| ==> (Critical(threads[t]) <==> lock == Some(t))
  }

  /** A handle in use by a call is alive, in the life the call started in. */
  ghost predicate Handles(threads: seq<Pc>, lives: map<Handle, nat>, published: set<Handle>) {
    && (forall t :: 0 <= t < |threads| && !threads[t].Idle? ==>
          threads[t].key.0 in lives && lives[threads[t].key.0] == threads[t].life
          && (!threads[t].Private? ==> threads[t].Made? || threads[t].key.0 in published))
    && published <= lives.Keys
  }

  /** A thread holds exactly the reference its place in the code says. */
  ghost predicate Locals(threads: seq<Pc>, refs: map<Holder, Wid>) {
    && (forall t: nat :: Local(t) in refs <==> t < |threads| && Holding(threads[t]).Some?)
    && (forall t: nat :: Local(t) in refs ==> Some(refs[Local(t)]) == Holding(threads[t]))
  }

  /** What the cache says is about wrappers of the current life of their handle. */
  ghost predicate Entries(cache: map<Key, Wid>, wrappers: map<Wid, Wrapper>, lives: map<Handle, nat>, published: set<Handle>) {
    forall k :: k in cache ==>
      && k.0 in lives && k.0 in published && cache[k] in wrappers
      && wrappers[cache[k]] == Wrapper(k, lives[k.0], false)
  }

  /** A live wrapper that is not retired is the cached one, or is still being made. */
  ghost predicate Unique(s: State) {
    forall w :: Live(s, w) && !s.wrappers[w].retired ==>
      && s.wrappers[w].key.0 in s.lives && s.wrappers[w].life == s.lives[s.wrappers[w].key.0]
      && (Cached(s, w) || w in s.makers)
  }

  ghost predicate Makers(threads: seq<Pc>, makers: map<Wid, Tid>) {
    forall w :: w in makers ==> makers[w] < |threads| && Making(threads[makers[w]]) == Some(w)
  }

  predicate Cached(s: State, w: Wid)
    requires w in s.wrappers
  {
    s.wrappers[w].key in s.cache && s.cache[s.wrappers[w].key] == w
  }

  /** What a thread knows about the wrapper it is dealing with. */
  ghost predicate Knows(s: State, pc: Pc) {
    match pc
    case Found(key, life, w) => key in s.cache && s.cache[key] == w
    case Locked(key, life, w) => key in s.cache && s.cache[key] == w
    case Leaving(key, life, w) => key in s.cache && s.cache[key] == w
    case Missing(key, life) => key in s.cache ==> Count(s.counts, s.cache[key]) == 0
    case Made(key, life, w) =>
      && w in s.wrappers && s.wrappers[w] == Wrapper(key, life, false)
      && (key in s.cache ==> Count(s.counts, s.cache[key]) == 0)
    case Private(key, life, w) =>
      && w in s.wrappers && s.wrappers[w] == Wrapper(key, life, false)
      && key.0 !in s.published
    case _ => true
  }

  ghost predicate Knowing(s: State) {
    forall t :: 0 <= t < |s.threads| ==> Knows(s, s.threads[t])
  }

  /** A handle nobody else knows is in use by the thread that made it alone. */
  ghost predicate Secret(threads: seq<Pc>, published: set<Handle>) {
    forall t, u :: 0 <= t < |threads| && 0 <= u < |threads| && t != u
                   && !threads[t].Idle? && !threads[u].Idle? && threads[t].key.0 == threads[u].key.0 ==>
      threads[t].key.0 in published
  }

  ghost predicate Ids(wrappers: map<Wid, Wrapper>, counts: map<Wid, nat>, next: Wid) {
    counts.Keys == wrappers.Keys && forall w :: w in wrappers ==> w < next
  }

  /** Which calls are where, and that their handles are alive. */
  ghost predicate Calling(threads: seq<Pc>, lock: Option<Tid>, lives: map<Handle, nat>, published: set<Handle>) {
    Locks(threads, lock) && Handles(threads, lives, published) && Secret(threads, published)
  }

  /** Wrappers, the references to them and the cache. */
  ghost predicate Objects(s: State) {
    && Locals(s.threads, s.refs)
    && Entries(s.cache, s.wrappers, s.lives, s.published)
    && Counted(s.refs, s.counts) && Ids(s.wrappers, s.counts, s.next)
    && Makers(s.threads, s.makers) && Unique(s) && Knowing(s)
  }

  ghost predicate Inv(c: Config, s: State) {
    && |s.threads| == c.threads
    && Calling(s.threads, s.lock, s.lives, s.published)
    && Objects(s)
    && !s.fault
  }

  // ---- Each step keeps it ----------------------------------------------------

  /** Nothing a thread knows changes while the entries stay and dead wrappers stay dead. */
  lemma KnowingKept(s: State, t: Tid, pc: Pc, s': State)
    requires t < |s.threads| && Knowing(s) && Knows(s', pc)
    requires s'.threads == s.threads[t := pc] && s'.cache == s.cache && s'.published == s.published
    requires forall k :: k in s.cache && Count(s.counts, s.cache[k]) == 0 ==> Count(s'.counts, s.cache[k]) == 0
    requires forall w :: w in s.wrappers ==> w in s'.wrappers && s'.wrappers[w] == s.wrappers[w]
    ensures Knowing(s')
  {
    forall u | 0 <= u < |s'.threads| ensures Knows(s', s'.threads[u]) {
      if u != t { assert Knows(s, s.threads[u]); }
    }
  }

  lemma UniqueKept(s: State, s': State)
    requires Unique(s) && s'.wrappers == s.wrappers && s'.cache == s.cache && s'.lives == s.lives && s'.makers == s.makers
    requires forall w :: Live(s', w) ==> Live(s, w)
    ensures Unique(s')
  {
    forall w | Live(s', w) && !s'.wrappers[w].retired
      ensures s'.wrappers[w].key.0 in s'.lives && s'.wrappers[w].life == s'.lives[s'.wrappers[w].key.0]
      ensures Cached(s', w) || w in s'.makers
    {
      assert Live(s, w);
    }
  }

  lemma Positive(s: State, h: Holder)
    requires Counted(s.refs, s.counts) && h in s.refs
    ensures Count(s.counts, s.refs[h]) > 0
  {
    assert h in To(s.refs, s.refs[h]);
  }

  /** A handle value nobody was using starts a new life. */
  lemma BirthKeeps(s: State, h: Handle, published: set<Handle>)
    requires Unique(s) && Knowing(s) && h !in s.lives && Handles(s.threads, s.lives, s.published)
    requires published == s.published || published == s.published + {h}
    ensures var s' := DoMint(s, h, published);
            Unique(s') && Knowing(s') && Handles(s'.threads, s'.lives, s'.published)
  {
    var s' := DoMint(s, h, published);
    forall u | 0 <= u < |s'.threads| ensures Knows(s', s'.threads[u]) {
      assert Knows(s, s.threads[u]);
    }
    forall w | Live(s', w) && !s'.wrappers[w].retired ensures s'.wrappers[w].key.0 != h { assert Live(s, w); }
  }

  lemma MintKeeps(c: Config, s: State, h: Handle)
    requires Inv(c, s) && h !in s.lives
    ensures Inv(c, DoMint(s, h, s.published + {h}))
  {
    BirthKeeps(s, h, s.published + {h});
  }

  lemma RetiredObjects(s: State, h: Handle)
    requires Objects(s) && Calling(s.threads, s.lock, s.lives, s.published)
    requires h in s.lives && s.lock.None? && !Using(s, h)
    ensures Objects(DoRetire(s, h))
  {
    var s' := DoRetire(s, h);
    assert s'.wrappers.Keys == s.wrappers.Keys;
    forall u | 0 <= u < |s'.threads| ensures Knows(s', s'.threads[u]) {
      assert Knows(s, s.threads[u]);
    }
    RetiredUnique(s, h);
  }

  lemma RetiredUnique(s: State, h: Handle)
    requires Unique(s) && h in s.lives
    ensures Unique(DoRetire(s, h))
  {
    var s' := DoRetire(s, h);
    forall w | Live(s', w) && !s'.wrappers[w].retired
      ensures s'.wrappers[w].key.0 in s'.lives && s'.wrappers[w].life == s'.lives[s'.wrappers[w].key.0]
      ensures Cached(s', w) || w in s'.makers
    {
      assert Live(s, w) && !s.wrappers[w].retired;
    }
  }

  lemma RetireKeeps(c: Config, s: State, h: Handle)
    requires Inv(c, s) && h in s.lives && s.lock.None? && !Using(s, h)
    ensures Inv(c, DoRetire(s, h))
  {
    RetiredObjects(s, h);
  }

  /** A thread moves without touching a wrapper. */
  lemma MovedObjects(s: State, t: Tid, pc: Pc, lock: Option<Tid>)
    requires Objects(s) && t < |s.threads| && Knows(s, pc)
    requires Holding(pc) == Holding(s.threads[t]) && Making(pc) == Making(s.threads[t])
    ensures Objects(At(s, t, pc).(lock := lock))
  {
    var s' := At(s, t, pc).(lock := lock);
    KnowingKept(s, t, pc, s');
    UniqueKept(s, s');
  }

  lemma CallKeeps(c: Config, s: State, t: Tid, key: Key)
    requires Inv(c, s) && t < |s.threads| && s.threads[t].Idle? && key.0 in s.published
    ensures Inv(c, At(s, t, Waiting(key, s.lives[key.0])))
  {
    MovedObjects(s, t, Waiting(key, s.lives[key.0]), s.lock);
  }

  lemma CopyKeeps(c: Config, s: State, i: nat, j: nat)
    requires Inv(c, s) && App(i) in s.refs && App(j) !in s.refs
    ensures Inv(c, DoCopy(s, i, j))
  {
    var w, s' := s.refs[App(i)], DoCopy(s, i, j);
    Added(s.refs, s.counts, App(j), w);
    Positive(s, App(i));
    assert s'.counts.Keys == s.counts.Keys;
    forall u | 0 <= u < |s'.threads| ensures Knows(s', s'.threads[u]) {
      assert Knows(s, s.threads[u]);
    }
    UniqueKept(s, s');
  }

  lemma DropKeeps(c: Config, s: State, i: nat)
    requires Inv(c, s) && App(i) in s.refs
    ensures Inv(c, Release(s, App(i)))
  {
    var s' := Release(s, App(i));
    Removed(s.refs, s.counts, App(i));
    assert s'.counts.Keys == s.counts.Keys;
    forall u | 0 <= u < |s'.threads| ensures Knows(s', s'.threads[u]) {
      assert Knows(s, s.threads[u]);
    }
    UniqueKept(s, s');
  }

  /** A thread gets a reference of its own. */
  lemma LocalGained(threads: seq<Pc>, refs: map<Holder, Wid>, t: Tid, pc: Pc, w: Wid)
    requires Locals(threads, refs) && t < |threads| && Holding(pc) == Some(w)
    ensures Locals(threads[t := pc], refs[Local(t) := w])
  {
  }

  lemma NewIsUnique(s: State, t: Tid, key: Key, life: nat, pc: Pc)
    requires Unique(s) && Ids(s.wrappers, s.counts, s.next) && t < |s.threads|
    requires key.0 in s.lives && s.lives[key.0] == life
    ensures Unique(At(Construct(s, t, key, life), t, pc))
  {
    var s' := At(Construct(s, t, key, life), t, pc);
    forall x | Live(s', x) && !s'.wrappers[x].retired
      ensures s'.wrappers[x].key.0 in s'.lives && s'.wrappers[x].life == s'.lives[s'.wrappers[x].key.0]
      ensures Cached(s', x) || x in s'.makers
    {
      if x != s.next { assert Live(s, x); }
    }
  }

  lemma NewIsMade(threads: seq<Pc>, makers: map<Wid, Tid>, t: Tid, pc: Pc, w: Wid)
    requires Makers(threads, makers) && t < |threads| && Making(threads[t]).None? && Making(pc) == Some(w)
    ensures Makers(threads[t := pc], makers[w := t])
  {
  }

  /** A new wrapper joins; the thread that made it has the only reference. */
  lemma ConstructKeeps(s: State, t: Tid, key: Key, life: nat, pc: Pc)
    requires Objects(s) && t < |s.threads| && Holding(s.threads[t]).None?
    requires key.0 in s.lives && s.lives[key.0] == life
    requires pc == Private(key, life, s.next) || pc == Made(key, life, s.next)
    requires pc.Private? ==> key.0 !in s.published
    requires pc.Made? ==> (key in s.cache ==> Count(s.counts, s.cache[key]) == 0)
    ensures Objects(At(Construct(s, t, key, life), t, pc))
  {
    var s' := At(Construct(s, t, key, life), t, pc);
    Introduced(s.refs, s.counts, Local(t), s.next);
    LocalGained(s.threads, s.refs, t, pc, s.next);
    NewIsMade(s.threads, s.makers, t, pc, s.next);
    NewIsUnique(s, t, key, life, pc);
    NewIsKnown(s, t, key, life, pc);
  }

  lemma NewIsKnown(s: State, t: Tid, key: Key, life: nat, pc: Pc)
    requires Knowing(s) && t < |s.threads| && Ids(s.wrappers, s.counts, s.next)
    requires Entries(s.cache, s.wrappers, s.lives, s.published)
    requires pc == Private(key, life, s.next) || pc == Made(key, life, s.next)
    requires pc.Private? ==> key.0 !in s.published
    requires pc.Made? ==> (key in s.cache ==> Count(s.counts, s.cache[key]) == 0)
    ensures Knowing(At(Construct(s, t, key, life), t, pc))
  {
    KnowingKept(s, t, pc, At(Construct(s, t, key, life), t, pc));
  }

  lemma WrapCalling(s: State, t: Tid, key: Key)
    requires Calling(s.threads, s.lock, s.lives, s.published)
    requires t < |s.threads| && s.threads[t].Idle? && key.0 !in s.lives
    ensures Calling(DoWrap(s, t, key).threads, s.lock, DoWrap(s, t, key).lives, s.published)
  {
  }

  lemma WrapKeeps(c: Config, s: State, t: Tid, key: Key)
    requires Inv(c, s) && t < |s.threads| && s.threads[t].Idle? && key.0 !in s.lives
    ensures Inv(c, DoWrap(s, t, key))
  {
    BirthKeeps(s, key.0, s.published);
    ConstructKeeps(DoMint(s, key.0, s.published), t, key, s.births, Private(key, s.births, s.next));
    WrapCalling(s, t, key);
  }

  /** Taking the mutex, looking into the cache, using the object, giving up. */
  lemma MoveKeeps(c: Config, s: State, t: Tid, pc: Pc, lock: Option<Tid>)
    requires Inv(c, s) && t < |s.threads| && Steps(s.threads, s.lock, t, pc, lock)
    requires Holding(pc) == Holding(s.threads[t]) && Making(pc) == Making(s.threads[t])
    requires Knows(s, pc)
    ensures Inv(c, At(s, t, pc).(lock := lock))
  {
    MovedObjects(s, t, pc, lock);
    MovedCalling(s.threads, s.lock, s.lives, s.published, t, pc, lock);
  }

  /** A thread stays with its handle, and its place in the code fits the mutex. */
  predicate Steps(threads: seq<Pc>, lock: Option<Tid>, t: Tid, pc: Pc, lock': Option<Tid>)
    requires t < |threads|
  {
    && !threads[t].Idle? && (!pc.Idle? ==> pc.key == threads[t].key && pc.life == threads[t].life)
    && !pc.Private? && (threads[t].Private? || threads[t].Made? ==> pc.Made?)
    && (Critical(pc) <==> lock' == Some(t))
    && (lock == lock' || (lock == None && lock' == Some(t)) || (lock == Some(t) && lock' == None))
  }

  lemma MovedCalling(threads: seq<Pc>, lock: Option<Tid>, lives: map<Handle, nat>, published: set<Handle>,
                     t: Tid, pc: Pc, lock': Option<Tid>)
    requires Calling(threads, lock, lives, published) && t < |threads| && Steps(threads, lock, t, pc, lock')
    ensures Calling(threads[t := pc], lock', lives, published)
  {
  }

  /** weak_ptr::lock on a wrapper that is still there. */
  lemma LockedObjects(s: State, t: Tid)
    requires Objects(s) && t < |s.threads| && s.threads[t].Found? && Count(s.counts, s.threads[t].w) > 0
    ensures Objects(DoLock(s, t, s.threads[t]))
  {
    var pc := s.threads[t];
    var s' := DoLock(s, t, pc);
    assert Knows(s, pc);
    Added(s.refs, s.counts, Local(t), pc.w);
    assert s'.counts.Keys == s.counts.Keys;
    LocalGained(s.threads, s.refs, t, Locked(pc.key, pc.life, pc.w), pc.w);
    KnowingKept(s, t, s'.threads[t], s');
    UniqueKept(s, s');
  }

  lemma LockKeeps(c: Config, s: State, t: Tid)
    requires Inv(c, s) && t < |s.threads| && s.threads[t].Found? && Count(s.counts, s.threads[t].w) > 0
    ensures Inv(c, DoLock(s, t, s.threads[t]))
  {
    var pc := s.threads[t];
    LockedObjects(s, t);
    MovedCalling(s.threads, s.lock, s.lives, s.published, t, Locked(pc.key, pc.life, pc.w), s.lock);
  }

  lemma MissingKeeps(c: Config, s: State, t: Tid)
    requires Inv(c, s) && t < |s.threads| && s.threads[t].Missing?
    ensures var pc := s.threads[t];
            Inv(c, At(Construct(s, t, pc.key, pc.life), t, Made(pc.key, pc.life, s.next)))
  {
    var pc := s.threads[t];
    assert Knows(s, pc);
    ConstructKeeps(s, t, pc.key, pc.life, Made(pc.key, pc.life, s.next));
  }

  lemma InsertUnique(s: State, t: Tid, pc: Pc)
    requires Unique(s) && t < |s.threads| && pc.Made? && pc.w in s.wrappers
    requires s.wrappers[pc.w] == Wrapper(pc.key, pc.life, false)
    requires pc.key in s.cache ==> Count(s.counts, s.cache[pc.key]) == 0
    ensures Unique(DoInsert(s, t, pc))
  {
    var s' := DoInsert(s, t, pc);
    forall x | Live(s', x) && !s'.wrappers[x].retired
      ensures s'.wrappers[x].key.0 in s'.lives && s'.wrappers[x].life == s'.lives[s'.wrappers[x].key.0]
      ensures Cached(s', x) || x in s'.makers
    {
      assert Live(s, x);
    }
  }

  lemma InsertKnown(c: Config, s: State, t: Tid)
    requires Knowing(s) && Locks(s.threads, s.lock) && Secret(s.threads, s.published)
    requires Ids(s.wrappers, s.counts, s.next) && t < |s.threads| && s.threads[t].Made?
    ensures Knowing(DoInsert(s, t, s.threads[t]))
  {
    var s' := DoInsert(s, t, s.threads[t]);
    forall u | 0 <= u < |s'.threads| ensures Knows(s', s'.threads[u]) {
      if u != t {
        assert Knows(s, s.threads[u]) && !Critical(s.threads[u]);
      }
    }
  }

  lemma InsertCalling(threads: seq<Pc>, lock: Option<Tid>, lives: map<Handle, nat>, published: set<Handle>,
                      t: Tid, pc: Pc)
    requires Calling(threads, lock, lives, published) && t < |threads| && threads[t].Made? && pc.Leaving?
    requires pc.key == threads[t].key && pc.life == threads[t].life
    ensures Calling(threads[t := pc], lock, lives, published + {pc.key.0})
  {
  }

  lemma InsertedObjects(c: Config, s: State, t: Tid)
    requires Objects(s) && Calling(s.threads, s.lock, s.lives, s.published)
    requires t < |s.threads| && s.threads[t].Made?
    ensures Objects(DoInsert(s, t, s.threads[t]))
  {
    var pc := s.threads[t];
    assert Knows(s, pc);
    InsertKnown(c, s, t);
    InsertUnique(s, t, pc);
    InsertEntries(s, pc);
    InsertMade(s.threads, s.makers, s.refs, t, Leaving(pc.key, pc.life, pc.w));
  }

  lemma InsertEntries(s: State, pc: Pc)
    requires Entries(s.cache, s.wrappers, s.lives, s.published) && pc.Made?
    requires pc.w in s.wrappers && s.wrappers[pc.w] == Wrapper(pc.key, pc.life, false)
    requires pc.key.0 in s.lives && s.lives[pc.key.0] == pc.life
    ensures Entries(s.cache[pc.key := pc.w], s.wrappers, s.lives, s.published + {pc.key.0})
  {
  }

  lemma InsertMade(threads: seq<Pc>, makers: map<Wid, Tid>, refs: map<Holder, Wid>, t: Tid, pc: Pc)
    requires Makers(threads, makers) && Locals(threads, refs) && t < |threads| && threads[t].Made? && pc.Leaving?
    requires pc.w == threads[t].w
    ensures Makers(threads[t := pc], makers - {pc.w}) && Locals(threads[t := pc], refs)
  {
  }

  lemma InsertKeeps(c: Config, s: State, t: Tid)
    requires Inv(c, s) && t < |s.threads| && s.threads[t].Made?
    ensures Inv(c, DoInsert(s, t, s.threads[t]))
  {
    InsertedObjects(c, s, t);
    InsertCalling(s.threads, s.lock, s.lives, s.published, t, DoInsert(s, t, s.threads[t]).threads[t]);
  }

  lemma LeaveRefs(threads: seq<Pc>, refs: map<Holder, Wid>, t: Tid, i: nat, w: Wid)
    requires Locals(threads, refs) && t < |threads|
    ensures Locals(threads[t := Idle], (refs - {Local(t)})[App(i) := w])
  {
    var refs' := (refs - {Local(t)})[App(i) := w];
    assert forall u: nat :: u != t ==> (Local(u) in refs' <==> Local(u) in refs);
  }

  lemma LeftObjects(s: State, t: Tid, i: nat)
    requires Objects(s) && t < |s.threads| && s.threads[t].Leaving? && App(i) !in s.refs
    ensures Local(t) in s.refs && Objects(DoLeave(s, t, i))
  {
    assert Local(t) in s.refs;
    Moved(s.refs, s.counts, Local(t), App(i));
    LeaveRefs(s.threads, s.refs, t, i, s.refs[Local(t)]);
    KnowingKept(s, t, Idle, DoLeave(s, t, i));
    UniqueKept(s, DoLeave(s, t, i));
  }

  lemma LeaveKeeps(c: Config, s: State, t: Tid, i: nat)
    requires Inv(c, s) && t < |s.threads| && s.threads[t].Leaving? && App(i) !in s.refs
    ensures Local(t) in s.refs && Inv(c, DoLeave(s, t, i))
  {
    LeftObjects(s, t, i);
    MovedCalling(s.threads, s.lock, s.lives, s.published, t, Idle, None);
  }

  lemma UseKeeps(c: Config, s: State, t: Tid)
    requires Inv(c, s) && t < |s.threads| && s.threads[t].Locked?
    ensures var pc := s.threads[t];
            Live(s, pc.w) && Inv(c, At(s, t, Leaving(pc.key, pc.life, pc.w)))
  {
    var pc := s.threads[t];
    assert Knows(s, pc) && Local(t) in s.refs;
    Positive(s, Local(t));
    MoveKeeps(c, s, t, Leaving(pc.key, pc.life, pc.w), s.lock);
  }

  /** The steps before and around the mutex. */
  lemma EnterKeeps(c: Config, s: State, t: Tid, ok: bool, i: nat, s': State)
    requires Inv(c, s) && t < |s.threads| && AdvanceThread(s, t, ok, i) == Some(s')
    requires s.threads[t].Waiting? || s.threads[t].Private? || s.threads[t].Looking?
    ensures Inv(c, s')
  {
    var pc := s.threads[t];
    assert Knows(s, pc);
    MoveKeeps(c, s, t, s'.threads[t], s'.lock);
  }

  lemma FoundKeeps(c: Config, s: State, t: Tid, ok: bool, i: nat, s': State)
    requires Inv(c, s) && t < |s.threads| && AdvanceThread(s, t, ok, i) == Some(s')
    requires s.threads[t].Found? || s.threads[t].Missing?
    ensures Inv(c, s')
  {
    var pc := s.threads[t];
    assert Knows(s, pc);
    if pc.Found? && Count(s.counts, pc.w) > 0 {
      LockKeeps(c, s, t);
    } else if pc.Missing? && ok {
      MissingKeeps(c, s, t);
    } else {
      MoveKeeps(c, s, t, s'.threads[t], s'.lock);
    }
  }

  lemma AdvanceKeeps(c: Config, s: State, t: Tid, ok: bool, i: nat, s': State)
    requires Inv(c, s) && t < |s.threads| && AdvanceThread(s, t, ok, i) == Some(s')
    ensures Inv(c, s')
  {
    match s.threads[t]
    case Locked(_, _, _) => UseKeeps(c, s, t);
    case Made(_, _, _) => InsertKeeps(c, s, t);
    case Leaving(_, _, _) => LeaveKeeps(c, s, t, i);
    case Found(_, _, _) => FoundKeeps(c, s, t, ok, i, s');
    case Missing(_, _) => FoundKeeps(c, s, t, ok, i, s');
    case _ => EnterKeeps(c, s, t, ok, i, s');
  }

  lemma StepKeepsInv(c: Config, s: State, a: Action, s': State)
    requires c.pinned && Inv(c, s) && Step(c, s, a) == Some(s')
    ensures Inv(c, s')
  {
    match a
    case Mint(h) => MintKeeps(c, s, h);
    case Retire(h) => RetireKeeps(c, s, h);
    case Call(t, key) => CallKeeps(c, s, t, key);
    case Wrap(t, key) => WrapKeeps(c, s, t, key);
    case Advance(t, ok, i) => AdvanceKeeps(c, s, t, ok, i, s');
    case Copy(i, j) => CopyKeeps(c, s, i, j);
    case Drop(i) => DropKeeps(c, s, i);
  }

  lemma {:induction false} RunKeepsInv(c: Config, acts: seq<Action>)
    requires c.pinned && Run(c, acts).Some?
    ensures Inv(c, Run(c, acts).value)
  {
    if acts != [] {
      var before := acts[..|acts| - 1];
      RunKeepsInv(c, before);
      StepKeepsInv(c, Run(c, before).value, acts[|acts| - 1], Run(c, acts).value);
    }
  }

  /** A live wrapper whose handle the core has not freed. */
  predicate Current(s: State, w: Wid) {
    Live(s, w) && !s.wrappers[w].retired
  }

  // ---- References in every schedule, pinned or not ---------------------------------

  /** Every reference is some holder's, and a thread holds the one its place says. */
  ghost predicate Held(threads: seq<Pc>, refs: map<Holder, Wid>, wrappers: map<Wid, Wrapper>, counts: map<Wid, nat>, next: Wid) {
    Locals(threads, refs) && Counted(refs, counts) && Ids(wrappers, counts, next)
  }

  ghost predicate HeldIn(s: State) {
    Held(s.threads, s.refs, s.wrappers, s.counts, s.next)
  }

  lemma HeldAfterMove(threads: seq<Pc>, refs: map<Holder, Wid>, t: Tid, pc: Pc)
    requires Locals(threads, refs) && t < |threads| && Holding(pc) == Holding(threads[t])
    ensures Locals(threads[t := pc], refs)
  {
  }

  lemma HeldAfterConstruct(s: State, t: Tid, key: Key, life: nat, pc: Pc)
    requires HeldIn(s) && t < |s.threads| && Local(t) !in s.refs && Holding(pc) == Some(s.next)
    ensures HeldIn(At(Construct(s, t, key, life), t, pc))
  {
    Introduced(s.refs, s.counts, Local(t), s.next);
    LocalGained(s.threads, s.refs, t, pc, s.next);
  }

  lemma HeldAfterLock(s: State, t: Tid, pc: Pc)
    requires HeldIn(s) && t < |s.threads| && pc.Found? && Count(s.counts, pc.w) > 0 && Local(t) !in s.refs
    ensures HeldIn(DoLock(s, t, pc))
  {
    Added(s.refs, s.counts, Local(t), pc.w);
    LocalGained(s.threads, s.refs, t, Locked(pc.key, pc.life, pc.w), pc.w);
    assert s.counts[pc.w := Count(s.counts, pc.w) + 1].Keys == s.counts.Keys;
  }

  lemma HeldAfterLeave(s: State, t: Tid, i: nat)
    requires HeldIn(s) && t < |s.threads| && Local(t) in s.refs && App(i) !in s.refs
    ensures HeldIn(DoLeave(s, t, i))
  {
    Moved(s.refs, s.counts, Local(t), App(i));
    LeaveRefs(s.threads, s.refs, t, i, s.refs[Local(t)]);
  }

  lemma HeldAfterCopy(s: State, i: nat, j: nat)
    requires HeldIn(s) && App(i) in s.refs && App(j) !in s.refs
    ensures HeldIn(DoCopy(s, i, j))
  {
    Added(s.refs, s.counts, App(j), s.refs[App(i)]);
    assert DoCopy(s, i, j).counts.Keys == s.counts.Keys;
  }

  lemma HeldAfterDrop(s: State, i: nat)
    requires HeldIn(s) && App(i) in s.refs
    ensures HeldIn(Release(s, App(i)))
  {
    Removed(s.refs, s.counts, App(i));
    assert Release(s, App(i)).counts.Keys == s.counts.Keys;
  }

  lemma AdvanceHeld(s: State, t: Tid, ok: bool, i: nat, s': State)
    requires HeldIn(s) && !s.fault && t < |s.threads| && AdvanceThread(s, t, ok, i) == Some(s')
    ensures HeldIn(s') && !s'.fault
  {
    var pc := s.threads[t];
    if pc.Found? && Count(s.counts, pc.w) > 0 && Local(t) !in s.refs {
      HeldAfterLock(s, t, pc);
    } else if pc.Missing? && ok {
      assert Local(t) !in s.refs;
      HeldAfterConstruct(s, t, pc.key, pc.life, Made(pc.key, pc.life, s.next));
    } else if pc.Leaving? {
      HeldAfterLeave(s, t, i);
    } else if pc.Found? || pc.Missing? {
      MissHeld(s, t, ok, i, s');
    } else if pc.Locked? || pc.Made? {
      UseHeld(s, t, ok, i, s');
    } else {
      EnterHeld(s, t, ok, i, s');
    }
  }

  /** The steps that take and drop no reference. */
  lemma EnterHeld(s: State, t: Tid, ok: bool, i: nat, s': State)
    requires HeldIn(s) && !s.fault && t < |s.threads| && AdvanceThread(s, t, ok, i) == Some(s')
    requires s.threads[t].Waiting? || s.threads[t].Private? || s.threads[t].Looking?
    ensures HeldIn(s') && !s'.fault
  {
    HeldAfterMove(s.threads, s.refs, t, s'.threads[t]);
  }

  lemma MissHeld(s: State, t: Tid, ok: bool, i: nat, s': State)
    requires HeldIn(s) && !s.fault && t < |s.threads| && AdvanceThread(s, t, ok, i) == Some(s')
    requires (s.threads[t].Missing? && !ok) || (s.threads[t].Found? && (Count(s.counts, s.threads[t].w) == 0 || Local(t) in s.refs))
    ensures HeldIn(s') && !s'.fault
  {
    HeldAfterMove(s.threads, s.refs, t, s'.threads[t]);
  }

  lemma UseHeld(s: State, t: Tid, ok: bool, i: nat, s': State)
    requires HeldIn(s) && !s.fault && t < |s.threads| && AdvanceThread(s, t, ok, i) == Some(s')
    requires s.threads[t].Locked? || s.threads[t].Made?
    ensures HeldIn(s') && !s'.fault
  {
    HeldAfterMove(s.threads, s.refs, t, s'.threads[t]);
    if s.threads[t].Locked? { HeldIsLive(s, t); }
  }

  lemma HeldIsLive(s: State, t: Tid)
    requires HeldIn(s) && t < |s.threads| && (s.threads[t].Locked? || s.threads[t].Leaving?)
    ensures Live(s, s.threads[t].w)
  {
    var w := s.threads[t].w;
    assert Local(t) in s.refs && s.refs[Local(t)] == w;
    assert Local(t) in To(s.refs, w);
  }

  lemma StepHeld(c: Config, s: State, a: Action, s': State)
    requires HeldIn(s) && !s.fault && Step(c, s, a) == Some(s')
    ensures HeldIn(s') && !s'.fault
  {
    match a
    case Mint(h) =>
    case Retire(h) => assert s'.wrappers.Keys == s.wrappers.Keys;
    case Call(t, key) => HeldAfterMove(s.threads, s.refs, t, s'.threads[t]);
    case Wrap(t, key) =>
      HeldAfterConstruct(DoMint(s, key.0, s.published), t, key, s.births, Private(key, s.births, s.next));
    case Advance(t, ok, i) => AdvanceHeld(s, t, ok, i, s');
    case Copy(i, j) => HeldAfterCopy(s, i, j);
    case Drop(i) => HeldAfterDrop(s, i);
  }

  // ---- Main results -------------------------------------------------------------

  /** In every schedule, whether callers keep their handles or not: a cached object is
      used only while it is alive, because the weak reference is locked first. */
  lemma {:induction false} UsedOnlyAlive(c: Config, acts: seq<Action>, s: State)
    requires Run(c, acts) == Some(s)
    ensures HeldIn(s) && !s.fault
    ensures forall t :: 0 <= t < |s.threads| && (s.threads[t].Locked? || s.threads[t].Leaving?) ==> Live(s, s.threads[t].w)
  {
    if acts != [] {
      var before := acts[..|acts| - 1];
      var s0 := Run(c, before).value;
      UsedOnlyAlive(c, before, s0);
      StepHeld(c, s0, acts[|acts| - 1], s);
    }
    forall t | 0 <= t < |s.threads| && (s.threads[t].Locked? || s.threads[t].Leaving?) ensures Live(s, s.threads[t].w) {
      HeldIsLive(s, t);
    }
  }

  /** `acts` is a schedule in which callers keep their handles, and leads to `s`. */
  ghost predicate Reaches(c: Config, acts: seq<Action>, s: State) {
    c.pinned && Run(c, acts) == Some(s)
  }

  /** However calls, last references and retirements interleave, a handle in its
      current life has at most one live wrapper per tag, whether cached or still
      being made. */
  lemma {:induction false} OneWrapper(c: Config, acts: seq<Action>, s: State)
    requires Reaches(c, acts, s)
    ensures forall v, w :: Current(s, v) && Current(s, w) && s.wrappers[v].key == s.wrappers[w].key ==> v == w
  {
    RunKeepsInv(c, acts);
    forall v, w | Current(s, v) && Current(s, w) && s.wrappers[v].key == s.wrappers[w].key
      ensures v == w
    {
      assert Makers(s.threads, s.makers) && Knowing(s);
    }
  }

  /** A call that is about to return hands out a wrapper made for the life of the
      handle it was called with, and that wrapper is the one live wrapper of its key:
      every other live wrapper of the same key and life is the same object. */
  lemma {:induction false} CallerGetsIt(c: Config, acts: seq<Action>, s: State, t: Tid)
    requires Reaches(c, acts, s) && t < |s.threads|
    requires s.threads[t].Leaving?
    ensures var pc := s.threads[t];
            && Local(t) in s.refs && s.refs[Local(t)] == pc.w && Live(s, pc.w)
            && s.wrappers[pc.w] == Wrapper(pc.key, pc.life, false)
            && pc.key.0 in s.lives && s.lives[pc.key.0] == pc.life
            && (forall w :: Current(s, w) && s.wrappers[w].key == pc.key ==> w == pc.w)
  {
    RunKeepsInv(c, acts);
    OneWrapper(c, acts, s);
    assert Knows(s, s.threads[t]);
    Positive(s, Local(t));
  }

  /** A call that looks while a wrapper of its key is cached and alive finds that one. */
  lemma {:induction false} OverlappingCallsAgree(c: Config, acts: seq<Action>, s: State, t: Tid, w: Wid, ok: bool, i: nat)
    requires Reaches(c, acts, s) && t < |s.threads|
    requires (s.threads[t].Looking? || s.threads[t].Found?)
             && Current(s, w) && s.wrappers[w].key == s.threads[t].key
    ensures var pc := s.threads[t];
            && AdvanceThread(s, t, ok, i).Some?
            && AdvanceThread(s, t, ok, i).value.threads[t] ==
               (if pc.Looking? then Found(pc.key, pc.life, w) else Locked(pc.key, pc.life, w))
  {
    RunKeepsInv(c, acts);
    assert Knows(s, s.threads[t]);
    assert Makers(s.threads, s.makers) && Knowing(s);
  }

  // ---- Why a handle must outlive the calls that use it ---------------------------

  /** A thread about to return a wrapper made for an earlier life of its handle. */
  ghost predicate Stale(s: State) {
    exists t :: 0 <= t < |s.threads| && s.threads[t].Leaving? && s.threads[t].w in s.wrappers
                && s.wrappers[s.threads[t].w].life != s.threads[t].life
  }

  lemma Then(c: Config, acts: seq<Action>, s: State, a: Action, s': State) returns (more: seq<Action>)
    requires Run(c, acts) == Some(s) && Step(c, s, a) == Some(s')
    ensures more == acts + [a] && Run(c, more) == Some(s')
  {
    more := acts + [a];
    assert more[..|more| - 1] == acts;
  }

  lemma OwnStep(c: Config, acts: seq<Action>, s: State, t: Tid, i: nat, s': State) returns (more: seq<Action>)
    requires Run(c, acts) == Some(s) && t < |s.threads| && AdvanceThread(s, t, true, i) == Some(s')
    ensures Run(c, more) == Some(s')
  {
    more := Then(c, acts, s, Advance(t, true, i), s');
  }

  /** The wrapper of `key` that is cached and alive. */
  predicate Has(s: State, key: Key) {
    key in s.cache && Count(s.counts, s.cache[key]) > 0
  }

  /** The application has got a reference to `w` under the name `i`. */
  function Handed(s: State, i: nat, w: Wid): State {
    s.(refs := s.refs[App(i) := w], counts := s.counts[w := Count(s.counts, w) + 1])
  }

  /** A wrapper has been made for `key` and is the cached one. */
  function MadeFor(s: State, key: Key, life: nat): State {
    s.(wrappers := s.wrappers[s.next := Wrapper(key, life, false)], next := s.next + 1, cache := s.cache[key := s.next],
       published := s.published + {key.0})
  }

  /** A call alone, memory sufficing, comes back with the live wrapper that is cached, or
      with a new one that then is, and changes nothing else. */
  lemma {:induction false} CallAlone(c: Config, acts: seq<Action>, s: State, t: Tid, key: Key, i: nat) returns (more: seq<Action>, s': State)
    requires Reaches(c, acts, s) && s.lock.None? && t < |s.threads| && s.threads[t].Idle? && App(i) !in s.refs
    requires key.0 in s.lives && key.0 in s.published
    ensures Run(c, more) == Some(s')
    ensures s'.(makers := s.makers) ==
            if Has(s, key) then Handed(s, i, s.cache[key]) else Handed(MadeFor(s, key, s.lives[key.0]), i, s.next)
  {
    RunKeepsInv(c, acts);
    assert Local(t) !in s.refs && s.next !in s.counts;
    var life := s.lives[key.0];
    var s1 := At(s, t, Waiting(key, life));
    more := Then(c, acts, s, Call(t, key), s1);
    var s2 := At(s, t, Looking(key, life)).(lock := Some(t));
    Replaced(s.threads, t, Waiting(key, life), Looking(key, life));
    more := OwnStep(c, more, s1, t, i, s2);
    if Has(s, key) { more, s' := Finds(c, more, s, t, key, life, i); } else { more, s' := Makes(c, more, s, t, key, life, i); }
  }

  lemma Replaced(threads: seq<Pc>, t: Tid, pc: Pc, pc': Pc)
    requires t < |threads|
    ensures threads[t := pc][t := pc'] == threads[t := pc']
  {
  }

  lemma Finds(c: Config, acts: seq<Action>, s: State, t: Tid, key: Key, life: nat, i: nat) returns (more: seq<Action>, s': State)
    requires t < |s.threads| && s.threads[t].Idle? && s.lock.None? && Has(s, key) && Local(t) !in s.refs && App(i) !in s.refs
    requires s.cache[key] in s.wrappers && Run(c, acts) == Some(At(s, t, Looking(key, life)).(lock := Some(t)))
    ensures Run(c, more) == Some(s') && s' == Handed(s, i, s.cache[key])
  {
    var w, s2 := s.cache[key], At(s, t, Looking(key, life)).(lock := Some(t));
    var s3, s5 := At(s, t, Found(key, life, w)).(lock := Some(t)), Taken(s, t, w, Leaving(key, life, w));
    Replaced(s.threads, t, Looking(key, life), Found(key, life, w));
    more := OwnStep(c, acts, s2, t, i, s3);
    more := LocksCached(c, more, s, t, key, life, i, w);
    s' := Handed(s, i, w);
    assert s'.refs - {App(i)} == s.refs;
    Leaves(s', t, i, s5);
    more := OwnStep(c, more, s5, t, i, s');
  }

  /** A thread at `pc`, under the mutex, with a new reference to `w` of its own. */
  function Taken(s: State, t: Tid, w: Wid, pc: Pc): State
    requires t < |s.threads|
  {
    At(s, t, pc).(lock := Some(t), refs := s.refs[Local(t) := w], counts := s.counts[w := Count(s.counts, w) + 1])
  }

  lemma LocksCached(c: Config, acts: seq<Action>, s: State, t: Tid, key: Key, life: nat, i: nat, w: Wid) returns (more: seq<Action>)
    requires t < |s.threads| && Local(t) !in s.refs && Count(s.counts, w) > 0 && w in s.wrappers
    requires Run(c, acts) == Some(At(s, t, Found(key, life, w)).(lock := Some(t)))
    ensures Run(c, more) == Some(Taken(s, t, w, Leaving(key, life, w)))
  {
    var s3, s4 := At(s, t, Found(key, life, w)).(lock := Some(t)), Taken(s, t, w, Locked(key, life, w));
    LockStep(s, t, key, life, i, w);
    more := OwnStep(c, acts, s3, t, i, s4);
    UseStep(s, t, key, life, i, w);
    more := OwnStep(c, more, s4, t, i, Taken(s, t, w, Leaving(key, life, w)));
  }

  lemma LockStep(s: State, t: Tid, key: Key, life: nat, i: nat, w: Wid)
    requires t < |s.threads| && Local(t) !in s.refs && Count(s.counts, w) > 0
    ensures AdvanceThread(At(s, t, Found(key, life, w)).(lock := Some(t)), t, true, i) == Some(Taken(s, t, w, Locked(key, life, w)))
  {
    Replaced(s.threads, t, Found(key, life, w), Locked(key, life, w));
  }

  lemma UseStep(s: State, t: Tid, key: Key, life: nat, i: nat, w: Wid)
    requires t < |s.threads| && w in s.wrappers
    ensures AdvanceThread(Taken(s, t, w, Locked(key, life, w)), t, true, i) == Some(Taken(s, t, w, Leaving(key, life, w)))
  {
    Replaced(s.threads, t, Locked(key, life, w), Leaving(key, life, w));
  }

  /** The reference passes from the call to the application. */
  lemma Leaves(s: State, t: Tid, i: nat, s0: State)
    requires t < |s.threads| && s.threads[t].Idle? && s.lock.None? && App(i) in s.refs && Local(t) !in s.refs
    requires s0 == s.(threads := s0.threads, lock := Some(t), refs := (s.refs - {App(i)})[Local(t) := s.refs[App(i)]])
    requires |s0.threads| == |s.threads| && s0.threads[t].Leaving? && s0.threads == s.threads[t := s0.threads[t]]
    ensures AdvanceThread(s0, t, true, i) == Some(s)
  {
    assert s0.threads[t := Idle] == s.threads;
    assert (s0.refs - {Local(t)})[App(i) := s.refs[App(i)]] == s.refs;
  }

  lemma Makes(c: Config, acts: seq<Action>, s: State, t: Tid, key: Key, life: nat, i: nat) returns (more: seq<Action>, s': State)
    requires t < |s.threads| && s.threads[t].Idle? && s.lock.None? && !Has(s, key) && Local(t) !in s.refs && App(i) !in s.refs
    requires s.next !in s.counts && Run(c, acts) == Some(At(s, t, Looking(key, life)).(lock := Some(t)))
    ensures Run(c, more) == Some(s') && s'.(makers := s.makers) == Handed(MadeFor(s, key, life), i, s.next)
  {
    var s2, s3 := At(s, t, Looking(key, life)).(lock := Some(t)), At(s, t, Missing(key, life)).(lock := Some(t));
    more := Misses(c, acts, s, t, key, life, i, s2, s3);
    var s4 := At(Construct(s3, t, key, life), t, Made(key, life, s.next));
    more := OwnStep(c, more, s3, t, i, s4);
    var s5 := DoInsert(s4, t, Made(key, life, s.next));
    InsertStep(s4, t, i);
    more := OwnStep(c, more, s4, t, i, s5);
    s' := Handed(MadeFor(s, key, life), i, s.next).(makers := s5.makers);
    InsertedIs(s, t, key, life, i, s5);
    Leaves(s', t, i, s5);
    more := OwnStep(c, more, s5, t, i, s');
  }

  lemma InsertStep(s: State, t: Tid, i: nat)
    requires t < |s.threads| && s.threads[t].Made?
    ensures AdvanceThread(s, t, true, i) == Some(DoInsert(s, t, s.threads[t]))
  {
  }

  lemma InsertedIs(s: State, t: Tid, key: Key, life: nat, i: nat, s5: State)
    requires t < |s.threads| && s.threads[t].Idle? && s.lock.None? && Local(t) !in s.refs && App(i) !in s.refs && s.next !in s.counts
    requires var s3, made := At(s, t, Missing(key, life)).(lock := Some(t)), Made(key, life, s.next);
             s5 == DoInsert(At(Construct(s3, t, key, life), t, made), t, made)
    ensures var s' := Handed(MadeFor(s, key, life), i, s.next).(makers := s5.makers);
            && s5.threads == s.threads[t := Leaving(key, life, s.next)]
            && s5 == s'.(threads := s5.threads, lock := Some(t), refs := (s'.refs - {App(i)})[Local(t) := s'.refs[App(i)]])
  {
    assert s5.threads == s.threads[t := Leaving(key, life, s.next)];
    assert s.refs[App(i) := s.next] - {App(i)} == s.refs;
  }

  lemma Misses(c: Config, acts: seq<Action>, s: State, t: Tid, key: Key, life: nat, i: nat, s2: State, s3: State)
      returns (more: seq<Action>)
    requires t < |s.threads| && !Has(s, key) && Run(c, acts) == Some(s2)
    requires s2 == At(s, t, Looking(key, life)).(lock := Some(t)) && s3 == At(s, t, Missing(key, life)).(lock := Some(t))
    ensures Run(c, more) == Some(s3)
  {
    Replaced(s.threads, t, Looking(key, life), Missing(key, life));
    if key in s.cache {
      var w := s.cache[key];
      var s' := At(s, t, Found(key, life, w)).(lock := Some(t));
      Replaced(s.threads, t, Looking(key, life), Found(key, life, w));
      more := OwnStep(c, acts, s2, t, i, s');
      Replaced(s.threads, t, Found(key, life, w), Missing(key, life));
      more := OwnStep(c, more, s', t, i, s3);
    } else {
      more := OwnStep(c, acts, s2, t, i, s3);
    }
  }

  lemma RetiredInACall(c: Config) returns (acts: seq<Action>, s: State)
    requires !c.pinned && c.threads > 0
    ensures Run(c, acts) == Some(s) && |s.threads| > 0 && s.threads[0] == Waiting((0, 0), 0)
    ensures s == Init(c).(threads := s.threads, births := 1)
  {
    var s0 := Init(c);
    var s1 := DoMint(s0, 0, s0.published + {0});
    acts := Then(c, [], s0, Mint(0), s1);
    var s2 := At(s1, 0, Waiting((0, 0), 0));
    acts := Then(c, acts, s1, Call(0, (0, 0)), s2);
    s := DoRetire(s2, 0);
    acts := Then(c, acts, s2, Retire(0), s);
  }

  /** Retired in the middle of a call, a handle leaves behind an entry that a later
      handle of the same value would be answered from. */
  lemma UnpinnedGoesStale(c: Config)
    requires !c.pinned && c.threads > 0
    ensures exists acts :: Run(c, acts).Some? && Stale(Run(c, acts).value)
  {
    var acts, s := RetiredInACall(c);
    acts, s := LookAndMiss(c, acts, s);
    acts, s := MakesAndLeaves(c, acts, s);
    var s' := DoMint(s, 0, s.published + {0});
    acts := Then(c, acts, s, Mint(0), s');
    UnpinnedFindsOld(c, acts, s');
  }

  /** The call goes on to make a wrapper, for a handle that is gone. */
  lemma MakesAndLeaves(c: Config, acts: seq<Action>, s: State) returns (more: seq<Action>, s': State)
    requires Run(c, acts) == Some(s) && s.refs == map[] && s.wrappers == map[] && s.next == 0 && s.lives == map[]
    requires |s.threads| > 0 && s.threads[0] == Missing((0, 0), 0) && s.lock == Some(0) && s.births == 1
    ensures Run(c, more) == Some(s')
    ensures |s'.threads| > 0 && s'.threads[0].Idle? && s'.lock.None? && s'.lives == map[] && s'.births == 1
    ensures (0, 0) in s'.cache && s'.cache[(0, 0)] == 0 && Count(s'.counts, 0) > 0 && Local(0) !in s'.refs
    ensures 0 in s'.wrappers && s'.wrappers[0].life == 0
  {
    var key := (0, 0);
    var s1 := At(Construct(s, 0, key, 0), 0, Made(key, 0, 0));
    more := Then(c, acts, s, Advance(0, true, 0), s1);
    more, s' := InsertsAndLeaves(c, more, s1);
  }

  lemma InsertsAndLeaves(c: Config, acts: seq<Action>, s: State) returns (more: seq<Action>, s': State)
    requires Run(c, acts) == Some(s) && |s.threads| > 0 && s.threads[0] == Made((0, 0), 0, 0)
    requires s.refs == map[Local(0) := 0] && Count(s.counts, 0) > 0 && 0 in s.wrappers && s.wrappers[0].life == 0
    ensures Run(c, more) == Some(s')
    ensures |s'.threads| > 0 && s'.threads[0].Idle? && s'.lock.None? && s'.lives == s.lives && s'.births == s.births
    ensures (0, 0) in s'.cache && s'.cache[(0, 0)] == 0 && s'.counts == s.counts && Local(0) !in s'.refs
    ensures s'.wrappers == s.wrappers
  {
    var s1 := DoInsert(s, 0, s.threads[0]);
    more := Then(c, acts, s, Advance(0, true, 0), s1);
    s' := DoLeave(s1, 0, 0);
    more := Then(c, more, s1, Advance(0, true, 0), s');
  }

  lemma LookAndMiss(c: Config, acts: seq<Action>, s: State) returns (more: seq<Action>, s': State)
    requires Run(c, acts) == Some(s) && 0 < |s.threads| && s.threads[0] == Waiting((0, 0), 0)
    requires s.lock.None? && (0, 0) !in s.cache
    ensures Run(c, more) == Some(s')
    ensures s' == s.(threads := s.threads[0 := Missing((0, 0), 0)], lock := Some(0))
  {
    var s1 := At(s, 0, Looking((0, 0), 0)).(lock := Some(0));
    more := Then(c, acts, s, Advance(0, true, 0), s1);
    s' := At(s1, 0, Missing((0, 0), 0));
    more := Then(c, more, s1, Advance(0, true, 0), s');
    assert s'.threads == s.threads[0 := Missing((0, 0), 0)];
  }

  lemma UnpinnedFindsOld(c: Config, acts: seq<Action>, s: State)
    requires Run(c, acts) == Some(s) && 0 < |s.threads| && s.threads[0].Idle? && s.lock.None?
    requires 0 in s.lives && s.lives[0] == 1 && 0 in s.published && (0, 0) in s.cache && s.cache[(0, 0)] == 0
    requires Count(s.counts, 0) > 0 && Local(0) !in s.refs && 0 in s.wrappers && s.wrappers[0].life == 0
    ensures exists more :: Run(c, more).Some? && Stale(Run(c, more).value)
  {
    var key := (0, 0);
    var s1 := At(s, 0, Waiting(key, 1));
    var more := Then(c, acts, s, Call(0, key), s1);
    var s2 := At(s1, 0, Looking(key, 1)).(lock := Some(0));
    more := Then(c, more, s1, Advance(0, true, 0), s2);
    var s3 := At(s2, 0, Found(key, 1, 0));
    more := Then(c, more, s2, Advance(0, true, 0), s3);
    var s4 := At(s3, 0, Locked(key, 1, 0)).(refs := s3.refs[Local(0) := 0], counts := s3.counts[0 := Count(s3.counts, 0) + 1]);
    more := Then(c, more, s3, Advance(0, true, 0), s4);
    var s5 := At(s4, 0, Leaving(key, 1, 0)).(fault := s4.fault || !Live(s4, 0));
    more := Then(c, more, s4, Advance(0, true, 0), s5);
    assert s5.threads[0].Leaving?;
    assert Stale(s5);
  }

  /** A handle value minted again never yields an old wrapper exactly when no handle
      is retired under a call that is using it. */
  lemma FreshIffPinned(c: Config)
    requires c.threads > 0
    ensures c.pinned <==> forall acts :: Run(c, acts).Some? ==> !Stale(Run(c, acts).value)
  {
    if c.pinned {
      forall acts | Run(c, acts).Some? ensures !Stale(Run(c, acts).value) {
        var s := Run(c, acts).value;
        forall t | 0 <= t < |s.threads| && s.threads[t].Leaving? && s.threads[t].w in s.wrappers
          ensures s.wrappers[s.threads[t].w].life == s.threads[t].life
        {
          CallerGetsIt(c, acts, Run(c, acts).value, t);
        }
      }
    } else {
      UnpinnedGoesStale(c);
    }
  }
}