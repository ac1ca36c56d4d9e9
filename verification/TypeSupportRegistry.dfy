/** TypeSupport contexts of the Java binding: allocated by registerTypeSupport, handed
    to the core, and released by replacement, participant destruction or failure. */
module TypeSupportRegistry {
  type CtxId = nat
  type Key = (nat, string)

  /** What a participant's registry holds for a type name: a context of ours, or a
      pinned provider, which a registration like ours must not replace. */
  datatype Entry = Ours(x: CtxId) | Pinned

  /** A reader keeps the context it found for its type, if it found one. */
  datatype Reader = Reader(key: Key, x: Ref)
  datatype Ref = Nothing | Cached(x: CtxId)

  /** Where a registration fails, in program order. The last two are inside the core,
      after it has taken the context over. */
  datatype Failure = Never | BadArgument | NoContext | NoGlobalRef | NoMethod | NoAdapter | NoName | NoSlot

  /** `heap` maps each live context to what it was registered for; `classes` are the
      contexts whose class reference is live, `obtained` those that ever had one. */
  datatype State = State(
    heap: map<CtxId, Key>,
    classes: set<CtxId>,
    obtained: set<CtxId>,
    next: CtxId,
    freed: multiset<CtxId>,
    deleted: multiset<CtxId>,
    registry: map<Key, Entry>,
    readers: map<nat, Reader>)

  datatype Action =
    | Register(key: Key, failure: Failure)
    | InstallPinned(key: Key)
    | CreateReader(r: nat, key: Key)
    | DeleteReader(r: nat)
    | Destroy(p: nat, env: bool)

  function Init(): State {
    State(map[], {}, {}, 0, multiset{}, multiset{}, map[], map[])
  }

  // ---- What each operation does -------------------------------------------------

  function Alloc(s: State, key: Key): State {
    s.(heap := s.heap[s.next := key], next := s.next + 1)
  }

  function PinClass(s: State, x: CtxId): State {
    s.(classes := s.classes + {x}, obtained := s.obtained + {x})
  }

  function Free(s: State, x: CtxId): State {
    s.(heap := s.heap - {x}, freed := s.freed + multiset{x})
  }

  /** DeleteGlobalRef, possible only with a JNIEnv, and free. */
  function Deinit(s: State, x: CtxId, env: bool): State {
    if env then Free(s.(classes := s.classes - {x}, deleted := s.deleted + multiset{x}), x) else Free(s, x)
  }

  /** Readers of a type are moved to its new context before the old one goes. */
  function Refresh(readers: map<nat, Reader>, key: Key, x: CtxId): map<nat, Reader> {
    map r | r in readers :: if readers[r].key == key then Reader(key, Cached(x)) else readers[r]
  }

  /** The core's part: it keeps the context, or runs its cleanup and reports failure. */
  function Install(s: State, x: CtxId, key: Key): State {
    if key !in s.registry then s.(registry := s.registry[key := Ours(x)])
    else if s.registry[key].Pinned? then Deinit(s, x, true)
    else Deinit(s.(registry := s.registry[key := Ours(x)], readers := Refresh(s.readers, key, x)), s.registry[key].x, true)
  }

  function DoRegister(s: State, key: Key, failure: Failure): State {
    var x := s.next;
    var ready := PinClass(Alloc(s, key), x);
    match failure
    case BadArgument => s
    case NoContext => s
    case NoGlobalRef => Free(Alloc(s, key), x)
    case NoMethod => Deinit(ready, x, true)
    case _ => Attempt(ready, x, key, failure)
  }

  /** The core's answer; on a failure registerTypeSupport releases the context itself. */
  function Attempt(s: State, x: CtxId, key: Key, failure: Failure): State {
    var s' := Offer(s, x, key, failure);
    if failure.Never? && !Holds(s, key) then s' else Deinit(s', x, true)
  }

  function Offer(s: State, x: CtxId, key: Key, failure: Failure): State {
    match failure
    case NoName => Deinit(s, x, true)
    case NoSlot => Deinit(s, x, true)
    case Never => Install(s, x, key)
    case _ => s
  }

  /** A pinned provider is registered for the type. */
  predicate Holds(s: State, key: Key) {
    key in s.registry && s.registry[key].Pinned?
  }

  /** The participant's own contexts. */
  function Owned(s: State, p: nat): set<CtxId> {
    set x | x in s.heap && s.heap[x].0 == p
  }

  function DeinitAll(s: State, xs: set<CtxId>, env: bool): State {
    s.(heap := s.heap - xs,
       classes := if env then s.classes - xs else s.classes,
       freed := s.freed + multiset(xs),
       deleted := if env then s.deleted + multiset(xs) else s.deleted)
  }

  function DoDestroy(s: State, p: nat, env: bool): State {
    DeinitAll(s, Owned(s, p), env).(
       registry := EntriesWithout(s.registry, p), readers := ReadersWithout(s.readers, p))
  }

  function EntriesWithout(registry: map<Key, Entry>, p: nat): map<Key, Entry> {
    map k | k in registry && k.0 != p :: registry[k]
  }

  function ReadersWithout(readers: map<nat, Reader>, p: nat): map<nat, Reader> {
    map r | r in readers && readers[r].key.0 != p :: readers[r]
  }

  function DoCreateReader(s: State, r: nat, key: Key): State {
    var x := if key in s.registry && s.registry[key].Ours? then Cached(s.registry[key].x) else Nothing;
    s.(readers := s.readers[r := Reader(key, x)])
  }

  function Step(s: State, a: Action): State {
    match a
    case Register(key, failure) => DoRegister(s, key, failure)
    case InstallPinned(key) => if key in s.registry then s else s.(registry := s.registry[key := Pinned])
    case CreateReader(r, key) => if r in s.readers then s else DoCreateReader(s, r, key)
    case DeleteReader(r) => s.(readers := s.readers - {r})
    case Destroy(p, env) => DoDestroy(s, p, env)
  }

  function Run(acts: seq<Action>): State {
    if acts == [] then Init() else Step(Run(acts[..|acts| - 1]), acts[|acts| - 1])
  }

  /** A registration the core refuses after taking the context over: out of memory for
      the name or the table, or the name belongs to a pinned provider. */
  predicate Refused(s: State, a: Action) {
    a.Register? && (a.failure.NoName? || a.failure.NoSlot? || (a.failure.Never? && Holds(s, a.key)))
  }

  predicate AnyRefused(acts: seq<Action>) {
    acts != [] && (AnyRefused(acts[..|acts| - 1]) || Refused(Run(acts[..|acts| - 1]), acts[|acts| - 1]))
  }

  // ---- The invariant --------------------------------------------------------------

  ghost predicate Inv(s: State) {
    Linked(s.heap, s.registry, s.readers) && Accounts(s)
  }

  /** Live contexts and registry entries correspond one to one, and readers follow. */
  ghost predicate Linked(heap: map<CtxId, Key>, registry: map<Key, Entry>, readers: map<nat, Reader>) {
    && (forall k :: k in registry && registry[k].Ours? ==> registry[k].x in heap && heap[registry[k].x] == k)
    && (forall x :: x in heap ==> heap[x] in registry && registry[heap[x]] == Ours(x))
    && (forall r :: r in readers && readers[r].x.Cached? ==>
          readers[r].key in registry && registry[readers[r].key] == Ours(readers[r].x.x))
  }

  /** Every context was freed once or is live, and likewise its class reference. */
  ghost predicate Accounts(s: State) {
    && (forall x :: x in s.heap ==> x < s.next && x in s.classes)
    && (forall x :: x in s.obtained ==> x < s.next) && s.classes <= s.obtained
    && (forall x: nat :: s.freed[x] == if x < s.next && x !in s.heap then 1 else 0)
    && (forall x: nat :: s.deleted[x] == if x in s.obtained && x !in s.classes then 1 else 0)
  }

  lemma NewAccounts(s: State, key: Key)
    requires Accounts(s)
    ensures Accounts(PinClass(Alloc(s, key), s.next))
  {
  }

  lemma DeinitAccounts(s: State, x: CtxId, env: bool)
    requires Accounts(s) && x in s.heap
    ensures Accounts(Deinit(s, x, env))
  {
  }

  /** A registration that fails before the core has the context. */
  lemma FailKeeps(s: State, key: Key)
    requires Inv(s)
    ensures Inv(Free(Alloc(s, key), s.next))
    ensures Inv(Deinit(PinClass(Alloc(s, key), s.next), s.next, true))
  {
    NewAccounts(s, key);
    var ready := PinClass(Alloc(s, key), s.next);
    DeinitAccounts(ready, s.next, true);
    assert ready.heap - {s.next} == s.heap;
  }

  lemma InstallKeeps(s: State, key: Key)
    requires Inv(s) && !Holds(s, key)
    ensures Inv(Install(PinClass(Alloc(s, key), s.next), s.next, key))
  {
    var x, ready := s.next, PinClass(Alloc(s, key), s.next);
    NewAccounts(s, key);
    if key in s.registry {
      DeinitAccounts(ready.(registry := s.registry[key := Ours(x)], readers := Refresh(s.readers, key, x)), s.registry[key].x, true);
      ReplaceLinks(s, key, x);
    }
  }

  lemma ReplaceLinks(s: State, key: Key, x: CtxId)
    requires Linked(s.heap, s.registry, s.readers) && x !in s.heap && key in s.registry && s.registry[key].Ours?
    ensures Linked(s.heap[x := key] - {s.registry[key].x}, s.registry[key := Ours(x)], Refresh(s.readers, key, x))
  {
  }

  lemma RegisterKeeps(s: State, key: Key, failure: Failure)
    requires Inv(s) && !Refused(s, Register(key, failure))
    ensures Inv(DoRegister(s, key, failure))
  {
    FailKeeps(s, key);
    if failure.Never? {
      InstallKeeps(s, key);
    }
  }

  lemma DestroyKeeps(s: State, p: nat, env: bool)
    requires Inv(s)
    ensures Inv(DoDestroy(s, p, env))
  {
    var s' := DoDestroy(s, p, env);
    assert forall x :: x in s'.heap <==> x in s.heap && s.heap[x].0 != p;
  }

  lemma StepKeepsInv(s: State, a: Action)
    requires Inv(s) && !Refused(s, a)
    ensures Inv(Step(s, a))
  {
    match a
    case Register(key, failure) => RegisterKeeps(s, key, failure);
    case Destroy(p, env) => DestroyKeeps(s, p, env);
    case _ =>
  }

  lemma {:induction false} RunKeepsInv(acts: seq<Action>)
    requires !AnyRefused(acts)
    ensures Inv(Run(acts))
  {
    if acts != [] {
      RunKeepsInv(acts[..|acts| - 1]);
      StepKeepsInv(Run(acts[..|acts| - 1]), acts[|acts| - 1]);
    }
  }

  // ---- Main results -------------------------------------------------------------------

  /** The operations `acts`, none of them refused late, lead to `s`. */
  ghost predicate Reaches(acts: seq<Action>, s: State) {
    !AnyRefused(acts) && s == Run(acts)
  }

  predicate FreedTwice(s: State) {
    exists x :: x in s.freed && s.freed[x] > 1
  }

  lemma StepFreesMore(s: State, a: Action, x: CtxId)
    ensures Step(s, a).freed[x] >= s.freed[x]
  {
  }

  lemma RefusedFreesTwice(s: State, a: Action)
    requires Refused(s, a)
    ensures FreedTwice(Step(s, a))
  {
    assert Step(s, a).freed[s.next] > 1;
  }

  lemma {:induction false} EverRefused(acts: seq<Action>)
    requires AnyRefused(acts)
    ensures FreedTwice(Run(acts))
  {
    var before := acts[..|acts| - 1];
    if AnyRefused(before) {
      EverRefused(before);
      var x :| x in Run(before).freed && Run(before).freed[x] > 1;
      StepFreesMore(Run(before), acts[|acts| - 1], x);
      assert Run(acts).freed[x] > 1;
    } else {
      RefusedFreesTwice(Run(before), acts[|acts| - 1]);
    }
  }

  /** Over any sequence of registrations with any step failing, replacements, readers
      and participant destructions, no context is freed twice exactly when the core
      never refuses a registration it had already taken the context of: it cleans up
      then, and so does registerTypeSupport when it sees the failure. */
  lemma {:induction false} FreedOnceIffNeverRefused(acts: seq<Action>)
    ensures FreedTwice(Run(acts)) <==> AnyRefused(acts)
  {
    if AnyRefused(acts) {
      EverRefused(acts);
    } else {
      RunKeepsInv(acts);
    }
  }

  /** The binding can receive such a call: the first registration of a type name that a
      pinned provider holds, with nothing else failing, frees its context twice. */
  lemma PinnedNameFreesTwice(key: Key)
    ensures var acts := [InstallPinned(key), Register(key, Never)];
            AnyRefused(acts) && Run(acts).freed == multiset{0, 0}
  {
    var acts := [InstallPinned(key), Register(key, Never)];
    assert acts[..1] == [InstallPinned(key)] && acts[..1][..0] == [];
    assert Run([InstallPinned(key)]) == Init().(registry := map[key := Pinned]);
  }

  /** Otherwise live contexts are in bijection with registry entries, each one that is
      not live was freed exactly once, its class reference was deleted exactly once
      unless it is still held, and no reader is left with a context that is gone. */
  lemma {:induction false} OneOwnerForLife(acts: seq<Action>, s: State)
    requires Reaches(acts, s)
    ensures forall x, k :: x in s.heap && s.heap[x] == k <==> k in s.registry && s.registry[k] == Ours(x)
    ensures forall x: nat :: x < s.next ==> s.freed[x] == if x in s.heap then 0 else 1
    ensures forall x :: x in s.heap ==> x in s.classes
    ensures forall x :: x in s.obtained ==> s.deleted[x] == if x in s.classes then 0 else 1
    ensures forall r :: r in s.readers && s.readers[r].x.Cached? ==> s.readers[r].x.x in s.heap
    ensures forall r :: r in s.readers && s.readers[r].x.Cached? ==>
              s.readers[r].key in s.registry && s.registry[s.readers[r].key] == Ours(s.readers[r].x.x)
  {
    RunKeepsInv(acts);
  }

  /** The readers of `key` that are there, moved to context `x`, and all others. */
  ghost predicate Moved(readers: map<nat, Reader>, readers': map<nat, Reader>, key: Key, x: CtxId) {
    && readers'.Keys == readers.Keys
    && forall r :: r in readers ==>
         && readers'[r].key == readers[r].key
         && readers'[r].x == if readers[r].key == key then Cached(x) else readers[r].x
  }

  /** An accepted registration makes its context the one of `key`. One that replaces
      another moves every reader of `key` to it and frees the old context alone; the
      first one moves no reader. All else is as it was. */
  lemma {:induction false} RegistrationReplaces(acts: seq<Action>, s: State, key: Key)
    requires Reaches(acts, s) && (key in s.registry ==> s.registry[key].Ours?)
    ensures var s', x := Step(s, Register(key, Never)), s.next;
            && x !in s.heap && s'.registry == s.registry[key := Ours(x)]
            && (key in s.registry ==>
                  && Moved(s.readers, s'.readers, key, x)
                  && s'.heap == (s.heap - {s.registry[key].x})[x := key]
                  && s'.freed == s.freed + multiset{s.registry[key].x} && s'.deleted == s.deleted + multiset{s.registry[key].x})
            && (key !in s.registry ==>
                  s'.readers == s.readers && s'.heap == s.heap[x := key] && s'.freed == s.freed && s'.deleted == s.deleted)
  {
    RunKeepsInv(acts);
    if key in s.registry {
      assert s.registry[key].x in s.heap && s.registry[key].x != s.next;
      assert s.heap[s.next := key] - {s.registry[key].x} == (s.heap - {s.registry[key].x})[s.next := key];
    }
  }

  /** A registration that fails before the core has its context leaves all as it was, but
      for a context that came and went. */
  lemma {:induction false} FailureLeavesAll(acts: seq<Action>, s: State, key: Key, failure: Failure)
    requires Reaches(acts, s) && !failure.Never? && !failure.NoName? && !failure.NoSlot?
    ensures var s' := Step(s, Register(key, failure));
            && s'.registry == s.registry && s'.readers == s.readers && s'.heap == s.heap && s'.classes == s.classes
            && s'.freed == s.freed + (if s'.next > s.next then multiset{s.next} else multiset{})
            && s'.deleted == s.deleted + (if s.next in s'.obtained then multiset{s.next} else multiset{})
  {
    RunKeepsInv(acts);
    assert s.heap[s.next := key] - {s.next} == s.heap;
    assert s.classes + {s.next} - {s.next} == s.classes;
  }

  /** A new reader gets the context registered for its type at that moment, if any. */
  lemma {:induction false} ReaderFinds(acts: seq<Action>, s: State, r: nat, key: Key)
    requires Reaches(acts, s) && r !in s.readers
    ensures var s' := Step(s, CreateReader(r, key));
            && r in s'.readers && s'.readers[r].key == key && s'.readers - {r} == s.readers
            && s' == s.(readers := s'.readers)
            && (s'.readers[r].x.Cached? <==> exists x :: x in s.heap && s.heap[x] == key)
            && (s'.readers[r].x.Cached? ==> s'.readers[r].x.x in s.heap && s.heap[s'.readers[r].x.x] == key)
  {
    RunKeepsInv(acts);
  }

  /** The references that outlived their contexts. */
  function Leaked(s: State): set<CtxId> {
    s.classes - s.heap.Keys
  }

  /** A class reference is lost exactly by a destruction that finds no JNIEnv, and then
      for every context of that participant. */
  lemma {:induction false} LeaksOnlyWithoutEnv(acts: seq<Action>, a: Action)
    requires !AnyRefused(acts + [a])
    ensures Run(acts + [a]) == Step(Run(acts), a)
    ensures Leaked(Run(acts + [a])) ==
            Leaked(Run(acts)) + if a.Destroy? && !a.env then Owned(Run(acts), a.p) else {}
  {
    assert (acts + [a])[..|acts|] == acts;
    RunKeepsInv(acts);
    StepLeaks(Run(acts), a);
  }

  lemma StepLeaks(s: State, a: Action)
    requires Inv(s) && !Refused(s, a)
    ensures Leaked(Step(s, a)) == Leaked(s) + if a.Destroy? && !a.env then Owned(s, a.p) else {}
  {
    match a
    case Register(key, failure) => RegisterLeaks(s, key, failure);
    case Destroy(p, env) => DestroyLeaks(s, p, env);
    case _ =>
  }

  lemma DestroyLeaks(s: State, p: nat, env: bool)
    requires Accounts(s)
    ensures Leaked(DoDestroy(s, p, env)) == Leaked(s) + if !env then Owned(s, p) else {}
  {
    assert forall x :: x in Owned(s, p) ==> x in s.classes;
  }

  lemma RegisterLeaks(s: State, key: Key, failure: Failure)
    requires Inv(s) && !Refused(s, Register(key, failure))
    ensures Leaked(DoRegister(s, key, failure)) == Leaked(s)
  {
    if failure.Never? && key in s.registry {
      assert s.registry[key].x in s.heap;
    }
  }

  /** After a participant is gone nothing of it is left, and what belongs to the others
      is untouched. */
  lemma {:induction false} DestroyTakesItsOwn(acts: seq<Action>, s: State, p: nat, env: bool)
    requires Reaches(acts, s)
    ensures var s' := DoDestroy(s, p, env);
            && Inv(s')
            && (forall x :: x in s'.heap <==> x in s.heap && s.heap[x].0 != p)
            && (forall k :: k in s'.registry <==> k in s.registry && k.0 != p)
            && (forall k :: k in s'.registry ==> s'.registry[k] == s.registry[k])
            && (forall r :: r in s'.readers <==> r in s.readers && s.readers[r].key.0 != p)
            && (forall r :: r in s'.readers ==> s'.readers[r] == s.readers[r])
  {
    RunKeepsInv(acts);
    DestroyKeeps(s, p, env);
  }

  // ---- The operations on the runtime's own state -----------------------------------------

  class Runtime {
    var heap: map<CtxId, Key>
    var classes: set<CtxId>
    var next: CtxId
    var registry: map<Key, Entry>
    var readers: map<nat, Reader>
    ghost var obtained: set<CtxId>
    ghost var freed: multiset<CtxId>
    ghost var deleted: multiset<CtxId>

    ghost function Now(): State
      reads this
    {
      State(heap, classes, obtained, next, freed, deleted, registry, readers)
    }

    constructor ()
      ensures Now() == Init()
    {
      heap, classes, next, registry, readers := map[], {}, 0, map[], map[];
      obtained, freed, deleted := {}, multiset{}, multiset{};
    }

    /** zzdds_java_ts_ctx_deinit. */
    method ContextDeinit(x: CtxId, env: bool)
      modifies this
      ensures Now() == Deinit(old(Now()), x, env)
    {
      if env {
        classes := classes - {x};
        deleted := deleted + multiset{x};
      }
      heap := heap - {x};
      freed := freed + multiset{x};
    }

    /** The core's registerTypeSupport behind zzdds_register_type_support_ctx. */
    method CoreRegister(x: CtxId, key: Key, failure: Failure) returns (rc: int)
      modifies this
      ensures Now() == Offer(old(Now()), x, key, failure)
      ensures rc == if failure.Never? && !Holds(old(Now()), key) then 0 else -1
    {
      rc := -1;
      match failure
      case NoName => ContextDeinit(x, true);
      case NoSlot => ContextDeinit(x, true);
      case Never =>
        if key !in registry {
          registry := registry[key := Ours(x)];
          rc := 0;
        } else if registry[key].Pinned? {
          ContextDeinit(x, true);
        } else {
          var before := registry[key].x;
          readers := Refresh(readers, key, x);
          registry := registry[key := Ours(x)];
          ContextDeinit(before, true);
          rc := 0;
        }
      case _ =>
    }

    method RegisterTypeSupport(key: Key, failure: Failure) returns (rc: int)
      modifies this
      ensures Now() == DoRegister(old(Now()), key, failure)
      ensures rc == 0 <==> failure.Never? && !Holds(old(Now()), key)
      ensures rc == 0 ==> key in registry && registry[key] == Ours(old(next))
    {
      if failure.BadArgument? || failure.NoContext? {
        return -1;
      }
      var x := next;
      heap, next := heap[x := key], next + 1;
      if failure.NoGlobalRef? {
        heap := heap - {x};
        freed := freed + multiset{x};
        return -1;
      }
      rc := WithClass(x, key, failure);
    }

    /** The rest of a registration, once the class reference is there. */
    method WithClass(x: CtxId, key: Key, failure: Failure) returns (rc: int)
      modifies this
      ensures var ready := PinClass(old(Now()), x);
              Now() == if failure.NoMethod? then Deinit(ready, x, true) else Attempt(ready, x, key, failure)
      ensures rc == if failure.Never? && !Holds(old(Now()), key) then 0 else -1
    {
      classes, obtained := classes + {x}, obtained + {x};
      if failure.NoMethod? {
        ContextDeinit(x, true);
        return -1;
      }
      rc := CoreRegister(x, key, failure);
      if rc != 0 {
        ContextDeinit(x, true);
      }
    }

    /** The participant's deinit: every entry's cleanup, then the table. */
    method DestroyParticipant(p: nat, env: bool)
      requires Linked(heap, registry, readers)
      modifies this
      ensures Now() == DoDestroy(old(Now()), p, env)
    {
      ghost var s := Now();
      var left := registry.Keys;
      ghost var done: set<CtxId> := {};
      NoneYet(s, p, env);
      while left != {}
        invariant left <= s.registry.Keys && Now() == DeinitAll(s, done, env)
        invariant done == OwnedExcept(s, p, left)
        decreases left
      {
        var k :| k in left;
        OneMore(s, p, left, k, env);
        done := OwnedExcept(s, p, left - {k});
        if k.0 == p && registry[k].Ours? {
          ContextDeinit(registry[k].x, env);
        }
        left := left - {k};
      }
      AllOwned(s, p);
      registry, readers := EntriesWithout(registry, p), ReadersWithout(readers, p);
    }
  }

  function OwnedExcept(s: State, p: nat, left: set<Key>): set<CtxId> {
    set x | x in s.heap && s.heap[x].0 == p && s.heap[x] !in left
  }

  lemma OneMore(s: State, p: nat, left: set<Key>, k: Key, env: bool)
    requires Linked(s.heap, s.registry, s.readers) && k in left && k in s.registry
    ensures var done, more := OwnedExcept(s, p, left), OwnedExcept(s, p, left - {k});
            if k.0 == p && s.registry[k].Ours? then
              more == done + {s.registry[k].x} && DeinitAll(s, more, env) == Deinit(DeinitAll(s, done, env), s.registry[k].x, env)
            else more == done
  {
    var done, more := OwnedExcept(s, p, left), OwnedExcept(s, p, left - {k});
    if k.0 == p && s.registry[k].Ours? {
      var x := s.registry[k].x;
      assert x !in done && more == done + {x};
      assert s.heap - (done + {x}) == s.heap - done - {x};
      assert s.classes - (done + {x}) == s.classes - done - {x};
      assert multiset(done + {x}) == multiset(done) + multiset{x};
    } else {
      assert more == done;
    }
  }

  lemma NoneYet(s: State, p: nat, env: bool)
    requires Linked(s.heap, s.registry, s.readers)
    ensures DeinitAll(s, {}, env) == s && OwnedExcept(s, p, s.registry.Keys) == {}
  {
    assert s.heap - {} == s.heap && s.classes - {} == s.classes;
  }

  lemma AllOwned(s: State, p: nat)
    ensures OwnedExcept(s, p, {}) == Owned(s, p)
  {
  }
}
