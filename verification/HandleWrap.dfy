/** The wrap functions of the C++ binding: a C handle that has no owner yet becomes a
    wrapper's, and is destroyed exactly once whatever fails on the way. */
module HandleWrap {
  import opened Base

  type Handle = nat

  /** What can throw: allocating the wrapper, and for a guard condition also putting it
      into the family cache. */
  datatype Failure = Nothing | Allocation | Insertion

  /** When the scope guard is dismissed; `Unguarded` has none. */
  datatype Dismissal = Unguarded | OnConstruction | AtTheEnd

  /** The core's side: how often each handle was destroyed. */
  class Core {
    var destroyed: multiset<Handle>

    constructor ()
      ensures destroyed == multiset{}
    {
      destroyed := multiset{};
    }

    method Destroy(h: Handle)
      modifies this
      ensures destroyed == old(destroyed) + multiset{h}
    {
      destroyed := destroyed + multiset{h};
    }
  }

  class ScopeGuard {
    const core: Core
    const handle: Handle
    var active: bool

    constructor (core: Core, handle: Handle, active: bool)
      ensures this.core == core && this.handle == handle && this.active == active
    {
      this.core, this.handle, this.active := core, handle, active;
    }

    method Dismiss()
      modifies this
      ensures !active
    {
      active := false;
    }

    /** The destructor. */
    method Exit()
      modifies core
      ensures core.destroyed == old(core.destroyed) + if active then multiset{handle} else multiset{}
    {
      if active {
        core.Destroy(handle);
      }
    }
  }

  class Wrapper {
    const core: Core
    const handle: Handle

    constructor (core: Core, handle: Handle)
      ensures this.core == core && this.handle == handle
    {
      this.core, this.handle := core, handle;
    }

    /** The destructor, run with the last reference. */
    method Drop()
      modifies core
      ensures core.destroyed == old(core.destroyed) + multiset{handle}
    {
      core.Destroy(handle);
    }
  }

  /** How often the handle is destroyed before the function is left: by the wrapper that
      unwinding drops, and by the guard if it is still active. */
  function Destructions(d: Dismissal, cached: bool, f: Failure): nat {
    match f
    case Nothing => 0
    case Allocation => if d.Unguarded? then 0 else 1
    case Insertion => if !cached then 0 else if d.AtTheEnd? then 2 else 1
  }

  /** Whether a wrapper, which then owns the handle, is returned. */
  predicate Returned(cached: bool, f: Failure) {
    f.Nothing? || (f.Insertion? && !cached)
  }

  /** wrapGuardConditionHandle when `cached`; otherwise wrapWaitSetHandle and
      wrapFactoryHandle. Locals are destroyed in reverse order, wrapper before guard. */
  method Wrap(core: Core, h: Option<Handle>, d: Dismissal, cached: bool, f: Failure) returns (w: Option<Wrapper>)
    modifies core
    ensures h.None? ==> w.None? && core.destroyed == old(core.destroyed)
    ensures h.Some? ==> (w.Some? <==> Returned(cached, f))
    ensures w.Some? ==> h.Some? && w.value.handle == h.value && w.value.core == core
    ensures h.Some? ==> core.destroyed == old(core.destroyed)[h.value := old(core.destroyed)[h.value] + Destructions(d, cached, f)]
  {
    if h.None? {
      return None;
    }
    var guard := new ScopeGuard(core, h.value, !d.Unguarded?);
    if f.Allocation? {
      guard.Exit();
      return None;
    }
    var sp := new Wrapper(core, h.value);
    if d.OnConstruction? {
      guard.Dismiss();
    }
    if cached && f.Insertion? {
      sp.Drop();
      guard.Exit();
      return None;
    }
    if d.AtTheEnd? {
      guard.Dismiss();
    }
    guard.Exit();
    w := Some(sp);
  }

  /** Handed in once, the handle ends up with exactly one owner or destroyed exactly once. */
  predicate Owned(d: Dismissal, cached: bool, f: Failure) {
    Destructions(d, cached, f) + (if Returned(cached, f) then 1 else 0) == 1
  }

  /** Of the three ways to write the functions only dismissing the guard as soon as the
      wrapper exists is right for both kinds of handle and every failure. */
  lemma OneOwnerIffDismissedOnConstruction(d: Dismissal)
    ensures (forall cached, f :: Owned(d, cached, f)) <==> d.OnConstruction?
  {
    if d.Unguarded? {
      assert !Owned(d, false, Allocation);
    } else if d.AtTheEnd? {
      assert !Owned(d, true, Insertion);
    }
  }
}
