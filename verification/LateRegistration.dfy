/** When a guard condition's deinit ends its attachments: always, if callers let every
    attach naming the guard get into its list first, and otherwise not. */
module LateRegistration {
  import opened Base
  import opened References
  import opened WaitSetTeardown

  // ---- Where an entry can be reached from -----------------------------------------------

  /** An entry is in its guard's list, in the hands of the guard's teardown, or its
      WaitSet's deinit has begun; and no guard is listed that has torn itself down. */
  ghost predicate Traced(m: Memory) {
    && (forall k :: k in m.tb.conditions ==> k.0 in m.ws.counts)
    && (forall k :: k in m.tb.conditions && k !in m.tb.pending ==>
          k in m.tb.registered || Drained(k.0, k.1) in m.ws.refs || k.0 in m.ws.ender)
    && (forall w :: w in m.ws.closed ==> w in m.ws.ender)
    && (forall k :: k in m.tb.registered ==> k.1 !in m.gs.destroyer || OwnGuard(k.1) in m.gs.refs)
  }

  /** The guard in whose teardown a thread has emptied the list. */
  function Emptied(pc: Pc): Option<Guard> {
    if pc.DestroyClose? || pc.DestroyDrain? then None else DestroyingOf(pc)
  }

  predicate Invalidated(pc: Pc) {
    pc.DestroyUnlock? || pc.DestroyRelease? || pc.DestroyFire? || pc.DestroyDone?
  }

  /** What a thread's place says under the longer rule. */
  ghost predicate Tidy(pc: Pc, m: Memory) {
    && (pc.AttachRegister? ==> pc.g !in m.gs.destroyer)
    && (Emptied(pc).Some? ==> forall k :: k in m.tb.registered ==> k.1 != Emptied(pc).value)
    && (Invalidated(pc) ==> (pc.w, pc.g) !in m.tb.conditions)
  }

  /** Nothing is listed or attached for a guard whose deinit has begun. */
  ghost predicate Fewer(m: Memory, m': Memory) {
    && m'.gs.destroyer == m.gs.destroyer
    && (forall k :: k in m'.tb.registered ==> k in m.tb.registered || k.1 !in m.gs.destroyer)
    && (forall k :: k in m'.tb.conditions ==> k in m.tb.conditions || k.1 !in m.gs.destroyer)
  }

  lemma TidyKept(m: Memory, m': Memory, pc: Pc)
    requires Fewer(m, m') && Tidy(pc, m)
    requires Emptied(pc).Some? ==> Emptied(pc).value in m.gs.destroyer
    requires Invalidated(pc) ==> pc.g in m.gs.destroyer
    ensures Tidy(pc, m')
  {
  }

  lemma DestroyingBegun(m: Memory, u: Tid, pc: Pc)
    requires Mine(u, pc, m)
    ensures Emptied(pc).Some? ==> Emptied(pc).value in m.gs.destroyer
    ensures Invalidated(pc) ==> pc.g in m.gs.destroyer
  {
    assert Destroys(u, m.gs, DestroyingOf(pc));
  }

  /** What Traced speaks of is the same. */
  ghost predicate Alike(m: Memory, m': Memory) {
    && m'.tb.conditions == m.tb.conditions && m'.tb.pending == m.tb.pending && m'.tb.registered == m.tb.registered
    && m.ws.counts.Keys <= m'.ws.counts.Keys && m'.ws.refs == m.ws.refs && m'.ws.ender == m.ws.ender && m'.ws.closed == m.ws.closed
    && m'.gs.destroyer == m.gs.destroyer && forall g :: OwnGuard(g) in m'.gs.refs <==> OwnGuard(g) in m.gs.refs
  }

  lemma AlikeTraced(m: Memory, m': Memory)
    requires Traced(m) && Alike(m, m')
    ensures Traced(m') && Fewer(m, m')
  {
  }

  lemma AppendTraced(m: Memory, k: Key, x: Hook, t: Tid)
    requires Traced(m) && k.1 !in m.gs.destroyer && k.0 in m.ws.counts
    ensures Traced(Append(m, k, x, t)) && Fewer(m, Append(m, k, x, t))
  {
  }

  lemma RegisterTraced(m: Memory, k: Key)
    requires Traced(m) && k.1 !in m.gs.destroyer
    ensures Traced(Register(m, k)) && Fewer(m, Register(m, k))
  {
  }

  lemma RollBackTraced(m: Memory, k: Key, x: Hook)
    requires Traced(m)
    ensures Traced(RollBack(m, k, x)) && Fewer(m, RollBack(m, k, x))
  {
  }

  lemma RemoveTraced(m: Memory, k: Key, t: Tid)
    requires Traced(m) && k in m.tb.conditions
    ensures Traced(Remove(m, k, t)) && Fewer(m, Remove(m, k, t))
    ensures Traced(Remove(Unregister(m, k), k, t)) && Fewer(m, Remove(Unregister(m, k), k, t))
  {
  }

  lemma LetGoAlike(c: Config, m: Memory, k: Key)
    ensures Alike(m, LetGo(c, m, k))
  {
  }

  /** A WaitSet that cannot be acquired any more is in its deinit. */
  lemma DrainTraced(c: Config, m: Memory, k: Key)
    requires Traced(m) && (Count(m.ws.counts, k.0) == 0 ==> k.0 in m.ws.ender)
    ensures Traced(Drain(c, m, k)) && Fewer(m, Drain(c, m, k))
  {
  }

  lemma NoneMeansEnder(m: Memory, w: WaitSet)
    requires WaitSetsOk(m.ws) && w in m.ws.counts && m.ws.counts[w] == 0
    ensures w in m.ws.ender
  {
    assert OwnWaitSet(w) in m.ws.refs ==> OwnWaitSet(w) in To(m.ws.refs, w);
  }

  lemma ReleaseWaitSetTraced(m: Memory, h: WaitSetRef, t: Tid)
    requires Traced(m) && (h.Drained? ==> (h.w, h.g) !in m.tb.conditions)
    ensures Traced(ReleaseWaitSet(m, h, t)) && Fewer(m, ReleaseWaitSet(m, h, t))
  {
  }

  lemma ReleaseOwnTraced(m: Memory, g: Guard)
    requires Traced(m) && forall k :: k in m.tb.registered ==> k.1 != g
    ensures Traced(ReleaseGuard(m, OwnGuard(g))) && Fewer(m, ReleaseGuard(m, OwnGuard(g)))
  {
  }

  lemma CloseWaitSetTraced(m: Memory, w: WaitSet)
    requires Traced(m) && w in m.ws.ender
    ensures Traced(CloseWaitSet(m, w)) && Fewer(m, CloseWaitSet(m, w))
  {
  }

  // ---- Each step ------------------------------------------------------------------------

  lemma AttachTraced(c: Config, t: Tid, pc: Pc, m: Memory, ok: bool, pc': Pc, m': Memory)
    requires c.attachRef && Needs(pc, m) && Traced(m) && Tidy(pc, m) && AttachNext(c, t, pc, m, ok) == Some((pc', m'))
    ensures Traced(m') && Fewer(m, m')
  {
    if pc.AttachAppend? || pc.AttachRegister? || pc.AttachRollBack? {
      EntryTraced(c, t, pc, m, ok, pc', m');
    } else {
      if pc.AttachDrop? { LetGoAlike(c, m, (pc.w, pc.g)); }
      AlikeTraced(m, m');
    }
  }

  /** The steps of an attach that change an entry. */
  lemma EntryTraced(c: Config, t: Tid, pc: Pc, m: Memory, ok: bool, pc': Pc, m': Memory)
    requires c.attachRef && Needs(pc, m) && Traced(m) && Tidy(pc, m) && AttachNext(c, t, pc, m, ok) == Some((pc', m'))
    requires pc.AttachAppend? || pc.AttachRegister? || pc.AttachRollBack?
    ensures Traced(m') && Fewer(m, m')
  {
    if pc'.AttachAcquire? {
      AppendTraced(UseWaitSet(m, pc.w), (pc.w, pc.g), pc.x, t);
    } else if pc.AttachRegister? && pc'.AttachUnlock? {
      RegisterTraced(UseGuard(m, pc.g), (pc.w, pc.g));
    } else if pc.AttachRollBack? {
      RollBackTraced(UseWaitSet(m, pc.w), (pc.w, pc.g), pc.x);
    } else {
      AlikeTraced(m, m');
    }
  }

  lemma AttachTidy(c: Config, t: Tid, pc: Pc, m: Memory, ok: bool, pc': Pc, m': Memory)
    requires Needs(pc, m) && Tidy(pc, m) && AttachNext(c, t, pc, m, ok) == Some((pc', m'))
    ensures Tidy(pc', m')
  {
    AttachStays(c, t, pc, m, ok, pc', m');
  }

  lemma AttachStays(c: Config, t: Tid, pc: Pc, m: Memory, ok: bool, pc': Pc, m': Memory)
    requires AttachNext(c, t, pc, m, ok) == Some((pc', m'))
    ensures Emptied(pc').None? && !Invalidated(pc')
    ensures pc'.AttachRegister? ==> pc.AttachAcquire? && pc'.g == pc.g && m'.gs.destroyer == m.gs.destroyer
  {
  }

  lemma DetachTraced(c: Config, t: Tid, pc: Pc, m: Memory, pc': Pc, m': Memory)
    requires Traced(m) && DetachNext(c, t, pc, m) == Some((pc', m'))
    ensures Traced(m') && Fewer(m, m')
  {
    match pc
    case DetachRemove(w, g) =>
      if (w, g) in m.tb.conditions { RemoveTraced(UseGuard(UseWaitSet(m, w), g), (w, g), t); }
    case DetachRelease(w, g, x) =>
      LetGoAlike(c, m, (w, g));
      AlikeTraced(m, m');
    case _ => AlikeTraced(m, m');
  }

  lemma DetachTidy(c: Config, t: Tid, pc: Pc, m: Memory, pc': Pc, m': Memory)
    requires DetachNext(c, t, pc, m) == Some((pc', m'))
    ensures Tidy(pc', m')
  {
  }

  /** At an entry of a guard's list. */
  lemma DrainingTraced(c: Config, m: Memory, w: WaitSet, g: Guard)
    requires MemoryOk(m) && Traced(m) && (w, g) in m.tb.registered
    ensures var m' := Drain(c, UseGuard(UseWaitSet(m, w), g), (w, g)); Traced(m') && Fewer(m, m')
  {
    assert (w, g) in m.tb.conditions;
    if m.ws.counts[w] == 0 { NoneMeansEnder(m, w); }
    DrainTraced(c, UseGuard(UseWaitSet(m, w), g), (w, g));
  }

  lemma DestroyTraced(c: Config, t: Tid, pc: Pc, m: Memory, pick: nat, pc': Pc, m': Memory)
    requires MemoryOk(m) && Traced(m) && Tidy(pc, m) && DestroyNextStep(c, t, pc, m, pick) == Some((pc', m'))
    ensures Traced(m') && Fewer(m, m')
  {
    if pc.DestroyDrain? && (pick, pc.g) in m.tb.registered {
      DrainingTraced(c, m, pick, pc.g);
    } else if pc.DestroyDone? || pc.DestroyOwn? {
      LeavingTraced(c, t, pc, m, pick, pc', m');
    } else {
      InvalidatingTraced(c, t, pc, m, pick, pc', m');
    }
  }

  lemma LeavingTraced(c: Config, t: Tid, pc: Pc, m: Memory, pick: nat, pc': Pc, m': Memory)
    requires Traced(m) && Tidy(pc, m) && DestroyNextStep(c, t, pc, m, pick) == Some((pc', m')) && (pc.DestroyDone? || pc.DestroyOwn?)
    ensures Traced(m') && Fewer(m, m')
  {
    if pc.DestroyDone? { ReleaseWaitSetTraced(m, Drained(pc.w, pc.g), t); } else { ReleaseOwnTraced(m, pc.g); }
  }

  lemma InvalidatingTraced(c: Config, t: Tid, pc: Pc, m: Memory, pick: nat, pc': Pc, m': Memory)
    requires Traced(m) && DestroyNextStep(c, t, pc, m, pick) == Some((pc', m')) && !pc.DestroyDone? && !pc.DestroyOwn?
    requires pc.DestroyDrain? ==> (pick, pc.g) !in m.tb.registered
    ensures Traced(m') && Fewer(m, m')
  {
    if pc.DestroyRemove? && (pc.w, pc.g) in m.tb.conditions {
      RemoveTraced(UseWaitSet(m, pc.w), (pc.w, pc.g), t);
    } else {
      if pc.DestroyRelease? { LetGoAlike(c, m, (pc.w, pc.g)); }
      AlikeTraced(m, m');
    }
  }

  lemma EndTraced(c: Config, t: Tid, pc: Pc, m: Memory, pick: nat, pc': Pc, m': Memory)
    requires Mine(t, pc, m) && Traced(m) && EndNextStep(c, t, pc, m, pick) == Some((pc', m'))
    ensures Traced(m') && Fewer(m, m')
  {
    match pc
    case EndClose(w) => CloseWaitSetTraced(UseWaitSet(m, w), w);
    case EndOwn(w) => ReleaseWaitSetTraced(m, OwnWaitSet(w), t);
    case EndNext(w, back) =>
      if (w, pick) in m.tb.conditions { RemoveTraced(UseGuard(UseWaitSet(m, w), pick), (w, pick), t); } else { AlikeTraced(m, m'); }
    case EndRelease(w, g, x, back) =>
      LetGoAlike(c, m, (w, g));
      AlikeTraced(m, m');
    case _ => AlikeTraced(m, m');
  }

  lemma DestroyTidy(c: Config, t: Tid, pc: Pc, m: Memory, pick: nat, pc': Pc, m': Memory)
    requires Tidy(pc, m) && DestroyNextStep(c, t, pc, m, pick) == Some((pc', m'))
    ensures Tidy(pc', m')
  {
    DestroyEmpties(c, t, pc, m, pick, pc', m');
    DestroyInvalidates(c, t, pc, m, pick, pc', m');
  }

  lemma DestroyEmpties(c: Config, t: Tid, pc: Pc, m: Memory, pick: nat, pc': Pc, m': Memory)
    requires Tidy(pc, m) && DestroyNextStep(c, t, pc, m, pick) == Some((pc', m'))
    ensures !pc'.AttachRegister? && (Emptied(pc').Some? ==> forall k :: k in m'.tb.registered ==> k.1 != Emptied(pc').value)
  {
  }

  lemma DestroyInvalidates(c: Config, t: Tid, pc: Pc, m: Memory, pick: nat, pc': Pc, m': Memory)
    requires Tidy(pc, m) && DestroyNextStep(c, t, pc, m, pick) == Some((pc', m'))
    ensures Invalidated(pc') ==> (pc'.w, pc'.g) !in m'.tb.conditions
  {
  }

  lemma EndTidy(c: Config, t: Tid, pc: Pc, m: Memory, pick: nat, pc': Pc, m': Memory)
    requires Tidy(pc, m) && EndNextStep(c, t, pc, m, pick) == Some((pc', m'))
    ensures Tidy(pc', m')
  {
  }

  lemma NextTraced(c: Config, t: Tid, pc: Pc, m: Memory, pick: nat, ok: bool, pc': Pc, m': Memory)
    requires Before(c, t, pc, m) && Traced(m) && Tidy(pc, m) && Next(c, t, pc, m, pick, ok) == Some((pc', m'))
    ensures Traced(m') && Tidy(pc', m') && Fewer(m, m')
  {
    if Attaching(pc) {
      AttachTraced(c, t, pc, m, ok, pc', m');
      AttachTidy(c, t, pc, m, ok, pc', m');
    } else if Detaching(pc) {
      DetachTraced(c, t, pc, m, pc', m');
      DetachTidy(c, t, pc, m, pc', m');
    } else if Ending(pc) {
      EndTraced(c, t, pc, m, pick, pc', m');
      EndTidy(c, t, pc, m, pick, pc', m');
    } else {
      DestroyTraced(c, t, pc, m, pick, pc', m');
      DestroyTidy(c, t, pc, m, pick, pc', m');
    }
  }

  ghost predicate AllTidy(threads: seq<Pc>, m: Memory) {
    forall t :: 0 <= t < |threads| ==> Tidy(threads[t], m)
  }

  ghost predicate TracedInv(c: Config, s: State) {
    Inv(c, s) && Traced(s.m) && AllTidy(s.threads, s.m)
  }

  lemma AdvanceTraced(c: Config, s: State, a: Action, s': State)
    requires c.attachRef && TracedInv(c, s) && a.Advance? && Step(c, s, a) == Some(s')
    ensures Traced(s'.m) && AllTidy(s'.threads, s'.m)
  {
    NextTraced(c, a.t, s.threads[a.t], s.m, a.pick, a.ok, s'.threads[a.t], s'.m);
    forall u | 0 <= u < |s'.threads| ensures Tidy(s'.threads[u], s'.m) {
      if u != a.t {
        DestroyingBegun(s.m, u, s.threads[u]);
        TidyKept(s.m, s'.m, s.threads[u]);
      }
    }
  }

  lemma SameTidy(threads: seq<Pc>, t: Tid, pc: Pc, m: Memory, m': Memory)
    requires AllTidy(threads, m) && t < |threads| && m'.gs.destroyer == m.gs.destroyer && m'.tb == m.tb
    requires pc.Idle? || pc.AttachLock? || pc.DetachLock? || pc.EndClose?
    ensures AllTidy(threads[t := pc], m') && AllTidy(threads, m')
  {
  }

  lemma BeginTidy(c: Config, s: State, t: Tid, g: Guard)
    requires c.waits && AllTidy(s.threads, s.m) && Idling(s, t) && !NamedBySome(c, s.threads, g)
    ensures AllTidy(s.threads[t := DestroyClose(g)], s.m.(gs := s.m.gs.(destroyer := s.m.gs.destroyer[g := t])))
  {
  }

  lemma BeginTraced(m: Memory, t: Tid, g: Guard)
    requires MemoryOk(m) && Traced(m) && g in m.gs.counts && g !in m.gs.destroyer
    ensures Traced(m.(gs := m.gs.(destroyer := m.gs.destroyer[g := t])))
  {
    assert OwnGuard(g) in m.gs.refs;
  }

  lemma CreatedTraced(m: Memory, w: WaitSet, g: Guard, t: Tid)
    requires Traced(m)
    ensures Traced(m.(ws := AddWaitSetRef(m.ws, OwnWaitSet(w)))) && Traced(m.(gs := AddGuardRef(m.gs, OwnGuard(g))))
    ensures Traced(Offer(m, t)) && Traced(m.(ws := m.ws.(ender := m.ws.ender[w := t])))
  {
  }

  /** A call begins: under the longer rule it leaves every entry traced. */
  lemma CallTraced(c: Config, s: State, a: Action, s': State)
    requires c.waits && TracedInv(c, s) && Call(c, s, a) == Some(s')
    ensures Traced(s'.m) && AllTidy(s'.threads, s'.m)
  {
    match a
    case NewWaitSet(w) => CreatedTraced(s.m, w, 0, 0);
    case NewGuard(g) => CreatedTraced(s.m, 0, g, 0);
    case CallDestroy(t, g) =>
      BeginTidy(c, s, t, g);
      BeginTraced(s.m, t, g);
    case _ => OtherCallTraced(c, s, a, s');
  }

  lemma OtherCallTraced(c: Config, s: State, a: Action, s': State)
    requires Traced(s.m) && AllTidy(s.threads, s.m) && Call(c, s, a) == Some(s')
    requires a.CallAttach? || a.CallDetach? || a.CallEnd?
    ensures Traced(s'.m) && AllTidy(s'.threads, s'.m)
  {
    if !a.CallDetach? { CreatedTraced(s.m, a.w, 0, a.t); }
    SameTidy(s.threads, a.t, s'.threads[a.t], s.m, s'.m);
  }

  lemma {:induction false} RunKeepsTraced(c: Config, acts: seq<Action>, s: State)
    requires c.waits && Reaches(c, acts, s)
    ensures TracedInv(c, s)
  {
    RunKeepsInv(c, acts, s);
    if acts != [] {
      var before, a := acts[..|acts| - 1], acts[|acts| - 1];
      var s0 := Run(c, before).value;
      RunKeepsTraced(c, before, s0);
      if a.Advance? { AdvanceTraced(c, s0, a, s); } else { CallTraced(c, s0, a, s); }
    }
  }

  // ---- When the deinit ends every attachment -----------------------------------------------

  /** At rest, with an attachment to a guard that was deinitialized. */
  ghost predicate Outlives(s: State) {
    Quiet(s) && exists k :: k in s.m.tb.conditions && k.1 in s.m.gs.destroyer
  }

  /** Under the longer rule nothing outlives the deinit: at rest a guard is freed exactly
      if it was deinitialized. */
  lemma {:induction false} NoneOutlives(c: Config, acts: seq<Action>, s: State)
    requires c.waits && Reaches(c, acts, s)
    ensures !Outlives(s)
    ensures Quiet(s) ==> forall g :: g in s.m.gs.freed <==> g in s.m.gs.destroyer
  {
    RunKeepsTraced(c, acts, s);
    if Quiet(s) {
      QuietHolders(c, s);
      FreedExactlyWhenOver(c, acts, s);
    }
  }

  /** A guard's deinit ends all its attachments, in every schedule, if and only if callers
      begin it only when every attach naming the guard has entered its list or given up. */
  lemma EndsAllIffWaits(c: Config)
    requires c.attachRef && c.slots > 0 && c.threads > 1
    ensures c.waits <==> forall acts :: Run(c, acts).Some? ==> !Outlives(Run(c, acts).value)
  {
    if c.waits {
      forall acts | Run(c, acts).Some? ensures !Outlives(Run(c, acts).value) {
        NoneOutlives(c, acts, Run(c, acts).value);
      }
    } else {
      LateRegistrationStays(c);
    }
  }

  // ---- A run in which an attachment outlives its guard's deinit ---------------------------

  /** A guard is deinitialized while the attach that names it is between taking its
      reference and entering the guard's list: the teardown finds nothing to end, and the
      attachment stands until its WaitSet ends it. */
  lemma LateRegistrationStays(c: Config)
    requires c.attachRef && !c.waits && c.slots > 0 && c.threads > 1
    ensures exists acts :: Run(c, acts).Some? && Quiet(Run(c, acts).value)
                           && 0 in Run(c, acts).value.m.gs.destroyer && 0 !in Run(c, acts).value.m.gs.freed
                           && (0, 0) in Run(c, acts).value.m.tb.conditions
  {
    var acts, s := Created(c);
    acts, s := AttachesHalf(c, acts, s);
    acts, s := EmptyTeardown(c, acts, s);
    acts, s := RegistersLate(c, acts, s);
    EntryIsAlive(c, acts, s);
  }

  lemma EntryIsAlive(c: Config, acts: seq<Action>, s: State)
    requires Reaches(c, acts, s) && Quiet(s) && (0, 0) in s.m.tb.conditions
    ensures 0 !in s.m.gs.freed
  {
    RunKeepsInv(c, acts, s);
    QuietHolders(c, s);
    EntryAlive(s.m, (0, 0));
  }

  lemma AcquireStep(c: Config, t: Tid, w: WaitSet, g: Guard, x: Hook, m: Memory)
    requires c.attachRef && g !in m.gs.closed && Count(m.gs.counts, g) > 0
    ensures Next(c, t, AttachAcquire(w, g, x), m, 0, true) == Some((AttachRegister(w, g, x), Acquire(UseGuard(m, g), (w, g), t)))
  {
  }

  lemma AttachesHalf(c: Config, acts: seq<Action>, s: State) returns (more: seq<Action>, s': State)
    requires Reaches(c, acts, s) && Idling(s, 0) && s.m.gs.counts == map[0 := 1] && s.m.gs.closed == {}
    requires 0 in s.m.ws.counts && 0 !in s.m.ws.ender && 0 !in s.m.gs.destroyer
    requires s.m.tb == Tables(map[], {}, map[], map[]) && s.m.locks == map[]
    ensures Run(c, more) == Some(s') && s'.threads == s.threads[0 := AttachRegister(0, 0, s.m.hooks.next)]
    ensures s'.m.ws == s.m.ws && s'.m.gs.counts == map[0 := 2] && s'.m.gs.destroyer == s.m.gs.destroyer
    ensures s'.m.tb.registered == {} && (0, 0) in s'.m.tb.conditions
  {
    var x := s.m.hooks.next;
    var s1 := State(s.threads[0 := AttachLock(0, 0, x)], Offer(s.m, 0));
    CallStep(c, s);
    more := Then(c, acts, s, CallAttach(0, 0, 0), s1);
    more, s' := LocksAndAppends(c, more, s1, x);
    more, s' := TakesReference(c, more, s', x);
    assert s'.threads == s.threads[0 := AttachRegister(0, 0, x)];
  }

  lemma TakesReference(c: Config, acts: seq<Action>, s: State, x: Hook) returns (more: seq<Action>, s': State)
    requires Reaches(c, acts, s) && |s.threads| > 0 && s.threads[0] == AttachAcquire(0, 0, x)
    requires s.m.gs.counts == map[0 := 1] && s.m.gs.closed == {}
    ensures Run(c, more) == Some(s') && s'.threads == s.threads[0 := AttachRegister(0, 0, x)]
    ensures s'.m.ws == s.m.ws && s'.m.gs.counts == map[0 := 2] && s'.m.gs.destroyer == s.m.gs.destroyer
    ensures s'.m.tb.registered == s.m.tb.registered && s'.m.tb.conditions == s.m.tb.conditions
  {
    AcquireStep(c, 0, 0, 0, x, s.m);
    SecondReference(s.m);
    more, s' := Advances(c, acts, s, 0, AttachRegister(0, 0, x), Acquire(UseGuard(s.m, 0), (0, 0), 0));
  }

  lemma SecondReference(m: Memory)
    requires m.gs.counts == map[0 := 1]
    ensures var m' := Acquire(UseGuard(m, 0), (0, 0), 0);
            && m'.gs.counts == map[0 := 2] && m'.gs.destroyer == m.gs.destroyer && m'.ws == m.ws
            && m'.tb.registered == m.tb.registered && m'.tb.conditions == m.tb.conditions
  {
  }

  lemma EmptyTeardown(c: Config, acts: seq<Action>, s: State) returns (more: seq<Action>, s': State)
    requires Run(c, acts) == Some(s) && |s.threads| > 1 && s.threads[1].Idle? && !NamedBySome(c, s.threads, 0)
    requires s.m.gs.counts == map[0 := 2] && 0 !in s.m.gs.destroyer && s.m.tb.registered == {}
    requires forall h :: h in s.m.ws.refs ==> !h.Drained?
    ensures Run(c, more) == Some(s') && s'.threads == s.threads && 0 in s'.m.gs.destroyer && s'.m.tb == s.m.tb
  {
    var s1 := State(s.threads[1 := DestroyClose(0)], s.m.(gs := s.m.gs.(destroyer := s.m.gs.destroyer[0 := 1])));
    more := Then(c, acts, s, CallDestroy(1, 0), s1);
    DestroySteps(c, 1, 0, s1.m);
    var m1 := CloseGuard(UseGuard(s1.m, 0), 0);
    var s2;
    more, s2 := Advances(c, more, s1, 1, DestroyDrain(0), m1);
    more, s' := OwnDropped(c, more, s2);
    assert s'.threads == s.threads;
  }

  lemma OwnDropped(c: Config, acts: seq<Action>, s: State) returns (more: seq<Action>, s': State)
    requires Run(c, acts) == Some(s) && |s.threads| > 1 && s.threads[1] == DestroyDrain(0) && s.m.tb.registered == {}
    requires forall h :: h in s.m.ws.refs ==> !h.Drained?
    ensures Run(c, more) == Some(s') && s'.threads == s.threads[1 := Idle]
    ensures s'.m.gs.destroyer == s.m.gs.destroyer && s'.m.tb == s.m.tb
  {
    var s1, s2;
    DrainedStep(c, 1, 0, s.m);
    more, s1 := Advances(c, acts, s, 1, DestroyNext(0), s.m);
    LastStep(c, 1, 0, s.m);
    more, s2 := Advances(c, more, s1, 1, DestroyOwn(0), s.m);
    DestroySteps(c, 1, 0, s.m);
    more, s' := Advances(c, more, s2, 1, Idle, ReleaseGuard(s.m, OwnGuard(0)));
    assert s'.threads == s.threads[1 := Idle];
  }

  lemma RegistersLate(c: Config, acts: seq<Action>, s: State) returns (more: seq<Action>, s': State)
    requires c.attachRef && c.slots > 0 && Run(c, acts) == Some(s) && |s.threads| > 0 && s.threads[0].AttachRegister?
    requires s.threads[0] == AttachRegister(0, 0, s.threads[0].x) && s.m.tb.registered == {} && (0, 0) in s.m.tb.conditions
    ensures Run(c, more) == Some(s') && s'.threads == s.threads[0 := Idle]
    ensures s'.m.gs.destroyer == s.m.gs.destroyer && (0, 0) in s'.m.tb.conditions
  {
    var x := s.threads[0].x;
    RegisterStep(c, 0, 0, 0, x, s.m);
    var m1 := Register(UseGuard(s.m, 0), (0, 0));
    var s1;
    more, s1 := Advances(c, acts, s, 0, AttachUnlock(0), m1);
    UnlockStep(c, 0, 0, m1);
    more, s' := Advances(c, more, s1, 0, Idle, Unlock(UseWaitSet(m1, 0), 0));
    assert s'.threads == s.threads[0 := Idle];
  }
}
