/** The teardowns neither block each other nor go on for ever: from every reachable state
    the calls in progress can all come back, and each of their steps brings that nearer. */
module TeardownProgress {
  import opened Base
  import opened References
  import opened WaitSetTeardown
  import CallEffects

  // ---- A measure that every step lowers ---------------------------------------------------

  /** How far an attach or a detach is from its end. */
  function Line(pc: Pc): nat {
    match pc
    case AttachLock(_, _, _) => 7
    case AttachAppend(_, _, _) => 6
    case AttachAcquire(_, _, _) => 5
    case AttachRegister(_, _, _) => 4
    case AttachDrop(_, _, _) => 3
    case AttachRollBack(_, _, _) => 2
    case AttachUnlock(_) => 1
    case DetachLock(_, _) => 5
    case DetachRemove(_, _) => 4
    case DetachRelease(_, _, _) => 3
    case DetachUnlock(_, _) => 2
    case DetachFire(_) => 1
    case _ => 0
  }

  /** How far a teardown is from its end, or from its next look at a list. */
  function Rank(pc: Pc): nat {
    match pc
    case EndClose(_) => 16
    case EndOwn(_) => 15
    case EndRelease(_, _, _, _) => 14
    case EndFire(_, _, _) => 13
    case EndNext(_, _) => 12
    case DestroyClose(_) => 11
    case DestroyDrain(_) => 10
    case DestroyNext(_) => 9
    case DestroyLock(_, _) => 8
    case DestroyRemove(_, _) => 7
    case DestroyUnlock(_, _, _) => 6
    case DestroyRelease(_, _, _) => 5
    case DestroyFire(_, _, _) => 4
    case DestroyDone(_, _) => 3
    case DestroyOwn(_) => 2
    case _ => 0
  }

  function Sum(f: Pc -> nat, threads: seq<Pc>): nat {
    if threads == [] then 0 else Sum(f, threads[..|threads| - 1]) + f(threads[|threads| - 1])
  }

  lemma {:induction false} SumChanges(f: Pc -> nat, threads: seq<Pc>, t: Tid, pc: Pc)
    requires t < |threads|
    ensures Sum(f, threads[t := pc]) + f(threads[t]) == Sum(f, threads) + f(pc)
  {
    var n, threads' := |threads| - 1, threads[t := pc];
    if t < n {
      SumChanges(f, threads[..n], t, pc);
      assert threads'[..n] == threads[..n][t := pc];
    } else {
      assert threads'[..n] == threads[..n];
    }
  }

  /** The WaitSets in the hands of guards' teardowns. */
  function DrainedRefs(refs: map<WaitSetRef, WaitSet>): set<WaitSetRef> {
    set h | h in refs && h.Drained?
  }

  /** What the guards' lists, their teardowns and the WaitSets still have to give up:
      later components count less. */
  ghost predicate Fewer(m: Memory, m': Memory) {
    || |m'.tb.registered| < |m.tb.registered|
    || (|m'.tb.registered| == |m.tb.registered| && |DrainedRefs(m'.ws.refs)| < |DrainedRefs(m.ws.refs)|)
    || (|m'.tb.registered| == |m.tb.registered| && |DrainedRefs(m'.ws.refs)| == |DrainedRefs(m.ws.refs)|
        && |m'.tb.conditions| < |m.tb.conditions|)
  }

  ghost predicate AsMany(m: Memory, m': Memory) {
    && |m'.tb.registered| == |m.tb.registered| && |DrainedRefs(m'.ws.refs)| == |DrainedRefs(m.ws.refs)|
    && |m'.tb.conditions| == |m.tb.conditions|
  }

  /** A step of one thread, from `pc` to `pc'`, lowers the measure. */
  ghost predicate Lowers(pc: Pc, m: Memory, pc': Pc, m': Memory) {
    || Line(pc') < Line(pc)
    || (Line(pc') == Line(pc) && Fewer(m, m'))
    || (Line(pc') == Line(pc) && AsMany(m, m') && Rank(pc') < Rank(pc))
  }

  lemma CallLowers(c: Config, t: Tid, pc: Pc, m: Memory, ok: bool, pc': Pc, m': Memory)
    requires AttachNext(c, t, pc, m, ok) == Some((pc', m')) || DetachNext(c, t, pc, m) == Some((pc', m'))
    ensures Line(pc') < Line(pc)
  {
  }

  lemma Taken<K>(s: set<K>, k: K)
    requires k in s
    ensures |s - {k}| < |s|
  {
  }

  lemma RemoveFewer(m: Memory, k: Key, t: Tid)
    requires k in m.tb.conditions
    ensures Fewer(m, Remove(m, k, t)) && Fewer(m, Remove(Unregister(m, k), k, t))
  {
    var conditions := m.tb.conditions;
    assert (conditions - {k}).Keys == conditions.Keys - {k};
    Taken(conditions.Keys, k);
    if k in m.tb.registered {
      Taken(m.tb.registered, k);
    } else {
      assert m.tb.registered - {k} == m.tb.registered;
    }
  }

  lemma LetGoAsMany(c: Config, m: Memory, k: Key)
    ensures AsMany(m, LetGo(c, m, k))
  {
  }

  lemma DrainFewer(c: Config, m: Memory, k: Key)
    requires k in m.tb.registered
    ensures Fewer(m, Drain(c, m, k))
  {
    Taken(m.tb.registered, k);
  }

  lemma ReleaseFewer(m: Memory, w: WaitSet, g: Guard, t: Tid)
    requires Drained(w, g) in m.ws.refs
    ensures Fewer(m, ReleaseWaitSet(m, Drained(w, g), t))
  {
    assert DrainedRefs(m.ws.refs - {Drained(w, g)}) == DrainedRefs(m.ws.refs) - {Drained(w, g)};
    Taken(DrainedRefs(m.ws.refs), Drained(w, g));
  }

  lemma ReleaseAsMany(m: Memory, w: WaitSet, t: Tid)
    ensures AsMany(m, ReleaseWaitSet(m, OwnWaitSet(w), t))
  {
    assert DrainedRefs(m.ws.refs - {OwnWaitSet(w)}) == DrainedRefs(m.ws.refs);
  }

  lemma DestroyLowers(c: Config, t: Tid, pc: Pc, m: Memory, pick: nat, pc': Pc, m': Memory)
    requires Needs(pc, m) && DestroyNextStep(c, t, pc, m, pick) == Some((pc', m'))
    ensures Lowers(pc, m, pc', m')
  {
    match pc
    case DestroyDrain(g) =>
      if (pick, g) in m.tb.registered { DrainFewer(c, UseGuard(UseWaitSet(m, pick), g), (pick, g)); }
    case DestroyRemove(w, g) =>
      if (w, g) in m.tb.conditions { RemoveFewer(UseWaitSet(m, w), (w, g), t); }
    case DestroyRelease(w, g, x) => LetGoAsMany(c, m, (w, g));
    case DestroyDone(w, g) => ReleaseFewer(m, w, g, t);
    case _ =>
  }

  lemma EndLowers(c: Config, t: Tid, pc: Pc, m: Memory, pick: nat, pc': Pc, m': Memory)
    requires EndNextStep(c, t, pc, m, pick) == Some((pc', m'))
    ensures Lowers(pc, m, pc', m')
  {
    match pc
    case EndOwn(w) => ReleaseAsMany(m, w, t);
    case EndNext(w, back) => EndNextLowers(c, t, pc, m, pick, pc', m');
    case EndRelease(w, g, x, back) => LetGoAsMany(c, m, (w, g));
    case _ =>
  }

  lemma EndNextLowers(c: Config, t: Tid, pc: Pc, m: Memory, pick: nat, pc': Pc, m': Memory)
    requires pc.EndNext? && EndNextStep(c, t, pc, m, pick) == Some((pc', m'))
    ensures Lowers(pc, m, pc', m')
  {
    if (pc.w, pick) in m.tb.conditions { RemoveFewer(UseGuard(UseWaitSet(m, pc.w), pick), (pc.w, pick), t); }
  }

  lemma NextLowers(c: Config, t: Tid, pc: Pc, m: Memory, pick: nat, ok: bool, pc': Pc, m': Memory)
    requires Needs(pc, m) && Next(c, t, pc, m, pick, ok) == Some((pc', m'))
    ensures Lowers(pc, m, pc', m')
  {
    if Attaching(pc) || Detaching(pc) { CallLowers(c, t, pc, m, ok, pc', m'); }
    else if Ending(pc) { EndLowers(c, t, pc, m, pick, pc', m'); }
    else { DestroyLowers(c, t, pc, m, pick, pc', m'); }
  }

  /** The state as a whole is nearer to rest: attaches and detaches first, then what is to
      be given up, then the places in the teardowns. */
  ghost predicate Nearer(s: State, s': State) {
    || Sum(Line, s'.threads) < Sum(Line, s.threads)
    || (Sum(Line, s'.threads) == Sum(Line, s.threads) && Fewer(s.m, s'.m))
    || (Sum(Line, s'.threads) == Sum(Line, s.threads) && AsMany(s.m, s'.m) && Sum(Rank, s'.threads) < Sum(Rank, s.threads))
  }

  /** Every step of a call in progress, whichever thread makes it, goes that way: a
      schedule without new calls cannot go on for ever. */
  lemma {:induction false} StepsRunOut(c: Config, acts: seq<Action>, s: State, a: Action, s': State)
    requires Reaches(c, acts, s) && a.Advance? && Step(c, s, a) == Some(s')
    ensures Nearer(s, s')
  {
    RunKeepsInv(c, acts, s);
    CallEffects.Advanced(c, s, a, s');
    assert Stands(a.t, s.threads[a.t], s.m);
    NextLowers(c, a.t, s.threads[a.t], s.m, a.pick, a.ok, s'.threads[a.t], s'.m);
    SumChanges(Line, s.threads, a.t, s'.threads[a.t]);
    SumChanges(Rank, s.threads, a.t, s'.threads[a.t]);
  }

  // ---- Somebody can always go on ------------------------------------------------------------

  ghost predicate LocksOwned(n: nat, locks: map<WaitSet, Tid>) {
    forall w :: w in locks ==> locks[w] < n
  }

  lemma NextLocks(c: Config, t: Tid, pc: Pc, m: Memory, pick: nat, ok: bool, pc': Pc, m': Memory)
    requires Next(c, t, pc, m, pick, ok) == Some((pc', m'))
    ensures forall w :: w in m'.locks ==> m'.locks[w] == t || (w in m.locks && m.locks[w] == m'.locks[w])
  {
    if Attaching(pc) { AttachLocks(c, t, pc, m, ok, pc', m'); }
    else if Ending(pc) { EndLocks(c, t, pc, m, pick, pc', m'); }
    else if !Detaching(pc) { DestroyLocks(c, t, pc, m, pick, pc', m'); }
  }

  lemma AttachLocks(c: Config, t: Tid, pc: Pc, m: Memory, ok: bool, pc': Pc, m': Memory)
    requires AttachNext(c, t, pc, m, ok) == Some((pc', m'))
    ensures forall w :: w in m'.locks ==> m'.locks[w] == t || (w in m.locks && m.locks[w] == m'.locks[w])
  {
  }

  lemma DestroyLocks(c: Config, t: Tid, pc: Pc, m: Memory, pick: nat, pc': Pc, m': Memory)
    requires DestroyNextStep(c, t, pc, m, pick) == Some((pc', m'))
    ensures forall w :: w in m'.locks ==> m'.locks[w] == t || (w in m.locks && m.locks[w] == m'.locks[w])
  {
  }

  lemma EndLocks(c: Config, t: Tid, pc: Pc, m: Memory, pick: nat, pc': Pc, m': Memory)
    requires EndNextStep(c, t, pc, m, pick) == Some((pc', m'))
    ensures m'.locks == m.locks
  {
  }

  lemma CallLocks(c: Config, s: State, a: Action, s': State)
    requires Call(c, s, a) == Some(s')
    ensures s'.m.locks == s.m.locks && |s'.threads| == |s.threads|
  {
  }

  lemma {:induction false} RunKeepsLocks(c: Config, acts: seq<Action>, s: State)
    requires Run(c, acts) == Some(s)
    ensures LocksOwned(|s.threads|, s.m.locks)
  {
    if acts != [] {
      var before, a := acts[..|acts| - 1], acts[|acts| - 1];
      var s0 := Run(c, before).value;
      RunKeepsLocks(c, before, s0);
      if a.Advance? {
        CallEffects.Advanced(c, s0, a, s);
        NextLocks(c, a.t, s0.threads[a.t], s0.m, a.pick, a.ok, s.threads[a.t], s.m);
      } else {
        CallLocks(c, s0, a, s);
      }
    }
  }

  /** A place where a WaitSet's mutex is taken. */
  predicate Waits(pc: Pc, m: Memory) {
    (pc.AttachLock? || pc.DetachLock? || pc.DestroyLock?) && pc.w in m.locks
  }

  lemma CanStep(c: Config, t: Tid, pc: Pc, m: Memory) returns (pick: nat)
    requires !pc.Idle? && !Waits(pc, m)
    ensures Next(c, t, pc, m, pick, true).Some?
  {
    pick := 0;
    match pc
    case DestroyDrain(g) =>
      if k :| k in m.tb.registered && k.1 == g {
        assert k == (k.0, g);
        pick := k.0;
      }
    case DestroyNext(g) =>
      if h :| h in m.ws.refs && h.Drained? && h.g == g {
        assert h == Drained(h.w, g);
        pick := h.w;
      }
    case EndNext(w, back) =>
      if k :| k in m.tb.conditions && k.0 == w {
        assert k == (w, k.1);
        pick := k.1;
      }
    case _ =>
  }

  /** No deadlock: while a call is in progress some thread can make a step. */
  lemma {:induction false} NoDeadlock(c: Config, acts: seq<Action>, s: State) returns (t: Tid, pick: nat)
    requires Reaches(c, acts, s) && !Quiet(s)
    ensures t < |s.threads| && Step(c, s, Advance(t, pick, true)).Some?
  {
    RunKeepsInv(c, acts, s);
    RunKeepsLocks(c, acts, s);
    t :| 0 <= t < |s.threads| && !s.threads[t].Idle?;
    if Waits(s.threads[t], s.m) {
      var w := s.threads[t].w;
      t := s.m.locks[w];
      HolderGoesOn(s, w);
    }
    pick := CanStep(c, t, s.threads[t], s.m);
    CanAdvance(c, s, t, pick);
  }

  /** Who has a mutex waits for none. */
  lemma HolderGoesOn(s: State, w: WaitSet)
    requires InPlace(s.threads, s.m) && w in s.m.locks && s.m.locks[w] < |s.threads|
    ensures var pc := s.threads[s.m.locks[w]]; !pc.Idle? && !Waits(pc, s.m)
  {
    var t := s.m.locks[w];
    assert Owns(t, s.m.locks, LockOf(s.threads[t]));
    LockPlaces(s.threads[t], s.m);
  }

  lemma LockPlaces(pc: Pc, m: Memory)
    requires LockOf(pc).Some?
    ensures !pc.Idle? && !Waits(pc, m)
  {
  }

  lemma CanAdvance(c: Config, s: State, t: Tid, pick: nat)
    requires t < |s.threads| && Next(c, t, s.threads[t], s.m, pick, true).Some?
    ensures Step(c, s, Advance(t, pick, true)).Some?
  {
  }

  lemma Grouped(acts: seq<Action>, a: Action, rest: seq<Action>)
    ensures acts + ([a] + rest) == acts + [a] + rest
  {
  }

  lemma Stays(c: Config, acts: seq<Action>, s: State, a: Action, s1: State)
    requires Reaches(c, acts, s) && a.Advance? && Step(c, s, a) == Some(s1)
    ensures Reaches(c, acts + [a], s1) && Nearer(s, s1)
  {
    StepsRunOut(c, acts, s, a, s1);
    CallEffects.OneStep(c, acts, s, a, s1);
  }

  /** From every reachable state the calls in progress can all come back. */
  lemma {:induction false} ComesToRest(c: Config, acts: seq<Action>, s: State) returns (more: seq<Action>, s': State)
    requires Reaches(c, acts, s)
    ensures Run(c, acts + more) == Some(s') && Quiet(s') && forall i :: 0 <= i < |more| ==> more[i].Advance?
    decreases Sum(Line, s.threads), |s.m.tb.registered|, |DrainedRefs(s.m.ws.refs)|, |s.m.tb.conditions|, Sum(Rank, s.threads)
  {
    if Quiet(s) {
      more, s' := [], s;
      assert acts + more == acts;
    } else {
      var t, pick := NoDeadlock(c, acts, s);
      var a := Advance(t, pick, true);
      var s1 := Step(c, s, a).value;
      Stays(c, acts, s, a, s1);
      var rest;
      rest, s' := ComesToRest(c, acts + [a], s1);
      more := [a] + rest;
      Grouped(acts, a, rest);
    }
  }
}
