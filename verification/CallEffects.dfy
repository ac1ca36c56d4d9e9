/** What a whole attach or detach does: under interference a detach ends its entry and
    fires that entry's hook and no other; alone, each changes nothing else. */
module CallEffects {
  import opened Base
  import opened References
  import opened WaitSetTeardown

  // ---- Detach under interference --------------------------------------------------------

  /** Whatever the other threads are doing, the step that looks for the entry leaves no
      entry and no listing of that guard, and takes up exactly the hook it found. */
  lemma {:induction false} DetachEndsEntry(c: Config, acts: seq<Action>, s: State, t: Tid, a: Action, s': State)
    requires Reaches(c, acts, s) && t < |s.threads| && s.threads[t].DetachRemove?
    requires a.Advance? && a.t == t && Step(c, s, a) == Some(s')
    ensures var k := (s.threads[t].w, s.threads[t].g);
            && s'.m.tb.conditions == s.m.tb.conditions - {k} && s'.m.tb.registered == s.m.tb.registered - {k}
            && s'.m.hooks.fired == s.m.hooks.fired && |s'.threads| == |s.threads| && Past(s'.threads[t])
            && Owed(s'.threads[t]) == (if k in s.m.tb.conditions then multiset{s.m.tb.conditions[k]} else multiset{})
  {
    RunKeepsInv(c, acts, s);
    ListedOnly(c, s, (s.threads[t].w, s.threads[t].g));
    Advanced(c, s, a, s');
    Looked(c, t, s.threads[t], s.m, s'.threads[t], s'.m);
  }

  lemma ListedOnly(c: Config, s: State, k: Key)
    requires Inv(c, s)
    ensures k in s.m.tb.registered ==> k in s.m.tb.conditions
  {
  }

  lemma Advanced(c: Config, s: State, a: Action, s': State)
    requires a.Advance? && Step(c, s, a) == Some(s')
    ensures a.t < |s.threads| == |s'.threads| && s'.threads == s.threads[a.t := s'.threads[a.t]]
    ensures Next(c, a.t, s.threads[a.t], s.m, a.pick, a.ok) == Some((s'.threads[a.t], s'.m))
  {
  }

  lemma Looked(c: Config, t: Tid, pc: Pc, m: Memory, pc': Pc, m': Memory)
    requires pc.DetachRemove? && DetachNext(c, t, pc, m) == Some((pc', m'))
    requires (pc.w, pc.g) in m.tb.registered ==> (pc.w, pc.g) in m.tb.conditions
    ensures var k := (pc.w, pc.g);
            && m'.tb.conditions == m.tb.conditions - {k} && m'.tb.registered == m.tb.registered - {k}
            && m'.hooks.fired == m.hooks.fired && Past(pc')
            && Owed(pc') == (if k in m.tb.conditions then multiset{m.tb.conditions[k]} else multiset{})
  {
  }

  /** A detach that has looked for its entry, or a thread in no call. */
  predicate Past(pc: Pc) {
    pc.DetachRelease? || pc.DetachUnlock? || pc.DetachFire? || pc.Idle?
  }

  /** The hook it has yet to fire. */
  function Owed(pc: Pc): multiset<Hook> {
    if pc.DetachRelease? || pc.DetachFire? then multiset{pc.x}
    else if pc.DetachUnlock? && pc.hook.Some? then multiset{pc.hook.value}
    else multiset{}
  }

  /** Thread `t` begins a call. */
  predicate Starts(a: Action, t: Tid) {
    (a.CallAttach? || a.CallDetach? || a.CallDestroy? || a.CallEnd?) && a.t == t
  }

  predicate NoStart(acts: seq<Action>, t: Tid) {
    forall i :: 0 <= i < |acts| ==> !Starts(acts[i], t)
  }

  /** The hooks fired by the steps of thread `t`. */
  function FiredBy(c: Config, acts: seq<Action>, t: Tid): multiset<Hook> {
    if acts == [] || Run(c, acts).None? then multiset{}
    else
      var before, a := acts[..|acts| - 1], acts[|acts| - 1];
      var fired := Run(c, acts).value.m.hooks.fired - Run(c, before).value.m.hooks.fired;
      FiredBy(c, before, t) + if a.Advance? && a.t == t then fired else multiset{}
  }

  lemma FiredOnce(c: Config, acts: seq<Action>, s: State, a: Action, s': State, t: Tid)
    requires Run(c, acts) == Some(s) && Run(c, acts + [a]) == Some(s')
    ensures FiredBy(c, acts + [a], t) ==
            FiredBy(c, acts, t) + if a.Advance? && a.t == t then s'.m.hooks.fired - s.m.hooks.fired else multiset{}
  {
    var all := acts + [a];
    assert all[..|all| - 1] == acts && all[|all| - 1] == a;
  }

  lemma ReleasesAndUnlocks(c: Config, t: Tid, pc: Pc, m: Memory, pc': Pc, m': Memory)
    requires (pc.DetachRelease? || pc.DetachUnlock?) && DetachNext(c, t, pc, m) == Some((pc', m'))
    ensures Past(pc') && m'.hooks.fired == m.hooks.fired && Owed(pc') == Owed(pc)
  {
  }

  lemma Fires(c: Config, t: Tid, pc: Pc, m: Memory, pc': Pc, m': Memory)
    requires pc.DetachFire? && DetachNext(c, t, pc, m) == Some((pc', m'))
    ensures pc'.Idle? && m'.hooks.fired == m.hooks.fired + Owed(pc)
  {
  }

  lemma OwnStep(c: Config, t: Tid, pc: Pc, m: Memory, pick: nat, ok: bool, pc': Pc, m': Memory)
    requires Past(pc) && Next(c, t, pc, m, pick, ok) == Some((pc', m'))
    ensures Past(pc') && m.hooks.fired <= m'.hooks.fired
    ensures m'.hooks.fired - m.hooks.fired + Owed(pc') == Owed(pc)
  {
    if pc.DetachFire? { Fires(c, t, pc, m, pc', m'); } else { ReleasesAndUnlocks(c, t, pc, m, pc', m'); }
  }

  lemma OneMore(c: Config, s: State, a: Action, s': State, t: Tid)
    requires Step(c, s, a) == Some(s') && t < |s.threads| && Past(s.threads[t]) && !Starts(a, t)
    ensures |s'.threads| == |s.threads| && Past(s'.threads[t])
    ensures (if a.Advance? && a.t == t then s'.m.hooks.fired - s.m.hooks.fired else multiset{}) + Owed(s'.threads[t]) ==
            Owed(s.threads[t])
  {
    if a.Advance? && a.t == t {
      Advanced(c, s, a, s');
      OwnStep(c, t, s.threads[t], s.m, a.pick, a.ok, s'.threads[t], s'.m);
    } else {
      OthersStay(c, s, a, s', t);
    }
  }

  lemma OthersStay(c: Config, s: State, a: Action, s': State, t: Tid)
    requires Step(c, s, a) == Some(s') && t < |s.threads| && !Starts(a, t) && !(a.Advance? && a.t == t)
    ensures |s'.threads| == |s.threads| && s'.threads[t] == s.threads[t]
  {
  }

  /** What is still owed is fired later, and nothing else. */
  lemma {:induction false} OwedIsFired(c: Config, acts: seq<Action>, s: State, more: seq<Action>, s': State, t: Tid)
    requires Run(c, acts) == Some(s) && Run(c, acts + more) == Some(s') && NoStart(more, t)
    requires t < |s.threads| && Past(s.threads[t])
    ensures |s'.threads| == |s.threads| && Past(s'.threads[t])
    ensures FiredBy(c, acts + more, t) + Owed(s'.threads[t]) == FiredBy(c, acts, t) + Owed(s.threads[t])
  {
    if more == [] {
      assert acts + more == acts;
    } else {
      var less, a := more[..|more| - 1], more[|more| - 1];
      assert acts + more == acts + less + [a];
      var s1 := LastStep(c, acts + less, a, s');
      OwedIsFired(c, acts, s, less, s1, t);
      OneMore(c, s1, a, s', t);
      FiredOnce(c, acts + less, s1, a, s', t);
    }
  }

  lemma LastStep(c: Config, acts: seq<Action>, a: Action, s': State) returns (s: State)
    requires Run(c, acts + [a]) == Some(s')
    ensures Run(c, acts) == Some(s) && Step(c, s, a) == Some(s')
  {
    assert (acts + [a])[..|acts|] == acts;
    s := Run(c, acts).value;
  }

  lemma Nothing(c: Config, acts: seq<Action>, s: State, a: Action, s': State, t: Tid)
    requires Run(c, acts) == Some(s) && Run(c, acts + [a]) == Some(s') && s'.m.hooks.fired == s.m.hooks.fired
    ensures FiredBy(c, acts + [a], t) == FiredBy(c, acts, t)
  {
    FiredOnce(c, acts, s, a, s', t);
    assert s'.m.hooks.fired - s.m.hooks.fired == multiset{};
  }

  lemma OneStep(c: Config, acts: seq<Action>, s: State, a: Action, s': State)
    requires Run(c, acts) == Some(s) && Step(c, s, a) == Some(s')
    ensures Run(c, acts + [a]) == Some(s')
  {
    assert (acts + [a])[..|acts|] == acts;
  }

  /** However other calls interleave, a detach that has come back has fired exactly the
      hook of the entry it found, or none if it found none. */
  lemma {:induction false} DetachFiresItsHook(c: Config, acts: seq<Action>, s: State, t: Tid, a: Action, s1: State,
                                              more: seq<Action>, s': State)
    requires Reaches(c, acts, s) && t < |s.threads| && s.threads[t].DetachRemove?
    requires a.Advance? && a.t == t && Step(c, s, a) == Some(s1)
    requires Run(c, acts + [a] + more) == Some(s') && NoStart(more, t)
    requires t < |s'.threads| && s'.threads[t].Idle?
    ensures var k := (s.threads[t].w, s.threads[t].g);
            FiredBy(c, acts + [a] + more, t) ==
            FiredBy(c, acts, t) + (if k in s.m.tb.conditions then multiset{s.m.tb.conditions[k]} else multiset{})
  {
    DetachEndsEntry(c, acts, s, t, a, s1);
    OneStep(c, acts, s, a, s1);
    Nothing(c, acts, s, a, s1, t);
    OwedIsFired(c, acts + [a], s1, more, s', t);
    assert Owed(s'.threads[t]) == multiset{};
  }

  // ---- What becomes of the hook of an attachment ------------------------------------------

  /** It still has a hook to offer with an attach. */
  predicate Offering(pc: Pc) {
    pc.AttachLock? || pc.AttachAppend?
  }

  /** The hook of an attachment once made stays with its entry, is in the hands of a
      thread that will fire it, or has been fired. */
  ghost predicate Bound(s: State, k: Key, x: Hook) {
    && x in s.m.hooks.place
    && match s.m.hooks.place[x]
       case Stored(l) => l == k && k !in s.m.tb.pending
       case InHand(t) => t < |s.threads| && !Offering(s.threads[t])
       case Fired => true
       case Refused => false
  }

  /** How a step of thread `t` can move a hook. */
  ghost predicate Moves(t: Tid, pc: Pc, m: Memory, pc': Pc, m': Memory, x: Hook)
    requires x in m.hooks.place
  {
    && x in m'.hooks.place
    && (|| m'.hooks.place[x] == m.hooks.place[x]
        || (m.hooks.place[x].Stored? && m.hooks.place[x].key in m.tb.pending)
        || (m.hooks.place[x].Stored? && m'.hooks.place[x] == InHand(t))
        || (m.hooks.place[x] == InHand(t) && (Offering(pc) || m'.hooks.place[x] == Fired)))
    && (Offering(pc') ==> Offering(pc))
    && (forall k :: k in m.tb.conditions && k !in m.tb.pending ==> k !in m'.tb.pending)
  }

  lemma AttachMoves(c: Config, t: Tid, pc: Pc, m: Memory, ok: bool, pc': Pc, m': Memory, x: Hook)
    requires HooksOk(m.tb.conditions, m.hooks) && OwnsHook(t, m.hooks.place, HookOf(pc)) && Owns(t, m.tb.pending, PendingOf(pc))
    requires Needs(pc, m) && AttachNext(c, t, pc, m, ok) == Some((pc', m')) && x in m.hooks.place
    ensures Moves(t, pc, m, pc', m', x)
  {
    if pc.AttachAppend? { AppendMoves(c, t, pc, m, ok, pc', m', x); }
    else if pc.AttachRollBack? { RollBackMoves(c, t, pc, m, ok, pc', m', x); }
    else { StepMoves(c, t, pc, m, ok, pc', m', x); }
  }

  lemma AppendMoves(c: Config, t: Tid, pc: Pc, m: Memory, ok: bool, pc': Pc, m': Memory, x: Hook)
    requires pc.AttachAppend? && OwnsHook(t, m.hooks.place, Some(pc.x))
    requires AttachNext(c, t, pc, m, ok) == Some((pc', m')) && x in m.hooks.place
    ensures Moves(t, pc, m, pc', m', x)
  {
    assert m.hooks.place[pc.x] == InHand(t);
  }

  lemma RollBackMoves(c: Config, t: Tid, pc: Pc, m: Memory, ok: bool, pc': Pc, m': Memory, x: Hook)
    requires pc.AttachRollBack? && HooksOk(m.tb.conditions, m.hooks) && (pc.w, pc.g) in m.tb.pending && Needs(pc, m)
    requires AttachNext(c, t, pc, m, ok) == Some((pc', m')) && x in m.hooks.place
    ensures Moves(t, pc, m, pc', m', x)
  {
    assert m.hooks.place[pc.x] == Stored((pc.w, pc.g));
  }

  lemma StepMoves(c: Config, t: Tid, pc: Pc, m: Memory, ok: bool, pc': Pc, m': Memory, x: Hook)
    requires !pc.AttachAppend? && !pc.AttachRollBack? && AttachNext(c, t, pc, m, ok) == Some((pc', m')) && x in m.hooks.place
    ensures Moves(t, pc, m, pc', m', x)
  {
  }

  lemma DetachMoves(c: Config, t: Tid, pc: Pc, m: Memory, pc': Pc, m': Memory, x: Hook)
    requires HooksOk(m.tb.conditions, m.hooks) && OwnsHook(t, m.hooks.place, HookOf(pc))
    requires DetachNext(c, t, pc, m) == Some((pc', m')) && x in m.hooks.place
    ensures Moves(t, pc, m, pc', m', x)
  {
  }

  lemma DestroyMoves(c: Config, t: Tid, pc: Pc, m: Memory, pick: nat, pc': Pc, m': Memory, x: Hook)
    requires HooksOk(m.tb.conditions, m.hooks) && OwnsHook(t, m.hooks.place, HookOf(pc))
    requires DestroyNextStep(c, t, pc, m, pick) == Some((pc', m')) && x in m.hooks.place
    ensures Moves(t, pc, m, pc', m', x)
  {
  }

  lemma EndMoves(c: Config, t: Tid, pc: Pc, m: Memory, pick: nat, pc': Pc, m': Memory, x: Hook)
    requires HooksOk(m.tb.conditions, m.hooks) && OwnsHook(t, m.hooks.place, HookOf(pc))
    requires EndNextStep(c, t, pc, m, pick) == Some((pc', m')) && x in m.hooks.place
    ensures Moves(t, pc, m, pc', m', x)
  {
  }

  lemma NextMoves(c: Config, t: Tid, pc: Pc, m: Memory, pick: nat, ok: bool, pc': Pc, m': Memory, x: Hook)
    requires HooksOk(m.tb.conditions, m.hooks) && Stands(t, pc, m)
    requires Next(c, t, pc, m, pick, ok) == Some((pc', m')) && x in m.hooks.place
    ensures Moves(t, pc, m, pc', m', x)
  {
    if Attaching(pc) { AttachMoves(c, t, pc, m, ok, pc', m', x); }
    else if Detaching(pc) { DetachMoves(c, t, pc, m, pc', m', x); }
    else if Ending(pc) { EndMoves(c, t, pc, m, pick, pc', m', x); }
    else { DestroyMoves(c, t, pc, m, pick, pc', m', x); }
  }

  lemma AdvanceBound(c: Config, s: State, a: Action, s': State, k: Key, x: Hook)
    requires Inv(c, s) && Bound(s, k, x) && a.Advance? && Step(c, s, a) == Some(s')
    ensures Bound(s', k, x)
  {
    Advanced(c, s, a, s');
    NextMoves(c, a.t, s.threads[a.t], s.m, a.pick, a.ok, s'.threads[a.t], s'.m, x);
    MovedBound(s, a.t, s', k, x);
  }

  lemma MovedBound(s: State, t: Tid, s': State, k: Key, x: Hook)
    requires HooksOk(s.m.tb.conditions, s.m.hooks) && Bound(s, k, x) && t < |s.threads| == |s'.threads|
    requires forall u :: 0 <= u < |s.threads| && u != t ==> s'.threads[u] == s.threads[u]
    requires Moves(t, s.threads[t], s.m, s'.threads[t], s'.m, x)
    requires s.m.hooks.place[x].Stored? && s'.m.hooks.place[x] == InHand(t) ==> !Offering(s'.threads[t])
    ensures Bound(s', k, x)
  {
  }

  lemma CallBound(c: Config, s: State, a: Action, s': State, k: Key, x: Hook)
    requires Inv(c, s) && Bound(s, k, x) && Call(c, s, a) == Some(s')
    ensures Bound(s', k, x)
  {
    if !a.NewWaitSet? && !a.NewGuard? { assert OwnsHook(a.t, s.m.hooks.place, None); }
  }

  lemma {:induction false} StaysBound(c: Config, acts: seq<Action>, s: State, more: seq<Action>, s': State, k: Key, x: Hook)
    requires Reaches(c, acts, s) && Bound(s, k, x) && Run(c, acts + more) == Some(s')
    ensures Bound(s', k, x)
  {
    if more == [] {
      assert acts + more == acts;
    } else {
      var less, a := more[..|more| - 1], more[|more| - 1];
      assert acts + more == acts + less + [a];
      var s1 := LastStep(c, acts + less, a, s');
      StaysBound(c, acts, s, less, s1, k, x);
      RunKeepsInv(c, acts + less, s1);
      if a.Advance? { AdvanceBound(c, s1, a, s', k, x); } else { CallBound(c, s1, a, s', k, x); }
    }
  }

  /** Once an attachment is made, whatever happens afterwards: when no call is in progress
      its hook has been fired exactly if the attachment does not stand any more. */
  lemma {:induction false} AttachedHookFires(c: Config, acts: seq<Action>, s: State, more: seq<Action>, s': State, k: Key)
    requires Reaches(c, acts, s) && k in s.m.tb.conditions && k !in s.m.tb.pending
    requires Run(c, acts + more) == Some(s') && Quiet(s')
    ensures var x := s.m.tb.conditions[k];
            s'.m.hooks.fired[x] == if k in s'.m.tb.conditions && s'.m.tb.conditions[k] == x then 0 else 1
  {
    var x := s.m.tb.conditions[k];
    RunKeepsInv(c, acts, s);
    RunKeepsInv(c, acts + more, s');
    assert Bound(s, k, x);
    StaysBound(c, acts, s, more, s', k, x);
    QuietBound(c, s', k, x);
  }

  lemma QuietBound(c: Config, s: State, k: Key, x: Hook)
    requires Inv(c, s) && Quiet(s) && Bound(s, k, x)
    ensures s.m.hooks.fired[x] == if k in s.m.tb.conditions && s.m.tb.conditions[k] == x then 0 else 1
  {
    var place := s.m.hooks.place;
    forall t | 0 <= t < |s.threads| ensures OwnsHook(t, place, None) { assert Mine(t, s.threads[t], s.m); }
    assert place[x].InHand? ==> !OwnsHook(place[x].t, place, None);
  }

  // ---- A call alone ---------------------------------------------------------------------

  /** `n` steps of thread `t`. */
  function Solo(t: Tid, n: nat): seq<Action> {
    if n == 0 then [] else Solo(t, n - 1) + [Advance(t, 0, true)]
  }

  lemma SoloStep(c: Config, acts: seq<Action>, n: nat, threads: seq<Pc>, t: Tid, pc: Pc, m: Memory, pc': Pc, m': Memory)
    requires t < |threads| && Run(c, acts + Solo(t, n)) == Some(State(threads[t := pc], m))
    requires Next(c, t, pc, m, 0, true) == Some((pc', m'))
    ensures Run(c, acts + Solo(t, n + 1)) == Some(State(threads[t := pc'], m'))
  {
    var s, s' := State(threads[t := pc], m), State(threads[t := pc'], m');
    assert acts + Solo(t, n + 1) == acts + Solo(t, n) + [Advance(t, 0, true)];
    assert threads[t := pc][t := pc'] == threads[t := pc'];
    OneStep(c, acts + Solo(t, n), s, Advance(t, 0, true), s');
  }

  lemma Called(c: Config, acts: seq<Action>, s: State, a: Action, s': State, t: Tid)
    requires Run(c, acts) == Some(s) && Step(c, s, a) == Some(s')
    ensures Run(c, acts + [a] + Solo(t, 0)) == Some(s')
  {
    var more := acts + [a];
    assert more + Solo(t, 0) == more && more[..|acts|] == acts;
  }

  /** What a call finds that may begin on a WaitSet whose mutex is free. */
  lemma Found(c: Config, s: State, w: WaitSet, g: Guard)
    requires Inv(c, s) && w in s.m.ws.counts && w !in s.m.ws.ender && w !in s.m.locks
    ensures w !in s.m.ws.freed && !s.m.fault && (w, g) !in s.m.tb.pending
    ensures (w, g) in s.m.tb.conditions ==>
              g !in s.m.gs.freed && (w, g) !in s.m.tb.hands && Attached(w, g) in s.m.gs.refs && g in s.m.gs.counts && s.m.gs.counts[g] > 0
    ensures (w, g) in s.m.tb.conditions ==> s.m.tb.conditions[(w, g)] in s.m.hooks.place
  {
    assert OwnWaitSet(w) in s.m.ws.refs && OwnWaitSet(w) in To(s.m.ws.refs, w);
    if (w, g) in s.m.tb.conditions {
      EntryAlive(s.m, (w, g));
      assert Attached(w, g) in To(s.m.gs.refs, g);
    }
  }

  /** Memory without the entry: its reference is dropped and its hook fired. */
  function Detached(m: Memory, w: WaitSet, g: Guard): Memory
    requires (w, g) in m.tb.conditions && g in m.gs.counts && m.gs.counts[g] > 0
  {
    var x := m.tb.conditions[(w, g)];
    m.(tb := m.tb.(conditions := m.tb.conditions - {(w, g)}, registered := m.tb.registered - {(w, g)}),
       gs := m.gs.(refs := m.gs.refs - {Attached(w, g)}, counts := m.gs.counts[g := m.gs.counts[g] - 1],
                   freed := if m.gs.counts[g] == 1 then m.gs.freed + {g} else m.gs.freed),
       hooks := Hooks(m.hooks.next, m.hooks.place[x := Fired], m.hooks.fired + multiset{x}))
  }

  lemma DetachSteps(c: Config, t: Tid, w: WaitSet, g: Guard, x: Hook, m: Memory)
    requires w !in m.ws.freed
    ensures w !in m.locks ==> Next(c, t, DetachLock(w, g), m, 0, true) == Some((DetachRemove(w, g), Lock(m, w, t)))
    ensures (w, g) in m.tb.conditions && m.tb.conditions[(w, g)] == x && g !in m.gs.freed ==>
              Next(c, t, DetachRemove(w, g), m, 0, true) ==
              Some((DetachRelease(w, g, x), Remove(Unregister(m, (w, g)), (w, g), t)))
    ensures (w, g) !in m.tb.conditions ==> Next(c, t, DetachRemove(w, g), m, 0, true) == Some((DetachUnlock(w, None), m))
    ensures Next(c, t, DetachRelease(w, g, x), m, 0, true) == Some((DetachUnlock(w, Some(x)), LetGo(c, m, (w, g))))
    ensures Next(c, t, DetachUnlock(w, Some(x)), m, 0, true) == Some((DetachFire(x), Unlock(m, w)))
    ensures Next(c, t, DetachUnlock(w, None), m, 0, true) == Some((Idle, Unlock(m, w)))
    ensures Next(c, t, DetachFire(x), m, 0, true) == Some((Idle, Fire(m, x)))
  {
  }

  lemma DetachedIs(c: Config, t: Tid, w: WaitSet, g: Guard, m: Memory)
    requires c.attachRef && w !in m.locks && (w, g) in m.tb.conditions && (w, g) !in m.tb.hands
    requires g in m.gs.counts && m.gs.counts[g] > 0 && g !in m.gs.freed
    ensures var x := m.tb.conditions[(w, g)];
            var m2 := Remove(Unregister(Lock(m, w, t), (w, g)), (w, g), t);
            Fire(Unlock(LetGo(c, m2, (w, g)), w), x) == Detached(m, w, g)
  {
    var x := m.tb.conditions[(w, g)];
    assert m.locks[w := t] - {w} == m.locks;
    assert m.tb.hands[(w, g) := t] - {(w, g)} == m.tb.hands;
    assert m.hooks.place[x := InHand(t)][x := Fired] == m.hooks.place[x := Fired];
  }

  /** A whole detach alone: an entry goes, with its listing and its reference, and its
      hook is fired; nothing else changes, and nothing at all if there is no entry. */
  lemma {:induction false} DetachAlone(c: Config, acts: seq<Action>, s: State, t: Tid, w: WaitSet, g: Guard)
    requires Reaches(c, acts, s) && Idling(s, t) && w in s.m.ws.counts && w !in s.m.ws.ender && w !in s.m.locks
    ensures var k, begun := (w, g), acts + [CallDetach(t, w, g)];
            && (k !in s.m.tb.conditions ==> Run(c, begun + Solo(t, 3)) == Some(s))
            && (k in s.m.tb.conditions ==>
                  && g in s.m.gs.counts && s.m.gs.counts[g] > 0
                  && Run(c, begun + Solo(t, 5)) == Some(s.(m := Detached(s.m, w, g))))
  {
    RunKeepsInv(c, acts, s);
    Found(c, s, w, g);
    DetachRuns(c, acts, s, t, w, g);
  }

  lemma DetachRuns(c: Config, acts: seq<Action>, s: State, t: Tid, w: WaitSet, g: Guard)
    requires Reaches(c, acts, s) && Idling(s, t) && w in s.m.ws.counts && w !in s.m.ws.ender && w !in s.m.locks
    requires w !in s.m.ws.freed
    requires (w, g) in s.m.tb.conditions ==>
               g !in s.m.gs.freed && (w, g) !in s.m.tb.hands && g in s.m.gs.counts && s.m.gs.counts[g] > 0
    ensures var begun := acts + [CallDetach(t, w, g)];
            && ((w, g) !in s.m.tb.conditions ==> Run(c, begun + Solo(t, 3)) == Some(s))
            && ((w, g) in s.m.tb.conditions ==> Run(c, begun + Solo(t, 5)) == Some(s.(m := Detached(s.m, w, g))))
  {
    var begun, m := acts + [CallDetach(t, w, g)], s.m;
    Called(c, acts, s, CallDetach(t, w, g), s.(threads := s.threads[t := DetachLock(w, g)]), t);
    DetachSteps(c, t, w, g, 0, m);
    var m1 := Lock(m, w, t);
    SoloStep(c, begun, 0, s.threads, t, DetachLock(w, g), m, DetachRemove(w, g), m1);
    if (w, g) in m.tb.conditions {
      DetachesEntry(c, begun, s, t, w, g);
    } else {
      DetachesNothing(c, begun, s, t, w, g);
    }
  }

  lemma DetachesNothing(c: Config, begun: seq<Action>, s: State, t: Tid, w: WaitSet, g: Guard)
    requires Idling(s, t) && w !in s.m.locks && w !in s.m.ws.freed && (w, g) !in s.m.tb.conditions
    requires Run(c, begun + Solo(t, 1)) == Some(State(s.threads[t := DetachRemove(w, g)], Lock(s.m, w, t)))
    ensures Run(c, begun + Solo(t, 3)) == Some(s)
  {
    var m1 := Lock(s.m, w, t);
    DetachSteps(c, t, w, g, 0, m1);
    SoloStep(c, begun, 1, s.threads, t, DetachRemove(w, g), m1, DetachUnlock(w, None), m1);
    SoloStep(c, begun, 2, s.threads, t, DetachUnlock(w, None), m1, Idle, Unlock(m1, w));
    assert s.m.locks[w := t] - {w} == s.m.locks;
    assert s.threads[t := Idle] == s.threads;
  }

  lemma DetachesEntry(c: Config, begun: seq<Action>, s: State, t: Tid, w: WaitSet, g: Guard)
    requires c.attachRef && Idling(s, t) && w !in s.m.locks && w !in s.m.ws.freed && g !in s.m.gs.freed
    requires (w, g) in s.m.tb.conditions && (w, g) !in s.m.tb.hands && g in s.m.gs.counts && s.m.gs.counts[g] > 0
    requires Run(c, begun + Solo(t, 1)) == Some(State(s.threads[t := DetachRemove(w, g)], Lock(s.m, w, t)))
    ensures Run(c, begun + Solo(t, 5)) == Some(s.(m := Detached(s.m, w, g)))
  {
    var x, m1 := s.m.tb.conditions[(w, g)], Lock(s.m, w, t);
    var m2 := Remove(Unregister(m1, (w, g)), (w, g), t);
    var m3 := LetGo(c, m2, (w, g));
    var m4 := Unlock(m3, w);
    DetachSteps(c, t, w, g, x, m1);
    SoloStep(c, begun, 1, s.threads, t, DetachRemove(w, g), m1, DetachRelease(w, g, x), m2);
    DetachSteps(c, t, w, g, x, m2);
    SoloStep(c, begun, 2, s.threads, t, DetachRelease(w, g, x), m2, DetachUnlock(w, Some(x)), m3);
    DetachSteps(c, t, w, g, x, m3);
    SoloStep(c, begun, 3, s.threads, t, DetachUnlock(w, Some(x)), m3, DetachFire(x), m4);
    DetachSteps(c, t, w, g, x, m4);
    SoloStep(c, begun, 4, s.threads, t, DetachFire(x), m4, Idle, Fire(m4, x));
    DetachedIs(c, t, w, g, s.m);
    assert s.threads[t := Idle] == s.threads;
  }

  /** Memory with a new attachment and the hook offered for it. */
  function WithAttachment(m: Memory, w: WaitSet, g: Guard): Memory
    requires g in m.gs.counts
  {
    var k, x := (w, g), m.hooks.next;
    m.(tb := m.tb.(conditions := m.tb.conditions[k := x], registered := m.tb.registered + {k}),
       gs := m.gs.(refs := m.gs.refs[Attached(w, g) := g], counts := m.gs.counts[g := m.gs.counts[g] + 1]),
       hooks := Hooks(x + 1, m.hooks.place[x := Stored(k)], m.hooks.fired))
  }

  /** Memory in which the offered hook was refused, and nothing else happened. */
  function Turned(m: Memory): Memory {
    m.(hooks := Hooks(m.hooks.next + 1, m.hooks.place[m.hooks.next := Refused], m.hooks.fired))
  }

  predicate Room(c: Config, m: Memory, g: Guard) {
    |set k | k in m.tb.registered && k.1 == g| < c.slots
  }

  lemma AttachStep(c: Config, t: Tid, w: WaitSet, g: Guard, x: Hook, m: Memory)
    requires w !in m.ws.freed && g !in m.gs.freed && c.attachRef
    ensures w !in m.locks ==> Next(c, t, AttachLock(w, g, x), m, 0, true) == Some((AttachAppend(w, g, x), Lock(m, w, t)))
    ensures (w, g) in m.tb.conditions ==> Next(c, t, AttachAppend(w, g, x), m, 0, true) == Some((AttachUnlock(w), Refuse(m, x)))
    ensures (w, g) !in m.tb.conditions ==>
              Next(c, t, AttachAppend(w, g, x), m, 0, true) == Some((AttachAcquire(w, g, x), Append(m, (w, g), x, t)))
    ensures g !in m.gs.closed && Count(m.gs.counts, g) > 0 ==>
              Next(c, t, AttachAcquire(w, g, x), m, 0, true) == Some((AttachRegister(w, g, x), Acquire(m, (w, g), t)))
    ensures Next(c, t, AttachUnlock(w), m, 0, true) == Some((Idle, Unlock(m, w)))
  {
  }

  lemma RegisterSteps(c: Config, t: Tid, w: WaitSet, g: Guard, x: Hook, m: Memory)
    requires w !in m.ws.freed && g !in m.gs.freed && c.attachRef
    ensures Room(c, m, g) ==>
              Next(c, t, AttachRegister(w, g, x), m, 0, true) == Some((AttachUnlock(w), Register(m, (w, g))))
    ensures !Room(c, m, g) ==> Next(c, t, AttachRegister(w, g, x), m, 0, true) == Some((AttachDrop(w, g, x), m))
    ensures Next(c, t, AttachDrop(w, g, x), m, 0, true) == Some((AttachRollBack(w, g, x), LetGo(c, m, (w, g))))
    ensures Next(c, t, AttachRollBack(w, g, x), m, 0, true) == Some((AttachUnlock(w), RollBack(m, (w, g), x)))
  {
  }

  /** What an attach finds whose guard is not being torn down. */
  lemma GuardFound(c: Config, s: State, w: WaitSet, g: Guard)
    requires Inv(c, s) && w in s.m.ws.counts && w !in s.m.ws.ender && w !in s.m.locks
    requires g in s.m.gs.counts && g !in s.m.gs.destroyer
    ensures g !in s.m.gs.closed && g !in s.m.gs.freed && s.m.gs.counts[g] > 0
    ensures (w, g) !in s.m.tb.hands && s.m.hooks.next !in s.m.hooks.place
    ensures (w, g) !in s.m.tb.conditions ==> Attached(w, g) !in s.m.gs.refs
    ensures (w, g) !in s.m.tb.conditions ==> (w, g) !in s.m.tb.registered
  {
    assert OwnWaitSet(w) in s.m.ws.refs && OwnWaitSet(w) in To(s.m.ws.refs, w);
    assert OwnGuard(g) in s.m.gs.refs && OwnGuard(g) in To(s.m.gs.refs, g);
  }

  lemma AttachedIs(c: Config, t: Tid, w: WaitSet, g: Guard, m: Memory)
    requires w !in m.locks && (w, g) !in m.tb.hands && (w, g) !in m.tb.pending && g in m.gs.counts
    ensures var k, x := (w, g), m.hooks.next;
            Unlock(Register(Acquire(Append(Lock(Offer(m, t), w, t), k, x, t), k, t), k), w) == WithAttachment(m, w, g)
  {
    var k, x := (w, g), m.hooks.next;
    assert m.locks[w := t] - {w} == m.locks;
    assert m.tb.hands[k := t] - {k} == m.tb.hands;
    assert m.tb.pending[k := t] - {k} == m.tb.pending;
    assert m.hooks.place[x := InHand(t)][x := Stored(k)] == m.hooks.place[x := Stored(k)];
  }

  lemma FullIs(c: Config, t: Tid, w: WaitSet, g: Guard, m: Memory)
    requires c.attachRef && w !in m.locks && (w, g) !in m.tb.hands && (w, g) !in m.tb.pending && (w, g) !in m.tb.conditions
    requires g in m.gs.counts && m.gs.counts[g] > 0 && g !in m.gs.freed && Attached(w, g) !in m.gs.refs
    ensures var k, x := (w, g), m.hooks.next;
            var m3 := Acquire(Append(Lock(Offer(m, t), w, t), k, x, t), k, t);
            Unlock(RollBack(LetGo(c, m3, k), k, x), w) == Turned(m)
  {
    var k, x := (w, g), m.hooks.next;
    TakenAndDropped(m.gs, w, g);
    assert m.locks[w := t] - {w} == m.locks;
    assert m.tb.hands[k := t] - {k} == m.tb.hands;
    assert m.tb.pending[k := t] - {k} == m.tb.pending;
    assert m.tb.conditions[k := x] - {k} == m.tb.conditions;
    assert m.hooks.place[x := InHand(t)][x := Stored(k)][x := Refused] == m.hooks.place[x := Refused];
  }

  lemma TakenAndDropped(gs: Guards, w: WaitSet, g: Guard)
    requires g in gs.counts && gs.counts[g] > 0 && Attached(w, g) !in gs.refs
    ensures DropGuardRef(AddGuardRef(gs, Attached(w, g)), Attached(w, g)) == gs
  {
    var h := Attached(w, g);
    assert gs.refs[h := g] - {h} == gs.refs;
    assert gs.counts[g := gs.counts[g] + 1][g := gs.counts[g]] == gs.counts;
  }

  lemma RefusedIs(t: Tid, w: WaitSet, m: Memory)
    requires w !in m.locks
    ensures Unlock(Refuse(Lock(Offer(m, t), w, t), m.hooks.next), w) == Turned(m)
  {
    assert m.locks[w := t] - {w} == m.locks;
    assert m.hooks.place[m.hooks.next := InHand(t)][m.hooks.next := Refused] == m.hooks.place[m.hooks.next := Refused];
  }

  /** A whole attach alone, memory sufficing: a guard already attached and one whose list
      is full leave all but the refused hook as it was; otherwise the entry, its listing,
      its reference and its stored hook are added and nothing else changes. */
  lemma {:induction false} AttachAlone(c: Config, acts: seq<Action>, s: State, t: Tid, w: WaitSet, g: Guard)
    requires Reaches(c, acts, s) && Idling(s, t) && w in s.m.ws.counts && w !in s.m.ws.ender && w !in s.m.locks
    requires g in s.m.gs.counts && g !in s.m.gs.destroyer
    ensures var k, begun := (w, g), acts + [CallAttach(t, w, g)];
            && (k in s.m.tb.conditions ==> Run(c, begun + Solo(t, 3)) == Some(s.(m := Turned(s.m))))
            && (k !in s.m.tb.conditions && Room(c, s.m, g) ==>
                  Run(c, begun + Solo(t, 5)) == Some(s.(m := WithAttachment(s.m, w, g))))
            && (k !in s.m.tb.conditions && !Room(c, s.m, g) ==> Run(c, begun + Solo(t, 7)) == Some(s.(m := Turned(s.m))))
  {
    RunKeepsInv(c, acts, s);
    Found(c, s, w, g);
    GuardFound(c, s, w, g);
    AttachRuns(c, acts, s, t, w, g);
  }

  lemma AttachRuns(c: Config, acts: seq<Action>, s: State, t: Tid, w: WaitSet, g: Guard)
    requires Reaches(c, acts, s) && Idling(s, t) && w in s.m.ws.counts && w !in s.m.ws.ender && w !in s.m.locks
    requires g in s.m.gs.counts && g !in s.m.gs.destroyer && w !in s.m.ws.freed && g !in s.m.gs.freed && g !in s.m.gs.closed
    requires s.m.gs.counts[g] > 0
    requires (w, g) !in s.m.tb.conditions ==>
               (w, g) !in s.m.tb.hands && (w, g) !in s.m.tb.pending && Attached(w, g) !in s.m.gs.refs
    ensures var k, begun := (w, g), acts + [CallAttach(t, w, g)];
            && (k in s.m.tb.conditions ==> Run(c, begun + Solo(t, 3)) == Some(s.(m := Turned(s.m))))
            && (k !in s.m.tb.conditions && Room(c, s.m, g) ==>
                  Run(c, begun + Solo(t, 5)) == Some(s.(m := WithAttachment(s.m, w, g))))
            && (k !in s.m.tb.conditions && !Room(c, s.m, g) ==> Run(c, begun + Solo(t, 7)) == Some(s.(m := Turned(s.m))))
  {
    var begun, x, m := acts + [CallAttach(t, w, g)], s.m.hooks.next, Offer(s.m, t);
    Called(c, acts, s, CallAttach(t, w, g), State(s.threads[t := AttachLock(w, g, x)], m), t);
    AttachStep(c, t, w, g, x, m);
    var m1 := Lock(m, w, t);
    SoloStep(c, begun, 0, s.threads, t, AttachLock(w, g, x), m, AttachAppend(w, g, x), m1);
    AttachStep(c, t, w, g, x, m1);
    if (w, g) in s.m.tb.conditions {
      var m2 := Refuse(m1, x);
      SoloStep(c, begun, 1, s.threads, t, AttachAppend(w, g, x), m1, AttachUnlock(w), m2);
      AttachStep(c, t, w, g, x, m2);
      SoloStep(c, begun, 2, s.threads, t, AttachUnlock(w), m2, Idle, Unlock(m2, w));
      RefusedIs(t, w, s.m);
      assert s.threads[t := Idle] == s.threads;
    } else {
      var m2 := Append(m1, (w, g), x, t);
      SoloStep(c, begun, 1, s.threads, t, AttachAppend(w, g, x), m1, AttachAcquire(w, g, x), m2);
      AttachesEntry(c, begun, s, t, w, g);
    }
  }

  lemma AttachesEntry(c: Config, begun: seq<Action>, s: State, t: Tid, w: WaitSet, g: Guard)
    requires c.attachRef && Idling(s, t) && w !in s.m.locks && w !in s.m.ws.freed && g !in s.m.gs.freed && g !in s.m.gs.closed
    requires (w, g) !in s.m.tb.conditions && (w, g) !in s.m.tb.hands && (w, g) !in s.m.tb.pending
    requires g in s.m.gs.counts && s.m.gs.counts[g] > 0 && Attached(w, g) !in s.m.gs.refs
    requires var x := s.m.hooks.next;
             Run(c, begun + Solo(t, 2)) ==
             Some(State(s.threads[t := AttachAcquire(w, g, x)], Append(Lock(Offer(s.m, t), w, t), (w, g), x, t)))
    ensures Room(c, s.m, g) ==> Run(c, begun + Solo(t, 5)) == Some(s.(m := WithAttachment(s.m, w, g)))
    ensures !Room(c, s.m, g) ==> Run(c, begun + Solo(t, 7)) == Some(s.(m := Turned(s.m)))
  {
    var k, x := (w, g), s.m.hooks.next;
    var m2 := Append(Lock(Offer(s.m, t), w, t), k, x, t);
    var m3 := Acquire(m2, k, t);
    AttachStep(c, t, w, g, x, m2);
    SoloStep(c, begun, 2, s.threads, t, AttachAcquire(w, g, x), m2, AttachRegister(w, g, x), m3);
    RegisterSteps(c, t, w, g, x, m3);
    if Room(c, s.m, g) {
      var m4 := Register(m3, k);
      SoloStep(c, begun, 3, s.threads, t, AttachRegister(w, g, x), m3, AttachUnlock(w), m4);
      AttachStep(c, t, w, g, x, m4);
      SoloStep(c, begun, 4, s.threads, t, AttachUnlock(w), m4, Idle, Unlock(m4, w));
      AttachedIs(c, t, w, g, s.m);
      assert s.threads[t := Idle] == s.threads;
    } else {
      SoloStep(c, begun, 3, s.threads, t, AttachRegister(w, g, x), m3, AttachDrop(w, g, x), m3);
      TurnsBack(c, begun, s, t, w, g, m3);
    }
  }

  lemma TurnsBack(c: Config, begun: seq<Action>, s: State, t: Tid, w: WaitSet, g: Guard, m3: Memory)
    requires c.attachRef && Idling(s, t) && w !in s.m.locks && w !in s.m.ws.freed && g !in s.m.gs.freed
    requires (w, g) !in s.m.tb.conditions && (w, g) !in s.m.tb.hands && (w, g) !in s.m.tb.pending
    requires g in s.m.gs.counts && s.m.gs.counts[g] > 0 && Attached(w, g) !in s.m.gs.refs
    requires m3 == Acquire(Append(Lock(Offer(s.m, t), w, t), (w, g), s.m.hooks.next, t), (w, g), t)
    requires Run(c, begun + Solo(t, 4)) == Some(State(s.threads[t := AttachDrop(w, g, s.m.hooks.next)], m3))
    ensures Run(c, begun + Solo(t, 7)) == Some(s.(m := Turned(s.m)))
  {
    var k, x := (w, g), s.m.hooks.next;
    var m4 := LetGo(c, m3, k);
    var m5 := RollBack(m4, k, x);
    assert g !in m4.gs.freed;
    RegisterSteps(c, t, w, g, x, m3);
    SoloStep(c, begun, 4, s.threads, t, AttachDrop(w, g, x), m3, AttachRollBack(w, g, x), m4);
    RegisterSteps(c, t, w, g, x, m4);
    SoloStep(c, begun, 5, s.threads, t, AttachRollBack(w, g, x), m4, AttachUnlock(w), m5);
    AttachStep(c, t, w, g, x, m5);
    SoloStep(c, begun, 6, s.threads, t, AttachUnlock(w), m5, Idle, Unlock(m5, w));
    FullIs(c, t, w, g, s.m);
    assert s.threads[t := Idle] == s.threads;
  }
}
