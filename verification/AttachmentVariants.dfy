/** Why attach_condition is written as it is: each of its three choices is
    necessary. The runs below are concrete interleavings of the altered protocol. */
module AttachmentVariants {
  import opened Base
  import opened Attachment

  /** A context that nobody will ever free: no call, release or record has it. */
  ghost predicate Leak(s: State) {
    Quiescent(s) && exists x :: x in s.heap && x !in s.attached.Values
  }

  lemma Then(cfg: Config, acts: seq<Action>, s: State, a: Action, s': State) returns (more: seq<Action>)
    requires Run(cfg, acts) == Some(s) && Step(cfg, s, a) == Some(s')
    ensures more == acts + [a] && Run(cfg, more) == Some(s')
  {
    more := acts + [a];
    assert more[..|more| - 1] == acts;
  }

  /** One WaitSet, one guard condition and two references to it. */
  ghost function World(cfg: Config): State {
    Init(cfg).(waitsets := {0}, conds := map[0 := Condition(true, false)],
               refs := map[App(0) := 0, App(1) := 0], counts := map[0 := 2])
  }

  lemma Setup(cfg: Config) returns (acts: seq<Action>)
    ensures Run(cfg, acts) == Some(World(cfg))
  {
    var s0 := Init(cfg);
    assert Run(cfg, []) == Some(s0);
    var s1 := s0.(waitsets := {0});
    assert {} + {0} == {0};
    acts := Then(cfg, [], s0, Use(NewWaitSet(0)), s1);
    var s2 := s1.(conds := map[0 := Condition(true, false)], refs := map[App(0) := 0], counts := map[0 := 1]);
    acts := Then(cfg, acts, s1, Use(NewCondition(0, true, 0)), s2);
    assert s2.refs[App(1) := 0] == World(cfg).refs && s2.counts[0 := 2] == World(cfg).counts;
    acts := Then(cfg, acts, s2, Use(CopyRef(0, 1)), World(cfg));
  }

  /** Thread 0 is about to offer context `x`, made from application reference `i`. */
  lemma CallAndAlloc(cfg: Config, acts: seq<Action>, s: State, i: nat) returns (more: seq<Action>, s': State)
    requires cfg.binding.Cpp? && Run(cfg, acts) == Some(s)
    requires 0 < |s.threads| && s.threads[0].Idle? && 0 in s.waitsets
    requires App(i) in s.refs && s.refs[App(i)] == 0
    ensures Run(cfg, more) == Some(s')
    ensures s' == s.(threads := s.threads[0 := Ready(0, 0, s.next)], next := s.next + 1,
                     refs := (s.refs - {App(i)} - {Arg(0)})[InContext(s.next) := 0],
                     heap := s.heap[s.next := Ctx(0, s.default, true)],
                     outstanding := s.outstanding[s.default := Outstanding(s.outstanding, s.default) + 1],
                     owner := s.owner[s.next := Caller(0)])
  {
    var s1 := DoCall(s, 0, 0, i);
    more := Then(cfg, acts, s, Attach(Call(0, 0, i)), s1);
    s' := DoAlloc(cfg, s1, 0);
    more := Then(cfg, more, s1, Attach(Alloc(0, true)), s');
    assert s1.refs - {Arg(0)} == s.refs - {App(i)} - {Arg(0)};
    assert s'.threads == s.threads[0 := Ready(0, 0, s.next)];
  }

  /** Re-reading the default resource at free time returns memory to a resource it
      did not come from as soon as the default changes during an attachment. */
  lemma RereadingFaults(cfg: Config)
    requires cfg.binding.Cpp? && cfg.threads > 0 && !cfg.captured
    ensures exists acts :: Run(cfg, acts).Some? && Run(cfg, acts).value.fault
  {
    var acts := Setup(cfg);
    var s: State;
    acts, s := CallAndAlloc(cfg, acts, World(cfg), 1);
    var s1 := DoOffer(s, 0);
    acts := Then(cfg, acts, s, Attach(Offer(0)), s1);
    var s2 := s1.(default := 1);
    acts := Then(cfg, acts, s1, Use(SetDefault(1)), s2);
    var s3 := End(s2, {(0, 0)});
    acts := Then(cfg, acts, s2, Detach(0, 0), s3);
    assert 0 in (set k | k in {(0, 0)} :: s2.attached[k]) by { assert s2.attached[(0, 0)] == 0; }
    ReleasedElsewhere(cfg, acts, s3);
  }

  /** A context from resource 0 is released when the default is another one. */
  lemma ReleasedElsewhere(cfg: Config, acts: seq<Action>, s: State)
    requires !cfg.captured && Run(cfg, acts) == Some(s) && 0 in s.pending && 0 in s.heap
    requires s.default == 1 && 1 !in s.outstanding
    ensures exists more :: Run(cfg, more).Some? && Run(cfg, more).value.fault
  {
    var s' := Free(cfg, s.(pending := s.pending - multiset{0}), 0, true);
    ReleaseIsFree(cfg, s, 0, true);
    var more := Then(cfg, acts, s, Release(0, true), s');
    FreedElsewhere(cfg, Unpin(cfg, s.(pending := s.pending - multiset{0}), 0, true));
    assert s'.fault;
  }

  lemma FreedElsewhere(cfg: Config, s: State)
    requires !cfg.captured && s.default == 1 && 1 !in s.outstanding
    ensures FreeMemory(cfg, s, 0).fault
  {
  }

  /** With both answers tested no resource is ever confused exactly when the context
      remembers its own. */
  lemma FaultFreeIffCaptured(cfg: Config)
    requires cfg.binding.Cpp? && cfg.threads > 0 && cfg.cleanup.Both?
    ensures cfg.captured <==> forall acts :: Run(cfg, acts).Some? ==> !Run(cfg, acts).value.fault
  {
    if cfg.captured {
      forall acts | Run(cfg, acts).Some? ensures !Run(cfg, acts).value.fault {
        ReleasedExactlyOnce(cfg, acts, Run(cfg, acts).value);
      }
    } else {
      RereadingFaults(cfg);
    }
  }

  /** Looking at out_accepted alone leaks the context of an attach that failed after
      the core had already set it. */
  lemma AcceptedAloneLeaks(cfg: Config)
    requires cfg.binding.Cpp? && cfg.threads > 0 && cfg.cleanup.AcceptedOnly?
    ensures exists acts :: Run(cfg, acts).Some? && Leak(Run(cfg, acts).value)
  {
    var acts := Setup(cfg);
    var s: State;
    acts, s := CallAndAlloc(cfg, acts, World(cfg), 1);
    var s1 := At(s, 0, Answered(0, 0, 0, OUT_OF_RESOURCES, true));
    acts := Then(cfg, acts, s, Attach(Refuse(0, OUT_OF_RESOURCES, true)), s1);
    var t: State;
    acts, t := SettleAndLeave(cfg, acts, s1);
    assert 0 in t.heap && t.attached == map[];
    assert Leak(t);
  }

  /** Looking at the return code alone leaks the context of every duplicate attach. */
  lemma RcAloneLeaks(cfg: Config)
    requires cfg.binding.Cpp? && cfg.threads > 0 && cfg.cleanup.RcOnly?
    ensures exists acts :: Run(cfg, acts).Some? && Leak(Run(cfg, acts).value)
  {
    var acts := Setup(cfg);
    var s, t: State;
    acts, s := CallAndAlloc(cfg, acts, World(cfg), 1);
    var s1 := DoOffer(s, 0);
    acts := Then(cfg, acts, s, Attach(Offer(0)), s1);
    acts, t := SettleAndLeave(cfg, acts, s1);
    acts, s := CallAndAlloc(cfg, acts, t, 0);
    assert Key(s.threads[0]) in s.attached;
    var s2 := DoOffer(s, 0);
    acts := Then(cfg, acts, s, Attach(Offer(0)), s2);
    acts, t := SettleAndLeave(cfg, acts, s2);
    assert 1 in t.heap && t.attached == map[(0, 0) := 0];
    assert Leak(t);
  }

  /** A caller that takes the answer for a stored context keeps it and returns. */
  lemma SettleAndLeave(cfg: Config, acts: seq<Action>, s: State) returns (more: seq<Action>, s': State)
    requires cfg.binding.Cpp? && Run(cfg, acts) == Some(s)
    requires 0 < |s.threads| && s.threads[0].Answered? && Arg(0) !in s.refs
    requires KeepsContext(cfg.cleanup, s.threads[0].rc, s.threads[0].accepted)
    ensures Run(cfg, more) == Some(s') && s' == s.(threads := s.threads[0 := Idle])
  {
    var s1 := At(s, 0, Done(s.threads[0].ws, s.threads[0].cond, s.threads[0].rc));
    assert DoSettle(cfg, s, 0) == s1;
    more := Then(cfg, acts, s, Attach(Settle(0)), s1);
    s' := At(s1, 0, Idle);
    assert Return(cfg, s1, 0) == s';
    more := Then(cfg, more, s1, Attach(Leave(0)), s');
    assert s'.threads == s.threads[0 := Idle];
  }

  /** Every context finds an owner exactly when both of the core's answers are tested. */
  lemma LeakFreeIffBothTested(cfg: Config)
    requires cfg.binding.Cpp? && cfg.threads > 0 && cfg.captured
    ensures cfg.cleanup.Both? <==> forall acts :: Run(cfg, acts).Some? ==> !Leak(Run(cfg, acts).value)
  {
    match cfg.cleanup
    case Both =>
      forall acts | Run(cfg, acts).Some? ensures !Leak(Run(cfg, acts).value) {
        ReleasedExactlyOnce(cfg, acts, Run(cfg, acts).value);
      }
    case RcOnly => RcAloneLeaks(cfg);
    case AcceptedOnly => AcceptedAloneLeaks(cfg);
  }
}
