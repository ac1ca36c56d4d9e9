/** What the calls and the ends of attachments do: an attach alone adds its attachment
    and nothing else, and each way an attachment ends hands over exactly its context. */
module AttachmentEffects {
  import opened Base
  import opened References
  import opened Attachment

  // ---- How attachments end ----------------------------------------------------------

  /** `s'` is `s` without the attachments `gone`, whose contexts await their release. */
  ghost predicate Without(s: State, gone: set<(WaitSet, Cond)>, s': State) {
    && s'.attached == s.attached - gone
    && (forall k :: k in gone && k in s.attached ==> s'.pending[s.attached[k]] == s.pending[s.attached[k]] + 1)
    && (forall x: CtxId :: (forall k :: k in gone && k in s.attached ==> s.attached[k] != x) ==> s'.pending[x] == s.pending[x])
    && s'.heap == s.heap && s'.refs == s.refs && s'.counts == s.counts && s'.threads == s.threads && s'.freed == s.freed
    && s'.outstanding == s.outstanding && s'.default == s.default && s'.next == s.next
  }

  function OfWaitSet(s: State, ws: WaitSet): set<(WaitSet, Cond)> {
    set k | k in s.attached && k.0 == ws
  }

  function OfCondition(s: State, c: Cond): set<(WaitSet, Cond)> {
    set k | k in s.attached && k.1 == c
  }

  lemma EndIs(s: State, gone: set<(WaitSet, Cond)>)
    requires gone <= s.attached.Keys
    ensures Without(s, gone, End(s, gone))
  {
    var xs := set k | k in gone :: s.attached[k];
    forall x: CtxId ensures End(s, gone).pending[x] == s.pending[x] + (if x in xs then 1 else 0) {}
  }

  /** A detach ends that attachment, a WaitSet's destruction all of its own, and a
      condition's destruction all of its own, each with its context and nothing else. */
  lemma {:induction false} EndsExactly(cfg: Config, acts: seq<Action>, s: State, a: Action, s': State)
    requires Reaches(cfg, acts, s) && Step(cfg, s, a) == Some(s')
    requires a.Detach? || a.DestroyWaitSet? || a.DestroyCondition?
    ensures a.Detach? ==> Without(s, {(a.ws, a.c)}, s') && s'.conds == s.conds && s'.waitsets == s.waitsets
    ensures a.DestroyWaitSet? ==>
              Without(s, OfWaitSet(s, a.ws), s') && s'.conds == s.conds && s'.waitsets == s.waitsets - {a.ws}
    ensures a.DestroyCondition? ==>
              && Without(s, OfCondition(s, a.c), s') && s'.waitsets == s.waitsets
              && a.c in s'.conds && s'.conds[a.c].destroyed && s'.conds - {a.c} == s.conds - {a.c}
  {
    match a
    case Detach(ws, c) => EndIs(s, {(ws, c)});
    case DestroyWaitSet(ws) => WaitSetEnds(s, ws);
    case DestroyCondition(c) => ConditionEnds(cfg, s, c);
  }

  lemma WaitSetEnds(s: State, ws: WaitSet)
    ensures Without(s, OfWaitSet(s, ws), End(s, OfWaitSet(s, ws)).(waitsets := s.waitsets - {ws}))
  {
    EndIs(s, OfWaitSet(s, ws));
  }

  lemma ConditionEnds(cfg: Config, s: State, c: Cond)
    requires c in s.conds
    ensures var s' := Destroy(s, c);
            && Without(s, OfCondition(s, c), s') && s'.waitsets == s.waitsets
            && c in s'.conds && s'.conds[c].destroyed && s'.conds - {c} == s.conds - {c}
  {
    EndIs(s.(conds := s.conds[c := s.conds[c].(destroyed := true)]), OfCondition(s, c));
  }

  /** Each of these is possible whenever the source allows it. */
  lemma CanEnd(cfg: Config, s: State, ws: WaitSet, c: Cond)
    ensures (ws, c) in s.attached ==> Step(cfg, s, Detach(ws, c)).Some?
    ensures ws in s.waitsets && !InUse(s, ws) ==> Step(cfg, s, DestroyWaitSet(ws)).Some?
    ensures c in s.conds && !s.conds[c].destroyed && (cfg.binding.Jni? || !s.conds[c].guard) ==>
              Step(cfg, s, DestroyCondition(c)).Some?
  {
  }

  // ---- An attach alone ---------------------------------------------------------------

  lemma OneStep(cfg: Config, acts: seq<Action>, s: State, a: Action, s': State) returns (more: seq<Action>)
    requires Run(cfg, acts) == Some(s) && Step(cfg, s, a) == Some(s')
    ensures more == acts + [a] && Run(cfg, more) == Some(s')
  {
    more := acts + [a];
    assert more[..|acts|] == acts;
  }

  /** A new attachment of condition `c`, which has taken over reference `i` of the
      application: its context lives in the default resource. */
  function WithAttachment(s: State, ws: WaitSet, c: Cond, i: nat): State {
    var x := s.next;
    s.(attached := s.attached[(ws, c) := x], next := x + 1, heap := s.heap[x := Ctx(c, s.default, true)],
       refs := (s.refs - {App(i)})[InContext(x) := c],
       outstanding := s.outstanding[s.default := Outstanding(s.outstanding, s.default) + 1],
       owner := s.owner[x := Stored((ws, c))])
  }

  /** The call may be made and is for a new attachment. */
  ghost predicate May(s: State, t: Tid, ws: WaitSet, i: nat) {
    && Idling(s, t) && ws in s.waitsets && App(i) in s.refs
    && s.refs[App(i)] in s.conds && !s.conds[s.refs[App(i)]].destroyed && (ws, s.refs[App(i)]) !in s.attached
  }

  /** Alone, and with memory sufficing, a call in either binding makes its attachment and
      comes back, and nothing else changes: the reference passed is now the context's. */
  lemma {:induction false} AttachAlone(cfg: Config, acts: seq<Action>, s: State, t: Tid, ws: WaitSet, i: nat) returns (more: seq<Action>)
    requires Reaches(cfg, acts, s) && May(s, t, ws, i)
    ensures Run(cfg, more) == Some(WithAttachment(s, ws, s.refs[App(i)], i))
  {
    RunKeepsInv(cfg, acts);
    Fresh(cfg, s, t, i);
    if cfg.binding.Cpp? { more := CppAttaches(cfg, acts, s, t, ws, i); } else { more := JniAttaches(cfg, acts, s, t, ws, i); }
  }

  lemma Fresh(cfg: Config, s: State, t: Tid, i: nat)
    requires Inv(cfg, s) && Idling(s, t) && App(i) in s.refs
    ensures Arg(t) !in s.refs && s.refs[App(i)] in s.counts && s.next !in s.heap && InContext(s.next) !in s.refs
  {
  }

  lemma Calls(cfg: Config, acts: seq<Action>, s: State, t: Tid, ws: WaitSet, i: nat) returns (more: seq<Action>, s': State)
    requires Run(cfg, acts) == Some(s) && May(s, t, ws, i) && Arg(t) !in s.refs
    ensures Run(cfg, more) == Some(s') && s' == DoAlloc(cfg, DoCall(s, t, ws, i), t)
  {
    var s1 := DoCall(s, t, ws, i);
    more := OneStep(cfg, acts, s, Attach(Call(t, ws, i)), s1);
    s' := DoAlloc(cfg, s1, t);
    more := OneStep(cfg, more, s1, Attach(Alloc(t, true)), s');
  }

  lemma CppAttaches(cfg: Config, acts: seq<Action>, s: State, t: Tid, ws: WaitSet, i: nat) returns (more: seq<Action>)
    requires Run(cfg, acts) == Some(s) && Faithful(cfg) && cfg.binding.Cpp? && May(s, t, ws, i)
    requires Arg(t) !in s.refs && s.next !in s.heap
    ensures Run(cfg, more) == Some(WithAttachment(s, ws, s.refs[App(i)], i))
  {
    var s2;
    more, s2 := Calls(cfg, acts, s, t, ws, i);
    var c, x := s.refs[App(i)], s.next;
    CppReady(cfg, s, t, ws, i, s2);
    CppStored(cfg, s, t, ws, i, s2);
    var s4 := WithAttachment(s, ws, c, i).(threads := s.threads[t := Done(ws, c, OK)]);
    more := Settles(cfg, more, s2, t, ws, c, x, s4);
    CppLeaves(cfg, s, t, ws, i, s4);
    more := OneStep(cfg, more, s4, Attach(Leave(t)), WithAttachment(s, ws, c, i));
  }

  /** A C++ call at `pc`, the argument moved into the new context. */
  function Moved(s: State, t: Tid, ws: WaitSet, i: nat, pc: Pc): State
    requires t < |s.threads| && App(i) in s.refs
  {
    var c, x := s.refs[App(i)], s.next;
    s.(threads := s.threads[t := pc], next := x + 1, heap := s.heap[x := Ctx(c, s.default, true)],
       refs := (s.refs - {App(i)})[InContext(x) := c],
       outstanding := s.outstanding[s.default := Outstanding(s.outstanding, s.default) + 1],
       owner := s.owner[x := Caller(t)])
  }

  lemma CppReady(cfg: Config, s: State, t: Tid, ws: WaitSet, i: nat, s': State)
    requires cfg.binding.Cpp? && May(s, t, ws, i) && Arg(t) !in s.refs
    requires s' == DoAlloc(cfg, DoCall(s, t, ws, i), t)
    ensures s' == Moved(s, t, ws, i, Ready(ws, s.refs[App(i)], s.next))
  {
    var c, x := s.refs[App(i)], s.next;
    assert (s.refs - {App(i)})[Arg(t) := c] - {Arg(t)} == s.refs - {App(i)};
    assert s'.threads == s.threads[t := Ready(ws, c, x)];
  }

  lemma CppStored(cfg: Config, s: State, t: Tid, ws: WaitSet, i: nat, s': State)
    requires May(s, t, ws, i) && s' == Moved(s, t, ws, i, Ready(ws, s.refs[App(i)], s.next))
    ensures var c, x := s.refs[App(i)], s.next;
            && Attachable(s', s'.threads[t]) && (ws, c) !in s'.attached
            && Store(At(s', t, Done(ws, c, OK)), x, (ws, c)) ==
               WithAttachment(s, ws, c, i).(threads := s.threads[t := Done(ws, c, OK)])
  {
    var c, x := s.refs[App(i)], s.next;
    assert s'.threads[t := Done(ws, c, OK)] == s.threads[t := Done(ws, c, OK)];
    assert s.owner[x := Caller(t)][x := Stored((ws, c))] == s.owner[x := Stored((ws, c))];
  }

  lemma CppLeaves(cfg: Config, s: State, t: Tid, ws: WaitSet, i: nat, s': State)
    requires May(s, t, ws, i) && Arg(t) !in s.refs
    requires s' == WithAttachment(s, ws, s.refs[App(i)], i).(threads := s.threads[t := Done(ws, s.refs[App(i)], OK)])
    ensures Step(cfg, s', Attach(Leave(t))) == Some(WithAttachment(s, ws, s.refs[App(i)], i))
  {
    assert s'.threads[t := Idle] == s.threads;
  }

  /** The core stores the context and the call keeps it there. */
  lemma Settles(cfg: Config, acts: seq<Action>, s: State, t: Tid, ws: WaitSet, c: Cond, x: CtxId, s': State) returns (more: seq<Action>)
    requires Run(cfg, acts) == Some(s) && Faithful(cfg) && t < |s.threads| && s.threads[t] == Ready(ws, c, x)
    requires Attachable(s, s.threads[t]) && (ws, c) !in s.attached
    requires s' == Store(At(s, t, Done(ws, c, OK)), x, (ws, c))
    ensures Run(cfg, more) == Some(s')
  {
    var s1 := Store(At(s, t, Answered(ws, c, x, OK, true)), x, (ws, c));
    more := OneStep(cfg, acts, s, Attach(Offer(t)), s1);
    assert s1.threads[t := Done(ws, c, OK)] == s.threads[t := Done(ws, c, OK)];
    more := OneStep(cfg, more, s1, Attach(Settle(t)), s');
  }

  lemma JniAttaches(cfg: Config, acts: seq<Action>, s: State, t: Tid, ws: WaitSet, i: nat) returns (more: seq<Action>)
    requires Run(cfg, acts) == Some(s) && Faithful(cfg) && cfg.binding.Jni? && May(s, t, ws, i)
    requires Arg(t) !in s.refs && s.next !in s.heap && s.refs[App(i)] in s.counts
    ensures Run(cfg, more) == Some(WithAttachment(s, ws, s.refs[App(i)], i))
  {
    var s2;
    more, s2 := Calls(cfg, acts, s, t, ws, i);
    var c, x := s.refs[App(i)], s.next;
    var s3 := DoPin(s2, t);
    more := OneStep(cfg, more, s2, Attach(Pin(t, true)), s3);
    var s4 := Pinned(s, t, ws, i, Done(ws, c, OK)).(
      attached := s.attached[(ws, c) := x], owner := s.owner[x := Stored((ws, c))]);
    JniReady(cfg, s, t, ws, i, s3);
    JniStored(cfg, s, t, ws, i, s3);
    more := Settles(cfg, more, s3, t, ws, c, x, s4);
    JniLeaves(cfg, s, t, ws, i, s4);
    more := OneStep(cfg, more, s4, Attach(Leave(t)), WithAttachment(s, ws, c, i));
  }

  /** A Java call at `pc` with its own reference made: the argument is still held. */
  function Pinned(s: State, t: Tid, ws: WaitSet, i: nat, pc: Pc): State
    requires t < |s.threads| && App(i) in s.refs && s.refs[App(i)] in s.counts
  {
    var c, x := s.refs[App(i)], s.next;
    s.(threads := s.threads[t := pc], next := x + 1, heap := s.heap[x := Ctx(c, s.default, true)],
       refs := (s.refs - {App(i)})[Arg(t) := c][InContext(x) := c], counts := s.counts[c := s.counts[c] + 1],
       outstanding := s.outstanding[s.default := Outstanding(s.outstanding, s.default) + 1],
       owner := s.owner[x := Caller(t)])
  }

  lemma JniReady(cfg: Config, s: State, t: Tid, ws: WaitSet, i: nat, s': State)
    requires cfg.binding.Jni? && May(s, t, ws, i) && s.refs[App(i)] in s.counts
    requires s' == DoPin(DoAlloc(cfg, DoCall(s, t, ws, i), t), t)
    ensures s' == Pinned(s, t, ws, i, Ready(ws, s.refs[App(i)], s.next))
  {
    var c, x := s.refs[App(i)], s.next;
    assert s'.threads == s.threads[t := Ready(ws, c, x)];
    assert s'.heap == s.heap[x := Ctx(c, s.default, true)];
  }

  lemma JniStored(cfg: Config, s: State, t: Tid, ws: WaitSet, i: nat, s': State)
    requires May(s, t, ws, i) && s.refs[App(i)] in s.counts && s' == Pinned(s, t, ws, i, Ready(ws, s.refs[App(i)], s.next))
    ensures var c, x := s.refs[App(i)], s.next;
            && Attachable(s', s'.threads[t]) && (ws, c) !in s'.attached
            && Store(At(s', t, Done(ws, c, OK)), x, (ws, c)) ==
               Pinned(s, t, ws, i, Done(ws, c, OK)).(attached := s.attached[(ws, c) := x], owner := s.owner[x := Stored((ws, c))])
  {
    var c, x := s.refs[App(i)], s.next;
    assert s'.threads[t := Done(ws, c, OK)] == s.threads[t := Done(ws, c, OK)];
    assert s.owner[x := Caller(t)][x := Stored((ws, c))] == s.owner[x := Stored((ws, c))];
  }

  lemma JniLeaves(cfg: Config, s: State, t: Tid, ws: WaitSet, i: nat, s': State)
    requires cfg.binding.Jni? && May(s, t, ws, i) && Arg(t) !in s.refs && s.refs[App(i)] in s.counts
    requires var c, x := s.refs[App(i)], s.next;
             s' == Pinned(s, t, ws, i, Done(ws, c, OK)).(attached := s.attached[(ws, c) := x], owner := s.owner[x := Stored((ws, c))])
    ensures Step(cfg, s', Attach(Leave(t))) == Some(WithAttachment(s, ws, s.refs[App(i)], i))
  {
    var c, x := s.refs[App(i)], s.next;
    assert s'.threads[t := Idle] == s.threads;
    assert s'.refs - {Arg(t)} == (s.refs - {App(i)})[InContext(x) := c];
    assert s'.counts[c := s.counts[c]] == s.counts;
  }
}
