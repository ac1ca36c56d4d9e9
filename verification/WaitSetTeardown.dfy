/** The core's own side of attachment: WaitSets and guard conditions that may each be
    torn down first, the quiesce counts that keep one alive while the other calls into
    it, and the release hook of every attachment. Any number of threads. */
module WaitSetTeardown {
  import opened Base
  import opened References

  type WaitSet = nat
  type Guard = nat
  type Hook = nat
  type Tid = nat
  type Key = (WaitSet, Guard)

  /** `slots` WaitSets fit a guard's wakeup list. `attachRef`: an attachment takes a
      reference to its guard when it is made; otherwise one is taken when the WaitSet
      ends. `strict`: a guard's teardown refuses a WaitSet that is being torn down.
      `waits`: callers begin a guard's deinit only when every attach naming it has entered
      the guard's list or given up, and not as soon as it has its reference. */
  datatype Config = Config(threads: nat, slots: nat, attachRef: bool, strict: bool, waits: bool)

  /** Who holds a quiesce reference. */
  datatype WaitSetRef = OwnWaitSet(w: WaitSet) | Drained(w: WaitSet, g: Guard)
  datatype GuardRef = OwnGuard(g: Guard) | Attached(w: WaitSet, g: Guard)

  /** A thread in one of the four operations: attach, detach, a guard's deinit
      (`Destroy`) and a WaitSet's (`End`), which the last reference continues on
      whichever thread drops it; `back` is the guard whose deinit it interrupted. */
  datatype Pc =
    | Idle
    | AttachLock(w: WaitSet, g: Guard, x: Hook)
    | AttachAppend(w: WaitSet, g: Guard, x: Hook)
    | AttachAcquire(w: WaitSet, g: Guard, x: Hook)
    | AttachRegister(w: WaitSet, g: Guard, x: Hook)
    | AttachDrop(w: WaitSet, g: Guard, x: Hook)
    | AttachRollBack(w: WaitSet, g: Guard, x: Hook)
    | AttachUnlock(w: WaitSet)
    | DetachLock(w: WaitSet, g: Guard)
    | DetachRemove(w: WaitSet, g: Guard)
    | DetachRelease(w: WaitSet, g: Guard, x: Hook)
    | DetachUnlock(w: WaitSet, hook: Option<Hook>)
    | DetachFire(x: Hook)
    | DestroyClose(g: Guard)
    | DestroyDrain(g: Guard)
    | DestroyNext(g: Guard)
    | DestroyLock(w: WaitSet, g: Guard)
    | DestroyRemove(w: WaitSet, g: Guard)
    | DestroyUnlock(w: WaitSet, g: Guard, hook: Option<Hook>)
    | DestroyRelease(w: WaitSet, g: Guard, x: Hook)
    | DestroyFire(w: WaitSet, g: Guard, x: Hook)
    | DestroyDone(w: WaitSet, g: Guard)
    | DestroyOwn(g: Guard)
    | EndClose(w: WaitSet)
    | EndOwn(w: WaitSet)
    | EndNext(w: WaitSet, back: Option<Guard>)
    | EndRelease(w: WaitSet, g: Guard, x: Hook, back: Option<Guard>)
    | EndFire(w: WaitSet, x: Hook, back: Option<Guard>)

  /** `refs` are the holders of the references that `counts` counts; no step looks at
      them, except that the handles a guard has drained are its `Drained` ones. `dying`
      names the thread in the WaitSet's final teardown. */
  datatype WaitSets = WaitSets(
    counts: map<WaitSet, nat>,
    refs: map<WaitSetRef, WaitSet>,
    closed: set<WaitSet>,
    ender: map<WaitSet, Tid>,
    dying: map<WaitSet, Tid>,
    freed: set<WaitSet>)

  datatype Guards = Guards(
    counts: map<Guard, nat>,
    refs: map<GuardRef, Guard>,
    closed: set<Guard>,
    destroyer: map<Guard, Tid>,
    freed: set<Guard>)

  /** The WaitSets' condition lists, each entry with its hook, and the guards' wakeup
      lists. Auxiliary: `pending` entries are still being attached, and `hands` are the
      attachment references a thread has taken charge of. */
  datatype Tables = Tables(
    conditions: map<Key, Hook>,
    registered: set<Key>,
    pending: map<Key, Tid>,
    hands: map<Key, Tid>)

  /** Where a hook is: with the thread that offers it or will fire it, in an entry, left
      to the caller of a refused attach, or fired. */
  datatype Place = InHand(t: Tid) | Stored(key: Key) | Refused | Fired

  datatype Hooks = Hooks(next: Hook, place: map<Hook, Place>, fired: multiset<Hook>)

  datatype Memory = Memory(ws: WaitSets, gs: Guards, tb: Tables, locks: map<WaitSet, Tid>, hooks: Hooks, fault: bool)

  datatype State = State(threads: seq<Pc>, m: Memory)

  datatype Action =
    | NewWaitSet(w: WaitSet)
    | NewGuard(g: Guard)
    | CallAttach(t: Tid, w: WaitSet, g: Guard)
    | CallDetach(t: Tid, w: WaitSet, g: Guard)
    | CallDestroy(t: Tid, g: Guard)
    | CallEnd(t: Tid, w: WaitSet)
    | Advance(t: Tid, pick: nat, ok: bool)

  function Init(c: Config): State {
    State(seq(c.threads, i requires 0 <= i < c.threads => Idle),
          Memory(WaitSets(map[], map[], {}, map[], map[], {}), Guards(map[], map[], {}, map[], {}),
                 Tables(map[], {}, map[], map[]), map[], Hooks(0, map[], multiset{}), false))
  }

  function Count(counts: map<nat, nat>, n: nat): nat {
    if n in counts then counts[n] else 0
  }

  // ---- Elementary effects ---------------------------------------------------------

  /** Using a freed object is a fault. */
  function UseWaitSet(m: Memory, w: WaitSet): Memory {
    m.(fault := m.fault || w in m.ws.freed)
  }

  function UseGuard(m: Memory, g: Guard): Memory {
    m.(fault := m.fault || g in m.gs.freed)
  }

  function AddWaitSetRef(ws: WaitSets, h: WaitSetRef): WaitSets {
    ws.(refs := ws.refs[h := h.w], counts := ws.counts[h.w := Count(ws.counts, h.w) + 1])
  }

  /** fetchSub; at zero the thread goes on to the final teardown. */
  function DropWaitSetRef(ws: WaitSets, h: WaitSetRef, t: Tid): WaitSets {
    var n := Count(ws.counts, h.w);
    ws.(refs := ws.refs - {h}, counts := ws.counts[h.w := if n > 0 then n - 1 else 0],
        dying := if n == 1 then ws.dying[h.w := t] else ws.dying)
  }

  function AddGuardRef(gs: Guards, h: GuardRef): Guards {
    gs.(refs := gs.refs[h := h.g], counts := gs.counts[h.g := Count(gs.counts, h.g) + 1])
  }

  /** fetchSub; at zero the guard's memory is freed. */
  function DropGuardRef(gs: Guards, h: GuardRef): Guards {
    var n := Count(gs.counts, h.g);
    gs.(refs := gs.refs - {h}, counts := gs.counts[h.g := if n > 0 then n - 1 else 0],
        freed := if n == 1 then gs.freed + {h.g} else gs.freed)
  }

  /** Dropping a reference of an object that has none left is a fault. */
  function ReleaseGuard(m: Memory, h: GuardRef): Memory {
    m.(gs := DropGuardRef(m.gs, h), fault := m.fault || h.g in m.gs.freed || Count(m.gs.counts, h.g) == 0)
  }

  function ReleaseWaitSet(m: Memory, h: WaitSetRef, t: Tid): Memory {
    m.(ws := DropWaitSetRef(m.ws, h, t), fault := m.fault || h.w in m.ws.freed || Count(m.ws.counts, h.w) == 0)
  }

  function Placed(h: Hooks, x: Hook, p: Place): Hooks {
    h.(place := h.place[x := p])
  }

  function Lock(m: Memory, w: WaitSet, t: Tid): Memory {
    m.(locks := m.locks[w := t])
  }

  function Unlock(m: Memory, w: WaitSet): Memory {
    m.(locks := m.locks - {w})
  }

  /** The new entry, with its hook. */
  function Append(m: Memory, k: Key, x: Hook, t: Tid): Memory {
    m.(tb := m.tb.(conditions := m.tb.conditions[k := x], pending := m.tb.pending[k := t]),
       hooks := Placed(m.hooks, x, Stored(k)))
  }

  /** The attachment's reference to its guard, in the hand of the thread. */
  function Acquire(m: Memory, k: Key, t: Tid): Memory {
    m.(gs := AddGuardRef(m.gs, Attached(k.0, k.1)), tb := m.tb.(hands := m.tb.hands[k := t]))
  }

  /** The WaitSet is in the guard's list: the attachment is complete. */
  function Register(m: Memory, k: Key): Memory {
    m.(tb := m.tb.(registered := m.tb.registered + {k}, pending := m.tb.pending - {k}, hands := m.tb.hands - {k}))
  }

  function RollBack(m: Memory, k: Key, x: Hook): Memory {
    m.(tb := m.tb.(conditions := m.tb.conditions - {k}, pending := m.tb.pending - {k}), hooks := Placed(m.hooks, x, Refused))
  }

  function Refuse(m: Memory, x: Hook): Memory {
    m.(hooks := Placed(m.hooks, x, Refused))
  }

  /** An entry leaves its WaitSet's list; its reference is the thread's to release and
      its hook the thread's to fire. */
  function Remove(m: Memory, k: Key, t: Tid): Memory
    requires k in m.tb.conditions
  {
    m.(tb := m.tb.(conditions := m.tb.conditions - {k}, hands := m.tb.hands[k := t]),
       hooks := Placed(m.hooks, m.tb.conditions[k], InHand(t)))
  }

  /** unregister. */
  function Unregister(m: Memory, k: Key): Memory {
    m.(tb := m.tb.(registered := m.tb.registered - {k}))
  }

  /** The attachment's reference to its guard, if it has one, is released. */
  function LetGo(c: Config, m: Memory, k: Key): Memory {
    var m' := m.(tb := m.tb.(hands := m.tb.hands - {k}));
    if c.attachRef then ReleaseGuard(m', Attached(k.0, k.1)) else m'
  }

  function Fire(m: Memory, x: Hook): Memory {
    m.(hooks := Hooks(m.hooks.next, m.hooks.place[x := Fired], m.hooks.fired + multiset{x}))
  }

  /** A handle leaves the guard's list, into the hands of its teardown if it lives. */
  function Drain(c: Config, m: Memory, k: Key): Memory {
    var m' := Unregister(m, k);
    if Acquires(c, m.ws, k.0) then m'.(ws := AddWaitSetRef(m.ws, Drained(k.0, k.1))) else m'
  }

  /** acquireIfAlive, or acquire, on a WaitSet found in the guard's list. */
  predicate Acquires(c: Config, ws: WaitSets, w: WaitSet) {
    Count(ws.counts, w) > 0 && !(c.strict && w in ws.closed)
  }

  function CloseGuard(m: Memory, g: Guard): Memory {
    m.(gs := m.gs.(closed := m.gs.closed + {g}))
  }

  function CloseWaitSet(m: Memory, w: WaitSet): Memory {
    m.(ws := m.ws.(closed := m.ws.closed + {w}))
  }

  function FreeWaitSet(m: Memory, w: WaitSet): Memory {
    m.(ws := m.ws.(freed := m.ws.freed + {w}, dying := m.ws.dying - {w}))
  }

  // ---- The steps --------------------------------------------------------------------

  function AttachNext(c: Config, t: Tid, pc: Pc, m: Memory, ok: bool): Option<(Pc, Memory)> {
    match pc
    case AttachLock(w, g, x) =>
      // the retired flag of the guard is read, then the WaitSet's mutex taken
      if w in m.locks then None else Some((AttachAppend(w, g, x), Lock(UseGuard(UseWaitSet(m, w), g), w, t)))
    case AttachAppend(w, g, x) =>
      Some(if (w, g) in m.tb.conditions || !ok then (AttachUnlock(w), Refuse(UseWaitSet(m, w), x))
           else (AttachAcquire(w, g, x), Append(UseWaitSet(m, w), (w, g), x, t)))
    case AttachAcquire(w, g, x) =>
      Some(if !c.attachRef then (AttachRegister(w, g, x), m)
           else if g in m.gs.closed || Count(m.gs.counts, g) == 0 then (AttachRollBack(w, g, x), UseGuard(m, g))
           else (AttachRegister(w, g, x), Acquire(UseGuard(m, g), (w, g), t)))
    case AttachRegister(w, g, x) =>
      Some(if Full(c, m.tb.registered, g)
           then (if c.attachRef then AttachDrop(w, g, x) else AttachRollBack(w, g, x), UseGuard(m, g))
           else (AttachUnlock(w), Register(UseGuard(m, g), (w, g))))
    case AttachDrop(w, g, x) => Some((AttachRollBack(w, g, x), LetGo(c, m, (w, g))))
    case AttachRollBack(w, g, x) => Some((AttachUnlock(w), RollBack(UseWaitSet(m, w), (w, g), x)))
    case AttachUnlock(w) => Some((Idle, Unlock(UseWaitSet(m, w), w)))
    case _ => None
  }

  /** register finds no free slot in the guard's list. */
  predicate Full(c: Config, registered: set<Key>, g: Guard) {
    |set k | k in registered && k.1 == g| >= c.slots
  }

  /** Where an unlock leads: to the hook of what was removed, if anything was. */
  function AfterDetach(hook: Option<Hook>): Pc {
    if hook.Some? then DetachFire(hook.value) else Idle
  }

  function DetachNext(c: Config, t: Tid, pc: Pc, m: Memory): Option<(Pc, Memory)> {
    match pc
    case DetachLock(w, g) =>
      if w in m.locks then None else Some((DetachRemove(w, g), Lock(UseWaitSet(m, w), w, t)))
    case DetachRemove(w, g) =>
      Some(if (w, g) !in m.tb.conditions then (DetachUnlock(w, None), UseWaitSet(m, w))
           else (DetachRelease(w, g, m.tb.conditions[(w, g)]),
                 Remove(Unregister(UseGuard(UseWaitSet(m, w), g), (w, g)), (w, g), t)))
    case DetachRelease(w, g, x) => Some((DetachUnlock(w, Some(x)), LetGo(c, m, (w, g))))
    case DetachUnlock(w, hook) =>
      Some((AfterDetach(hook), Unlock(UseWaitSet(m, w), w)))
    case DetachFire(x) => Some((Idle, Fire(m, x)))
    case _ => None
  }

  function AfterInvalidate(w: WaitSet, g: Guard, hook: Option<Hook>): Pc {
    if hook.Some? then DestroyRelease(w, g, hook.value) else DestroyDone(w, g)
  }

  /** Where the final teardown of a WaitSet leads back to. */
  function Back(back: Option<Guard>): Pc {
    if back.Some? then DestroyNext(back.value) else Idle
  }

  /** The last reference of a WaitSet takes its thread into the final teardown. */
  function AfterDrop(m: Memory, w: WaitSet, back: Option<Guard>): Pc {
    if Count(m.ws.counts, w) == 0 then EndNext(w, back) else Back(back)
  }

  function DestroyNextStep(c: Config, t: Tid, pc: Pc, m: Memory, pick: nat): Option<(Pc, Memory)> {
    match pc
    case DestroyClose(g) => Some((DestroyDrain(g), CloseGuard(UseGuard(m, g), g)))
    case DestroyDrain(g) =>
      if (pick, g) in m.tb.registered then Some((DestroyDrain(g), Drain(c, UseGuard(UseWaitSet(m, pick), g), (pick, g))))
      else if exists k :: k in m.tb.registered && k.1 == g then None
      else Some((DestroyNext(g), m))
    case DestroyNext(g) =>
      if Drained(pick, g) in m.ws.refs then Some((DestroyLock(pick, g), m))
      else if exists h :: h in m.ws.refs && h.Drained? && h.g == g then None
      else Some((DestroyOwn(g), m))
    case DestroyLock(w, g) =>
      if w in m.locks then None else Some((DestroyRemove(w, g), Lock(UseWaitSet(m, w), w, t)))
    case DestroyRemove(w, g) =>
      Some(if (w, g) !in m.tb.conditions then (DestroyUnlock(w, g, None), UseWaitSet(m, w))
           else (DestroyUnlock(w, g, Some(m.tb.conditions[(w, g)])), Remove(UseWaitSet(m, w), (w, g), t)))
    case DestroyUnlock(w, g, hook) =>
      Some((AfterInvalidate(w, g, hook), Unlock(UseWaitSet(m, w), w)))
    case DestroyRelease(w, g, x) => Some((DestroyFire(w, g, x), LetGo(c, m, (w, g))))
    case DestroyFire(w, g, x) => Some((DestroyDone(w, g), Fire(m, x)))
    case DestroyDone(w, g) =>
      var m' := ReleaseWaitSet(m, Drained(w, g), t);
      Some((AfterDrop(m', w, Some(g)), m'))
    case DestroyOwn(g) => Some((Idle, ReleaseGuard(m, OwnGuard(g))))
    case _ => None
  }

  function EndNextStep(c: Config, t: Tid, pc: Pc, m: Memory, pick: nat): Option<(Pc, Memory)> {
    match pc
    case EndClose(w) => Some((EndOwn(w), CloseWaitSet(UseWaitSet(m, w), w)))
    case EndOwn(w) =>
      var m' := ReleaseWaitSet(m, OwnWaitSet(w), t);
      Some((AfterDrop(m', w, None), m'))
    case EndNext(w, back) =>
      if (w, pick) in m.tb.conditions then
        Some((EndRelease(w, pick, m.tb.conditions[(w, pick)], back),
              Remove(Unregister(UseGuard(UseWaitSet(m, w), pick), (w, pick)), (w, pick), t)))
      else if exists k :: k in m.tb.conditions && k.0 == w then None
      else Some((Back(back), FreeWaitSet(UseWaitSet(m, w), w)))
    case EndRelease(w, g, x, back) => Some((EndFire(w, x, back), LetGo(c, m, (w, g))))
    case EndFire(w, x, back) => Some((EndNext(w, back), Fire(UseWaitSet(m, w), x)))
    case _ => None
  }

  predicate Attaching(pc: Pc) {
    pc.AttachLock? || pc.AttachAppend? || pc.AttachAcquire? || pc.AttachRegister? || pc.AttachDrop? || pc.AttachRollBack?
    || pc.AttachUnlock?
  }

  predicate Detaching(pc: Pc) {
    pc.DetachLock? || pc.DetachRemove? || pc.DetachRelease? || pc.DetachUnlock? || pc.DetachFire?
  }

  predicate Ending(pc: Pc) {
    pc.EndClose? || pc.EndOwn? || pc.EndNext? || pc.EndRelease? || pc.EndFire?
  }

  function Next(c: Config, t: Tid, pc: Pc, m: Memory, pick: nat, ok: bool): Option<(Pc, Memory)> {
    if pc.Idle? then None
    else if Attaching(pc) then AttachNext(c, t, pc, m, ok)
    else if Detaching(pc) then DetachNext(c, t, pc, m)
    else if Ending(pc) then EndNextStep(c, t, pc, m, pick)
    else DestroyNextStep(c, t, pc, m, pick)
  }

  /** A call on the WaitSet that its caller has not returned from. */
  predicate CallOn(pc: Pc, w: WaitSet) {
    (Attaching(pc) || (Detaching(pc) && !pc.DetachFire?)) && pc.w == w
  }

  /** An attach that a guard's deinit must not overtake: it has not taken its own
      reference to the guard yet or, under the longer rule, not entered its list. */
  predicate Naming(c: Config, pc: Pc, g: Guard) {
    (pc.AttachLock? || pc.AttachAppend? || pc.AttachAcquire? || (c.waits && pc.AttachRegister?)) && pc.g == g
  }

  predicate Idling(s: State, t: Tid) {
    t < |s.threads| && s.threads[t].Idle?
  }

  /** What callers may do: no calls on a WaitSet when its deinit begins or afterwards, and
      none naming a guard whose deinit has begun before the call has its reference. Each
      is deinitialized at most once. */
  function Call(c: Config, s: State, a: Action): Option<State> {
    var m := s.m;
    match a
    case NewWaitSet(w) =>
      if w in m.ws.counts then None else Some(s.(m := m.(ws := AddWaitSetRef(m.ws, OwnWaitSet(w)))))
    case NewGuard(g) =>
      if g in m.gs.counts then None else Some(s.(m := m.(gs := AddGuardRef(m.gs, OwnGuard(g)))))
    case CallAttach(t, w, g) =>
      if Idling(s, t) && w in m.ws.counts && w !in m.ws.ender && g in m.gs.counts && g !in m.gs.destroyer then
        Some(State(s.threads[t := AttachLock(w, g, m.hooks.next)], Offer(m, t)))
      else None
    case CallDetach(t, w, g) =>
      if Idling(s, t) && w in m.ws.counts && w !in m.ws.ender then Some(s.(threads := s.threads[t := DetachLock(w, g)])) else None
    case CallDestroy(t, g) =>
      if Idling(s, t) && g in m.gs.counts && g !in m.gs.destroyer && !NamedBySome(c, s.threads, g) then
        Some(State(s.threads[t := DestroyClose(g)], m.(gs := m.gs.(destroyer := m.gs.destroyer[g := t]))))
      else None
    case CallEnd(t, w) =>
      if Idling(s, t) && w in m.ws.counts && w !in m.ws.ender && !CalledBySome(s.threads, w) then
        Some(State(s.threads[t := EndClose(w)], m.(ws := m.ws.(ender := m.ws.ender[w := t]))))
      else None
    case Advance(_, _, _) => None
  }

  /** A hook nobody has seen before. */
  function Offer(m: Memory, t: Tid): Memory {
    m.(hooks := Hooks(m.hooks.next + 1, m.hooks.place[m.hooks.next := InHand(t)], m.hooks.fired))
  }

  predicate NamedBySome(c: Config, threads: seq<Pc>, g: Guard) {
    exists t :: 0 <= t < |threads| && Naming(c, threads[t], g)
  }

  predicate CalledBySome(threads: seq<Pc>, w: WaitSet) {
    exists t :: 0 <= t < |threads| && CallOn(threads[t], w)
  }

  function Step(c: Config, s: State, a: Action): Option<State> {
    if a.Advance? then
      if a.t >= |s.threads| then None
      else
        var next := Next(c, a.t, s.threads[a.t], s.m, a.pick, a.ok);
        if next.None? then None else Some(State(s.threads[a.t := next.value.0], next.value.1))
    else Call(c, s, a)
  }

  function Run(c: Config, acts: seq<Action>): Option<State> {
    if acts == [] then Some(Init(c))
    else
      var before := Run(c, acts[..|acts| - 1]);
      if before.None? then None else Step(c, before.value, acts[|acts| - 1])
  }

  // ---- What memory satisfies --------------------------------------------------------

  ghost predicate WaitSetsOk(ws: WaitSets) {
    && Counted(ws.refs, ws.counts) && (forall h :: h in ws.refs ==> ws.refs[h] == h.w)
    && (forall w :: w in ws.ender ==> w in ws.counts)
    && (forall w :: w in ws.counts && w !in ws.ender ==> OwnWaitSet(w) in ws.refs)
    // without references it is being torn down by one thread, or gone
    && (forall w :: w in ws.dying ==> w in ws.counts && ws.counts[w] == 0 && w !in ws.freed)
    && (forall w :: w in ws.freed ==> w in ws.counts && ws.counts[w] == 0)
    && (forall w :: w in ws.counts && ws.counts[w] == 0 ==> w in ws.dying || w in ws.freed)
  }

  ghost predicate GuardsOk(gs: Guards) {
    && Counted(gs.refs, gs.counts) && (forall h :: h in gs.refs ==> gs.refs[h] == h.g)
    && (forall g :: g in gs.destroyer ==> g in gs.counts)
    && (forall g :: g in gs.closed ==> g in gs.destroyer)
    && (forall g :: g in gs.counts && g !in gs.destroyer ==> OwnGuard(g) in gs.refs)
    && (forall g :: g in gs.freed <==> g in gs.counts && gs.counts[g] == 0)
  }

  /** Each attachment has its reference, in its entry or in some thread's hand. */
  ghost predicate Attachments(tb: Tables, grefs: map<GuardRef, Guard>) {
    && (forall k: Key :: Attached(k.0, k.1) in grefs <==> (k in tb.conditions && k !in tb.pending) || k in tb.hands)
    && (forall k :: k in tb.hands ==> k !in tb.conditions || k in tb.pending)
    && (forall k :: k in tb.hands && k in tb.pending ==> tb.hands[k] == tb.pending[k])
  }

  /** Entries still being attached belong to the thread that has the WaitSet's mutex. */
  ghost predicate PendingOk(pending: map<Key, Tid>, conditions: map<Key, Hook>, locks: map<WaitSet, Tid>, ws: WaitSets) {
    forall k :: k in pending ==>
      && k in conditions && k.0 in locks && locks[k.0] == pending[k]
      && k.0 in ws.counts && k.0 !in ws.ender && Drained(k.0, k.1) !in ws.refs
  }

  /** A reference in a thread's hand: of a call, a guard's teardown or a WaitSet's. */
  ghost predicate HandsOk(hands: map<Key, Tid>, locks: map<WaitSet, Tid>, destroyer: map<Guard, Tid>, dying: map<WaitSet, Tid>) {
    forall k :: k in hands ==>
      || (k.0 in locks && locks[k.0] == hands[k])
      || k.1 in destroyer
      || (k.0 in dying && dying[k.0] == hands[k])
  }

  ghost predicate RegisteredOk(tb: Tables, wrefs: map<WaitSetRef, WaitSet>) {
    forall k :: k in tb.registered ==> k in tb.conditions && k !in tb.pending && Drained(k.0, k.1) !in wrefs
  }

  /** What a guard drained, it drained in its own teardown, which is not over. */
  ghost predicate DrainedOk(wrefs: map<WaitSetRef, WaitSet>, closed: set<Guard>, grefs: map<GuardRef, Guard>) {
    forall w, g :: Drained(w, g) in wrefs ==> g in closed && OwnGuard(g) in grefs
  }

  /** No entry of a WaitSet that is gone. */
  ghost predicate NoneLeft(conditions: map<Key, Hook>, freed: set<WaitSet>) {
    forall k :: k in conditions ==> k.0 !in freed
  }

  ghost predicate HooksOk(conditions: map<Key, Hook>, h: Hooks) {
    && (forall x: Hook :: x in h.place <==> x < h.next)
    && (forall k :: k in conditions ==> conditions[k] in h.place && h.place[conditions[k]] == Stored(k))
    && (forall x :: x in h.place && h.place[x].Stored? ==> h.place[x].key in conditions && conditions[h.place[x].key] == x)
    && (forall x: nat :: h.fired[x] == if x in h.place && h.place[x].Fired? then 1 else 0)
  }

  ghost predicate MemoryOk(m: Memory) {
    && WaitSetsOk(m.ws) && GuardsOk(m.gs)
    && Attachments(m.tb, m.gs.refs) && PendingOk(m.tb.pending, m.tb.conditions, m.locks, m.ws)
    && HandsOk(m.tb.hands, m.locks, m.gs.destroyer, m.ws.dying)
    && RegisteredOk(m.tb, m.ws.refs) && DrainedOk(m.ws.refs, m.gs.closed, m.gs.refs) && NoneLeft(m.tb.conditions, m.ws.freed)
    && HooksOk(m.tb.conditions, m.hooks) && !m.fault
  }

  // ---- What a thread's place says -------------------------------------------------------

  /** The entry it is attaching. */
  function PendingOf(pc: Pc): Option<Key> {
    if pc.AttachAcquire? || pc.AttachRegister? || pc.AttachDrop? || pc.AttachRollBack? then Some((pc.w, pc.g)) else None
  }

  /** The attachment whose reference it must release, or hand to the entry. */
  function HandOf(pc: Pc): Option<Key> {
    if pc.AttachRegister? || pc.AttachDrop? || pc.DetachRelease? || pc.DestroyRelease? || pc.EndRelease?
    then Some((pc.w, pc.g))
    else if pc.DestroyUnlock? && pc.hook.Some? then Some((pc.w, pc.g)) else None
  }

  function LockOf(pc: Pc): Option<WaitSet> {
    if (Attaching(pc) && !pc.AttachLock?) || pc.DetachRemove? || pc.DetachRelease? || pc.DetachUnlock? || pc.DestroyRemove?
       || pc.DestroyUnlock?
    then Some(pc.w) else None
  }

  function DyingOf(pc: Pc): Option<WaitSet> {
    if pc.EndNext? || pc.EndRelease? || pc.EndFire? then Some(pc.w) else None
  }

  function HookOf(pc: Pc): Option<Hook> {
    if pc.AttachLock? || pc.AttachAppend? || pc.DetachRelease? || pc.DetachFire? || pc.DestroyRelease? || pc.DestroyFire?
       || pc.EndRelease? || pc.EndFire?
    then Some(pc.x)
    else if pc.DetachUnlock? || pc.DestroyUnlock? then pc.hook else None
  }

  /** The guard whose teardown it is in, and the WaitSet whose deinit it is in. */
  function DestroyingOf(pc: Pc): Option<Guard> {
    if pc.EndNext? || pc.EndRelease? || pc.EndFire? then pc.back
    else if pc.Idle? || Attaching(pc) || Detaching(pc) || Ending(pc) then None else Some(pc.g)
  }

  function EndingOf(pc: Pc): Option<WaitSet> {
    if pc.EndClose? || pc.EndOwn? then Some(pc.w) else None
  }

  /** `t` owns exactly what `of` says. */
  ghost predicate Owns<K(!new)>(t: Tid, owners: map<K, Tid>, of: Option<K>) {
    && (of.Some? ==> of.value in owners && owners[of.value] == t)
    && forall k :: k in owners && owners[k] == t ==> of.Some? && of.value == k
  }

  ghost predicate OwnsHook(t: Tid, place: map<Hook, Place>, of: Option<Hook>) {
    && (of.Some? ==> of.value in place && place[of.value] == InHand(t))
    && forall x :: x in place && place[x] == InHand(t) ==> of.Some? && of.value == x
  }

  ghost predicate Destroys(t: Tid, gs: Guards, of: Option<Guard>) {
    && (of.Some? ==> of.value in gs.destroyer && gs.destroyer[of.value] == t && OwnGuard(of.value) in gs.refs)
    && forall g :: g in gs.destroyer && gs.destroyer[g] == t && OwnGuard(g) in gs.refs ==> of.Some? && of.value == g
  }

  ghost predicate Ends(t: Tid, ws: WaitSets, of: Option<WaitSet>) {
    && (of.Some? ==> of.value in ws.ender && ws.ender[of.value] == t && OwnWaitSet(of.value) in ws.refs)
    && forall w :: w in ws.ender && ws.ender[w] == t && OwnWaitSet(w) in ws.refs ==> of.Some? && of.value == w
  }

  /** What memory attributes to thread `t` is what its place says, no more and no less. */
  ghost predicate Mine(t: Tid, pc: Pc, m: Memory) {
    && Owns(t, m.tb.pending, PendingOf(pc)) && Owns(t, m.tb.hands, HandOf(pc)) && Owns(t, m.locks, LockOf(pc))
    && Owns(t, m.ws.dying, DyingOf(pc)) && OwnsHook(t, m.hooks.place, HookOf(pc))
    && Destroys(t, m.gs, DestroyingOf(pc)) && Ends(t, m.ws, EndingOf(pc))
  }

  /** What it relies on besides. */
  ghost predicate Needs(pc: Pc, m: Memory) {
    && (Attaching(pc) || (Detaching(pc) && !pc.DetachFire?) ==> pc.w in m.ws.counts && pc.w !in m.ws.ender)
    && (pc.AttachLock? || pc.AttachAppend? || pc.AttachAcquire? ==> pc.g in m.gs.counts && pc.g !in m.gs.destroyer)
    && (PendingOf(pc).Some? ==> (pc.w, pc.g) in m.tb.conditions && m.tb.conditions[(pc.w, pc.g)] == pc.x)
    && (DestroyingOf(pc).Some? && !pc.DestroyClose? ==> DestroyingOf(pc).value in m.gs.closed)
    && (pc.DestroyLock? || pc.DestroyRemove? || pc.DestroyUnlock? || pc.DestroyRelease? || pc.DestroyFire? || pc.DestroyDone? ==>
          Drained(pc.w, pc.g) in m.ws.refs)
    && (pc.DestroyOwn? ==> forall w :: Drained(w, pc.g) !in m.ws.refs)
  }

  /** Thread `t` is at `pc`, and memory agrees. */
  ghost predicate Stands(t: Tid, pc: Pc, m: Memory) {
    Mine(t, pc, m) && Needs(pc, m)
  }

  // ---- Each step keeps it -------------------------------------------------------------

  /** What threads other than `t` own is the same. */
  ghost predicate Same<K(!new)>(t: Tid, a: map<K, Tid>, b: map<K, Tid>) {
    && (forall k :: k in a && a[k] != t ==> k in b && b[k] == a[k])
    && (forall k :: k in b && b[k] != t ==> k in a && a[k] == b[k])
  }

  ghost predicate SameHooks(t: Tid, a: map<Hook, Place>, b: map<Hook, Place>) {
    && (forall x :: x in a && a[x].InHand? && a[x].t != t ==> x in b && b[x] == a[x])
    && (forall x :: x in b && b[x].InHand? && b[x].t != t ==> x in a && a[x] == b[x])
  }

  ghost predicate SameGuards(t: Tid, a: Guards, b: Guards) {
    && b.destroyer == a.destroyer && a.counts.Keys <= b.counts.Keys && a.closed <= b.closed
    && (forall g :: OwnGuard(g) in a.refs && OwnGuard(g) !in b.refs ==> g in a.destroyer && a.destroyer[g] == t)
    && (forall g :: OwnGuard(g) in b.refs && OwnGuard(g) !in a.refs ==> g !in a.destroyer)
  }

  ghost predicate SameWaitSets(t: Tid, a: WaitSets, b: WaitSets, destroyer: map<Guard, Tid>) {
    && b.ender == a.ender && a.counts.Keys <= b.counts.Keys && Same(t, a.dying, b.dying)
    && (forall w :: OwnWaitSet(w) in a.refs && OwnWaitSet(w) !in b.refs ==> w in a.ender && a.ender[w] == t)
    && (forall w :: OwnWaitSet(w) in b.refs && OwnWaitSet(w) !in a.refs ==> w !in a.ender)
    && (forall w, g :: (Drained(w, g) in a.refs <==> Drained(w, g) in b.refs) || (g in destroyer && destroyer[g] == t))
  }

  ghost predicate SameTables(t: Tid, a: Tables, b: Tables) {
    && Same(t, a.pending, b.pending) && Same(t, a.hands, b.hands)
    && (forall k :: k in a.pending && a.pending[k] != t && k in a.conditions ==>
          k in b.conditions && b.conditions[k] == a.conditions[k])
  }

  /** A step of thread `t` leaves alone what belongs to other threads. */
  ghost predicate Frame(t: Tid, m: Memory, m': Memory) {
    && SameGuards(t, m.gs, m'.gs) && SameWaitSets(t, m.ws, m'.ws, m.gs.destroyer) && SameTables(t, m.tb, m'.tb)
    && Same(t, m.locks, m'.locks) && SameHooks(t, m.hooks.place, m'.hooks.place)
  }

  lemma OwnsKept<K(!new)>(t: Tid, a: map<K, Tid>, b: map<K, Tid>, u: Tid, of: Option<K>)
    requires Same(t, a, b) && u != t && Owns(u, a, of)
    ensures Owns(u, b, of)
  {
  }

  lemma MineKept(t: Tid, m: Memory, m': Memory, u: Tid, pc: Pc)
    requires Frame(t, m, m') && u != t && Mine(u, pc, m)
    ensures Mine(u, pc, m')
  {
    OwnsKept(t, m.tb.pending, m'.tb.pending, u, PendingOf(pc));
    OwnsKept(t, m.tb.hands, m'.tb.hands, u, HandOf(pc));
    OwnsKept(t, m.locks, m'.locks, u, LockOf(pc));
    OwnsKept(t, m.ws.dying, m'.ws.dying, u, DyingOf(pc));
    assert Destroys(u, m'.gs, DestroyingOf(pc));
    assert Ends(u, m'.ws, EndingOf(pc));
    assert OwnsHook(u, m'.hooks.place, HookOf(pc));
  }

  lemma NeedsKept(t: Tid, m: Memory, m': Memory, u: Tid, pc: Pc)
    requires Frame(t, m, m') && u != t && Stands(u, pc, m)
    ensures Needs(pc, m')
  {
    if PendingOf(pc).Some? { assert (pc.w, pc.g) in m.tb.pending; }
    if DestroyingOf(pc).Some? { assert DestroyingOf(pc).value in m.gs.destroyer; }
  }

  lemma Gains<K(!new)>(t: Tid, a: map<K, Tid>, k: K)
    requires Owns(t, a, None) && k !in a
    ensures Owns(t, a[k := t], Some(k)) && Same(t, a, a[k := t])
  {
  }

  lemma Loses<K(!new)>(t: Tid, a: map<K, Tid>, k: K)
    requires Owns(t, a, Some(k))
    ensures k in a && Owns(t, a - {k}, None) && Same(t, a, a - {k})
  {
  }

  lemma SameSelf(t: Tid, m: Memory)
    ensures Frame(t, m, m)
  {
  }

  /** What a step of thread `t` from `m` to `m'` must establish. */
  ghost predicate Good(t: Tid, m: Memory, pc: Pc, m': Memory) {
    MemoryOk(m') && Stands(t, pc, m') && Frame(t, m, m')
  }

  /** Where thread `t` starts from. */
  ghost predicate Before(c: Config, t: Tid, pc: Pc, m: Memory) {
    c.attachRef && MemoryOk(m) && Stands(t, pc, m)
  }

  /** A call on a WaitSet finds it alive, and a guard it names. */
  lemma Alive(pc: Pc, m: Memory)
    requires MemoryOk(m) && Needs(pc, m)
    ensures Attaching(pc) || (Detaching(pc) && !pc.DetachFire?) ==> pc.w !in m.ws.freed && pc.w !in m.ws.dying
    ensures pc.AttachLock? || pc.AttachAppend? || pc.AttachAcquire? ==> pc.g !in m.gs.freed
  {
    if Attaching(pc) || (Detaching(pc) && !pc.DetachFire?) {
      assert OwnWaitSet(pc.w) in m.ws.refs && OwnWaitSet(pc.w) in To(m.ws.refs, pc.w);
    }
    if pc.AttachLock? || pc.AttachAppend? || pc.AttachAcquire? {
      assert OwnGuard(pc.g) in m.gs.refs && OwnGuard(pc.g) in To(m.gs.refs, pc.g);
    }
  }

  // Each effect: what memory keeps, what stays another thread's, what becomes one's own.

  lemma LockFields(pending: map<Key, Tid>, hands: map<Key, Tid>, conditions: map<Key, Hook>, locks: map<WaitSet, Tid>, ws: WaitSets,
                   destroyer: map<Guard, Tid>, w: WaitSet, t: Tid)
    requires PendingOk(pending, conditions, locks, ws) && HandsOk(hands, locks, destroyer, ws.dying) && w !in locks
    ensures PendingOk(pending, conditions, locks[w := t], ws) && HandsOk(hands, locks[w := t], destroyer, ws.dying)
    ensures Same(t, locks, locks[w := t])
  {
  }

  lemma LockOk(m: Memory, w: WaitSet, t: Tid)
    requires MemoryOk(m) && w !in m.locks
    ensures MemoryOk(Lock(m, w, t)) && Frame(t, m, Lock(m, w, t))
  {
    LockFields(m.tb.pending, m.tb.hands, m.tb.conditions, m.locks, m.ws, m.gs.destroyer, w, t);
    SameSelf(t, m);
  }

  lemma UnlockFields(pending: map<Key, Tid>, hands: map<Key, Tid>, conditions: map<Key, Hook>, locks: map<WaitSet, Tid>,
                     ws: WaitSets, destroyer: map<Guard, Tid>, w: WaitSet, t: Tid)
    requires PendingOk(pending, conditions, locks, ws) && HandsOk(hands, locks, destroyer, ws.dying)
    requires w in locks && locks[w] == t && (forall k :: k in pending ==> pending[k] != t)
    requires forall k :: k in hands && hands[k] == t ==> k.1 in destroyer
    ensures PendingOk(pending, conditions, locks - {w}, ws) && HandsOk(hands, locks - {w}, destroyer, ws.dying)
    ensures Same(t, locks, locks - {w})
  {
  }

  lemma UnlockOk(m: Memory, w: WaitSet, t: Tid)
    requires MemoryOk(m) && w in m.locks && m.locks[w] == t && (forall k :: k in m.tb.pending ==> m.tb.pending[k] != t)
    requires forall k :: k in m.tb.hands && m.tb.hands[k] == t ==> k.1 in m.gs.destroyer
    ensures MemoryOk(Unlock(m, w)) && Frame(t, m, Unlock(m, w))
  {
    UnlockFields(m.tb.pending, m.tb.hands, m.tb.conditions, m.locks, m.ws, m.gs.destroyer, w, t);
    SameSelf(t, m);
  }

  lemma AppendTables(tb: Tables, tb': Tables, k: Key, x: Hook, t: Tid, grefs: map<GuardRef, Guard>, wrefs: map<WaitSetRef, WaitSet>)
    requires tb' == tb.(conditions := tb.conditions[k := x], pending := tb.pending[k := t])
    requires k !in tb.conditions && k !in tb.hands && k !in tb.pending
    requires Attachments(tb, grefs) && RegisteredOk(tb, wrefs)
    ensures Attachments(tb', grefs) && RegisteredOk(tb', wrefs) && SameTables(t, tb, tb')
  {
  }

  lemma AppendPending(pending: map<Key, Tid>, conditions: map<Key, Hook>, k: Key, x: Hook, t: Tid, locks: map<WaitSet, Tid>,
                      ws: WaitSets)
    requires PendingOk(pending, conditions, locks, ws) && k.0 in locks && locks[k.0] == t
    requires k.0 in ws.counts && k.0 !in ws.ender && Drained(k.0, k.1) !in ws.refs
    ensures PendingOk(pending[k := t], conditions[k := x], locks, ws)
  {
  }

  lemma StoredHook(conditions: map<Key, Hook>, h: Hooks, k: Key, x: Hook, t: Tid)
    requires HooksOk(conditions, h) && k !in conditions && x in h.place && h.place[x] == InHand(t)
    ensures HooksOk(conditions[k := x], Placed(h, x, Stored(k))) && SameHooks(t, h.place, h.place[x := Stored(k)])
  {
  }

  lemma AppendOk(m: Memory, k: Key, x: Hook, t: Tid)
    requires MemoryOk(m) && k !in m.tb.conditions && k.0 in m.locks && m.locks[k.0] == t
    requires k.0 in m.ws.counts && k.0 !in m.ws.ender && k.0 !in m.ws.freed && k.0 !in m.ws.dying && k.1 !in m.gs.destroyer
    requires x in m.hooks.place && m.hooks.place[x] == InHand(t) && (k in m.tb.hands ==> m.tb.hands[k] != t)
    ensures MemoryOk(Append(m, k, x, t)) && Frame(t, m, Append(m, k, x, t))
  {
    var m' := Append(m, k, x, t);
    assert k !in m.tb.hands && k !in m.tb.pending;
    AppendTables(m.tb, m'.tb, k, x, t, m.gs.refs, m.ws.refs);
    AppendPending(m.tb.pending, m.tb.conditions, k, x, t, m.locks, m.ws);
    StoredHook(m.tb.conditions, m.hooks, k, x, t);
    SameSelf(t, m);
  }

  lemma AcquireTables(tb: Tables, k: Key, t: Tid, grefs: map<GuardRef, Guard>, g: Guard)
    requires Attachments(tb, grefs) && k in tb.pending && tb.pending[k] == t && k !in tb.hands
    ensures Attachments(tb.(hands := tb.hands[k := t]), grefs[Attached(k.0, k.1) := g])
    ensures Attached(k.0, k.1) !in grefs && SameTables(t, tb, tb.(hands := tb.hands[k := t]))
  {
    var tb', grefs' := tb.(hands := tb.hands[k := t]), grefs[Attached(k.0, k.1) := g];
    forall l: Key ensures Attached(l.0, l.1) in grefs' <==> (l in tb'.conditions && l !in tb'.pending) || l in tb'.hands {
      assert Attached(l.0, l.1) == Attached(k.0, k.1) <==> l == k;
    }
  }

  lemma HandTaken(hands: map<Key, Tid>, k: Key, t: Tid, locks: map<WaitSet, Tid>, destroyer: map<Guard, Tid>, dying: map<WaitSet, Tid>)
    requires HandsOk(hands, locks, destroyer, dying)
    requires (k.0 in locks && locks[k.0] == t) || k.1 in destroyer || (k.0 in dying && dying[k.0] == t)
    ensures HandsOk(hands[k := t], locks, destroyer, dying)
  {
  }

  lemma AddGuardOk(gs: Guards, k: Key, t: Tid)
    requires GuardsOk(gs) && Attached(k.0, k.1) !in gs.refs && k.1 in gs.counts && k.1 !in gs.freed
    ensures GuardsOk(AddGuardRef(gs, Attached(k.0, k.1))) && SameGuards(t, gs, AddGuardRef(gs, Attached(k.0, k.1)))
  {
    Added(gs.refs, gs.counts, Attached(k.0, k.1), k.1);
  }

  lemma AcquireOk(m: Memory, k: Key, t: Tid)
    requires MemoryOk(m) && k in m.tb.pending && m.tb.pending[k] == t && k !in m.tb.hands
    requires k.1 in m.gs.counts && k.1 !in m.gs.freed && k.0 in m.locks && m.locks[k.0] == t
    ensures MemoryOk(Acquire(m, k, t)) && Frame(t, m, Acquire(m, k, t))
  {
    var m' := Acquire(m, k, t);
    AcquireTables(m.tb, k, t, m.gs.refs, k.1);
    AddGuardOk(m.gs, k, t);
    SameSelf(t, m);
    HandTaken(m.tb.hands, k, t, m.locks, m.gs.destroyer, m.ws.dying);
    assert DrainedOk(m.ws.refs, m'.gs.closed, m'.gs.refs);
  }

  lemma RegisterTables(tb: Tables, tb': Tables, k: Key, t: Tid, grefs: map<GuardRef, Guard>, wrefs: map<WaitSetRef, WaitSet>)
    requires tb' == tb.(registered := tb.registered + {k}, pending := tb.pending - {k}, hands := tb.hands - {k})
    requires Attachments(tb, grefs) && RegisteredOk(tb, wrefs) && Drained(k.0, k.1) !in wrefs
    requires k in tb.pending && tb.pending[k] == t && k in tb.hands && tb.hands[k] == t && k in tb.conditions
    ensures Attachments(tb', grefs) && RegisteredOk(tb', wrefs) && SameTables(t, tb, tb')
  {
  }

  lemma FewerPending(pending: map<Key, Tid>, hands: map<Key, Tid>, conditions: map<Key, Hook>, k: Key, locks: map<WaitSet, Tid>,
                     ws: WaitSets, destroyer: map<Guard, Tid>)
    requires PendingOk(pending, conditions, locks, ws) && HandsOk(hands, locks, destroyer, ws.dying)
    ensures PendingOk(pending - {k}, conditions, locks, ws) && HandsOk(hands - {k}, locks, destroyer, ws.dying)
    ensures PendingOk(pending - {k}, conditions - {k}, locks, ws)
  {
  }

  lemma RegisterOk(m: Memory, k: Key, t: Tid)
    requires MemoryOk(m) && k in m.tb.pending && m.tb.pending[k] == t && k in m.tb.hands && m.tb.hands[k] == t
    ensures MemoryOk(Register(m, k)) && Frame(t, m, Register(m, k))
  {
    RegisterTables(m.tb, Register(m, k).tb, k, t, m.gs.refs, m.ws.refs);
    FewerPending(m.tb.pending, m.tb.hands, m.tb.conditions, k, m.locks, m.ws, m.gs.destroyer);
    SameSelf(t, m);
  }

  lemma LetGoTables(tb: Tables, k: Key, t: Tid, grefs: map<GuardRef, Guard>, wrefs: map<WaitSetRef, WaitSet>)
    requires Attachments(tb, grefs) && k in tb.hands && tb.hands[k] == t && RegisteredOk(tb, wrefs)
    ensures Attached(k.0, k.1) in grefs
    ensures var tb' := tb.(hands := tb.hands - {k});
            Attachments(tb', grefs - {Attached(k.0, k.1)}) && RegisteredOk(tb', wrefs) && SameTables(t, tb, tb')
  {
    var tb', grefs' := tb.(hands := tb.hands - {k}), grefs - {Attached(k.0, k.1)};
    forall l: Key ensures Attached(l.0, l.1) in grefs' <==> (l in tb'.conditions && l !in tb'.pending) || l in tb'.hands {
      assert Attached(l.0, l.1) == Attached(k.0, k.1) <==> l == k;
    }
  }

  /** A guard's reference is dropped: its own only in its teardown. */
  lemma DropGuardOk(gs: Guards, h: GuardRef, t: Tid)
    requires GuardsOk(gs) && h in gs.refs && (h.OwnGuard? ==> h.g in gs.destroyer && gs.destroyer[h.g] == t)
    ensures h.g in gs.counts && gs.counts[h.g] > 0 && h.g !in gs.freed
    ensures GuardsOk(DropGuardRef(gs, h)) && SameGuards(t, gs, DropGuardRef(gs, h))
  {
    Removed(gs.refs, gs.counts, h);
  }

  lemma LetGoOk(c: Config, m: Memory, k: Key, t: Tid)
    requires c.attachRef && MemoryOk(m) && k in m.tb.hands && m.tb.hands[k] == t
    ensures MemoryOk(LetGo(c, m, k)) && Frame(t, m, LetGo(c, m, k))
  {
    LetGoTables(m.tb, k, t, m.gs.refs, m.ws.refs);
    DropGuardOk(m.gs, Attached(k.0, k.1), t);
    FewerPending(m.tb.pending, m.tb.hands, m.tb.conditions, k, m.locks, m.ws, m.gs.destroyer);
    SameSelf(t, m);
    DrainedStays(m.ws.refs, m.gs.closed, m.gs.refs, Attached(k.0, k.1));
  }

  lemma DrainedStays(wrefs: map<WaitSetRef, WaitSet>, closed: set<Guard>, grefs: map<GuardRef, Guard>, h: GuardRef)
    requires DrainedOk(wrefs, closed, grefs) && (h.OwnGuard? ==> forall w :: Drained(w, h.g) !in wrefs)
    ensures DrainedOk(wrefs, closed, grefs - {h})
  {
  }

  lemma RollBackTables(tb: Tables, tb': Tables, k: Key, t: Tid, grefs: map<GuardRef, Guard>, wrefs: map<WaitSetRef, WaitSet>,
                       freed: set<WaitSet>)
    requires tb' == tb.(conditions := tb.conditions - {k}, pending := tb.pending - {k})
    requires Attachments(tb, grefs) && RegisteredOk(tb, wrefs) && NoneLeft(tb.conditions, freed)
    requires k in tb.pending && tb.pending[k] == t && k !in tb.hands
    ensures Attachments(tb', grefs) && RegisteredOk(tb', wrefs) && NoneLeft(tb'.conditions, freed) && SameTables(t, tb, tb')
  {
  }

  lemma UnstoredHook(conditions: map<Key, Hook>, h: Hooks, k: Key, t: Tid, p: Place)
    requires HooksOk(conditions, h) && k in conditions && (p == Refused || p == InHand(t))
    ensures var x := conditions[k];
            x in h.place && h.place[x] == Stored(k)
            && HooksOk(conditions - {k}, Placed(h, x, p)) && SameHooks(t, h.place, h.place[x := p])
  {
  }

  lemma RollBackOk(m: Memory, k: Key, t: Tid)
    requires MemoryOk(m) && k in m.tb.pending && m.tb.pending[k] == t && k !in m.tb.hands
    ensures k in m.tb.conditions
    ensures MemoryOk(RollBack(m, k, m.tb.conditions[k])) && Frame(t, m, RollBack(m, k, m.tb.conditions[k]))
  {
    var x := m.tb.conditions[k];
    RollBackTables(m.tb, RollBack(m, k, x).tb, k, t, m.gs.refs, m.ws.refs, m.ws.freed);
    FewerPending(m.tb.pending, m.tb.hands, m.tb.conditions, k, m.locks, m.ws, m.gs.destroyer);
    UnstoredHook(m.tb.conditions, m.hooks, k, t, Refused);
    SameSelf(t, m);
  }

  lemma RefusedHook(conditions: map<Key, Hook>, h: Hooks, x: Hook, t: Tid)
    requires HooksOk(conditions, h) && x in h.place && h.place[x] == InHand(t)
    ensures HooksOk(conditions, Placed(h, x, Refused)) && SameHooks(t, h.place, h.place[x := Refused])
  {
  }

  lemma FiredHook(conditions: map<Key, Hook>, h: Hooks, x: Hook, t: Tid)
    requires HooksOk(conditions, h) && x in h.place && h.place[x] == InHand(t)
    ensures HooksOk(conditions, Hooks(h.next, h.place[x := Fired], h.fired + multiset{x}))
    ensures SameHooks(t, h.place, h.place[x := Fired])
  {
  }

  lemma HookOk(m: Memory, x: Hook, t: Tid)
    requires MemoryOk(m) && x in m.hooks.place && m.hooks.place[x] == InHand(t)
    ensures MemoryOk(Refuse(m, x)) && Frame(t, m, Refuse(m, x)) && MemoryOk(Fire(m, x)) && Frame(t, m, Fire(m, x))
  {
    RefusedHook(m.tb.conditions, m.hooks, x, t);
    FiredHook(m.tb.conditions, m.hooks, x, t);
    SameSelf(t, m);
  }

  lemma RemoveTables(tb: Tables, tb': Tables, k: Key, t: Tid, grefs: map<GuardRef, Guard>, wrefs: map<WaitSetRef, WaitSet>,
                     freed: set<WaitSet>)
    requires tb' == tb.(conditions := tb.conditions - {k}, hands := tb.hands[k := t])
    requires Attachments(tb, grefs) && RegisteredOk(tb, wrefs) && NoneLeft(tb.conditions, freed)
    requires k in tb.conditions && k !in tb.pending && k !in tb.registered
    ensures Attachments(tb', grefs) && RegisteredOk(tb', wrefs) && NoneLeft(tb'.conditions, freed) && SameTables(t, tb, tb')
  {
  }

  lemma RemovePending(pending: map<Key, Tid>, conditions: map<Key, Hook>, k: Key, locks: map<WaitSet, Tid>, ws: WaitSets)
    requires PendingOk(pending, conditions, locks, ws) && k !in pending
    ensures PendingOk(pending, conditions - {k}, locks, ws)
  {
  }

  lemma RemoveOk(m: Memory, k: Key, t: Tid)
    requires MemoryOk(m) && k in m.tb.conditions && k !in m.tb.pending && k !in m.tb.registered
    requires (k.0 in m.locks && m.locks[k.0] == t) || k.1 in m.gs.destroyer || (k.0 in m.ws.dying && m.ws.dying[k.0] == t)
    ensures MemoryOk(Remove(m, k, t)) && Frame(t, m, Remove(m, k, t))
  {
    RemoveTables(m.tb, Remove(m, k, t).tb, k, t, m.gs.refs, m.ws.refs, m.ws.freed);
    RemovePending(m.tb.pending, m.tb.conditions, k, m.locks, m.ws);
    HandTaken(m.tb.hands, k, t, m.locks, m.gs.destroyer, m.ws.dying);
    UnstoredHook(m.tb.conditions, m.hooks, k, t, InHand(t));
    SameSelf(t, m);
  }

  lemma UnregisterOk(m: Memory, k: Key, t: Tid)
    requires MemoryOk(m)
    ensures MemoryOk(Unregister(m, k)) && Frame(t, m, Unregister(m, k))
  {
    assert Attachments(Unregister(m, k).tb, m.gs.refs);
    assert RegisteredOk(Unregister(m, k).tb, m.ws.refs);
    SameSelf(t, m);
  }

  lemma AddDrainedOk(ws: WaitSets, k: Key, t: Tid, destroyer: map<Guard, Tid>)
    requires WaitSetsOk(ws) && Drained(k.0, k.1) !in ws.refs && Count(ws.counts, k.0) > 0
    requires k.1 in destroyer && destroyer[k.1] == t
    ensures WaitSetsOk(AddWaitSetRef(ws, Drained(k.0, k.1)))
    ensures SameWaitSets(t, ws, AddWaitSetRef(ws, Drained(k.0, k.1)), destroyer)
  {
    AddCounts(ws, Drained(k.0, k.1));
    AddSame(ws, Drained(k.0, k.1), t, destroyer);
  }

  lemma AddCounts(ws: WaitSets, h: WaitSetRef)
    requires WaitSetsOk(ws) && h !in ws.refs && h.w in ws.counts && ws.counts[h.w] > 0
    ensures WaitSetsOk(AddWaitSetRef(ws, h))
  {
    Added(ws.refs, ws.counts, h, h.w);
  }

  lemma AddSame(ws: WaitSets, h: WaitSetRef, t: Tid, destroyer: map<Guard, Tid>)
    requires h.OwnWaitSet? ==> h.w !in ws.ender
    requires h.Drained? ==> h.g in destroyer && destroyer[h.g] == t
    ensures SameWaitSets(t, ws, AddWaitSetRef(ws, h), destroyer)
  {
  }

  lemma DrainedFields(tb: Tables, tb': Tables, ws: WaitSets, k: Key, locks: map<WaitSet, Tid>, closed: set<Guard>,
                      grefs: map<GuardRef, Guard>)
    requires tb' == tb.(registered := tb.registered - {k}) && k !in tb.pending
    requires RegisteredOk(tb, ws.refs) && PendingOk(tb.pending, tb.conditions, locks, ws)
    requires DrainedOk(ws.refs, closed, grefs) && k.1 in closed && OwnGuard(k.1) in grefs && k.0 in ws.counts
    ensures var ws' := AddWaitSetRef(ws, Drained(k.0, k.1));
            RegisteredOk(tb', ws'.refs) && PendingOk(tb.pending, tb.conditions, locks, ws')
            && DrainedOk(ws'.refs, closed, grefs)
  {
  }

  lemma DrainOk(c: Config, m: Memory, k: Key, t: Tid)
    requires MemoryOk(m) && k in m.tb.registered && k.1 in m.gs.closed && OwnGuard(k.1) in m.gs.refs
    requires k.1 in m.gs.destroyer && m.gs.destroyer[k.1] == t
    ensures MemoryOk(Drain(c, m, k)) && Frame(t, m, Drain(c, m, k))
  {
    UnregisterOk(m, k, t);
    if Acquires(c, m.ws, k.0) {
      DrainedFields(m.tb, Unregister(m, k).tb, m.ws, k, m.locks, m.gs.closed, m.gs.refs);
      AddDrainedOk(m.ws, k, t, m.gs.destroyer);
      SameSelf(t, Unregister(m, k));
    }
  }

  lemma CloseGuardOk(m: Memory, g: Guard, t: Tid)
    requires MemoryOk(m) && g in m.gs.destroyer
    ensures MemoryOk(CloseGuard(m, g)) && Frame(t, m, CloseGuard(m, g))
  {
    SameSelf(t, m);
    assert GuardsOk(CloseGuard(m, g).gs) && DrainedOk(m.ws.refs, CloseGuard(m, g).gs.closed, m.gs.refs);
  }

  lemma CloseWaitSetOk(m: Memory, w: WaitSet, t: Tid)
    requires MemoryOk(m)
    ensures MemoryOk(CloseWaitSet(m, w)) && Frame(t, m, CloseWaitSet(m, w))
  {
    SameSelf(t, m);
    assert WaitSetsOk(CloseWaitSet(m, w).ws) && PendingOk(m.tb.pending, m.tb.conditions, m.locks, CloseWaitSet(m, w).ws);
  }

  lemma DropWaitSetOk(ws: WaitSets, h: WaitSetRef, t: Tid, destroyer: map<Guard, Tid>)
    requires WaitSetsOk(ws) && h in ws.refs
    requires h.OwnWaitSet? ==> h.w in ws.ender && ws.ender[h.w] == t
    requires h.Drained? ==> h.g in destroyer && destroyer[h.g] == t
    ensures h.w in ws.counts && ws.counts[h.w] > 0 && h.w !in ws.freed && h.w !in ws.dying
    ensures WaitSetsOk(DropWaitSetRef(ws, h, t)) && SameWaitSets(t, ws, DropWaitSetRef(ws, h, t), destroyer)
  {
    Removed(ws.refs, ws.counts, h);
    DropSame(ws, h, t, destroyer);
  }

  lemma DropSame(ws: WaitSets, h: WaitSetRef, t: Tid, destroyer: map<Guard, Tid>)
    requires h.w !in ws.dying && h.w in ws.counts
    requires h.OwnWaitSet? ==> h.w in ws.ender && ws.ender[h.w] == t
    requires h.Drained? ==> h.g in destroyer && destroyer[h.g] == t
    ensures SameWaitSets(t, ws, DropWaitSetRef(ws, h, t), destroyer)
  {
  }

  lemma DroppedFields(tb: Tables, ws: WaitSets, h: WaitSetRef, t: Tid, locks: map<WaitSet, Tid>, gs: Guards)
    requires RegisteredOk(tb, ws.refs) && PendingOk(tb.pending, tb.conditions, locks, ws) && h.w in ws.counts && h.w !in ws.dying
    requires DrainedOk(ws.refs, gs.closed, gs.refs) && HandsOk(tb.hands, locks, gs.destroyer, ws.dying)
    ensures var ws' := DropWaitSetRef(ws, h, t);
            RegisteredOk(tb, ws'.refs) && PendingOk(tb.pending, tb.conditions, locks, ws')
            && DrainedOk(ws'.refs, gs.closed, gs.refs) && HandsOk(tb.hands, locks, gs.destroyer, ws'.dying)
  {
  }

  lemma ReleaseWaitSetOk(m: Memory, h: WaitSetRef, t: Tid)
    requires MemoryOk(m) && h in m.ws.refs
    requires h.OwnWaitSet? ==> h.w in m.ws.ender && m.ws.ender[h.w] == t
    requires h.Drained? ==> h.g in m.gs.destroyer && m.gs.destroyer[h.g] == t
    ensures MemoryOk(ReleaseWaitSet(m, h, t)) && Frame(t, m, ReleaseWaitSet(m, h, t))
  {
    DropWaitSetOk(m.ws, h, t, m.gs.destroyer);
    DroppedFields(m.tb, m.ws, h, t, m.locks, m.gs);
    SameSelf(t, m);
  }

  /** A guard's own reference goes when it has nothing drained left. */
  lemma ReleaseOwnOk(m: Memory, g: Guard, t: Tid)
    requires MemoryOk(m) && OwnGuard(g) in m.gs.refs && g in m.gs.destroyer && m.gs.destroyer[g] == t
    requires forall w :: Drained(w, g) !in m.ws.refs
    ensures MemoryOk(ReleaseGuard(m, OwnGuard(g))) && Frame(t, m, ReleaseGuard(m, OwnGuard(g)))
  {
    DropGuardOk(m.gs, OwnGuard(g), t);
    DrainedStays(m.ws.refs, m.gs.closed, m.gs.refs, OwnGuard(g));
    SameSelf(t, m);
    assert Attachments(m.tb, m.gs.refs - {OwnGuard(g)});
  }

  lemma FreedFields(tb: Tables, ws: WaitSets, w: WaitSet, t: Tid, locks: map<WaitSet, Tid>, destroyer: map<Guard, Tid>)
    requires WaitSetsOk(ws) && w in ws.dying && ws.dying[w] == t && (forall k :: k in tb.conditions ==> k.0 != w)
    requires HandsOk(tb.hands, locks, destroyer, ws.dying) && NoneLeft(tb.conditions, ws.freed)
    requires PendingOk(tb.pending, tb.conditions, locks, ws)
    requires forall k :: k in tb.hands ==> tb.hands[k] != t
    ensures var ws' := ws.(freed := ws.freed + {w}, dying := ws.dying - {w});
            WaitSetsOk(ws') && HandsOk(tb.hands, locks, destroyer, ws'.dying) && NoneLeft(tb.conditions, ws'.freed)
            && PendingOk(tb.pending, tb.conditions, locks, ws') && SameWaitSets(t, ws, ws', destroyer)
  {
  }

  lemma FreeWaitSetOk(m: Memory, w: WaitSet, t: Tid)
    requires MemoryOk(m) && w in m.ws.dying && m.ws.dying[w] == t && (forall k :: k in m.tb.conditions ==> k.0 != w)
    requires forall k :: k in m.tb.hands ==> m.tb.hands[k] != t
    ensures MemoryOk(FreeWaitSet(m, w)) && Frame(t, m, FreeWaitSet(m, w))
  {
    FreedFields(m.tb, m.ws, w, t, m.locks, m.gs.destroyer);
    SameSelf(t, m);
  }

  // ---- Each place ---------------------------------------------------------------------

  lemma HookGone(t: Tid, place: map<Hook, Place>, x: Hook, p: Place)
    requires OwnsHook(t, place, Some(x)) && !p.InHand?
    ensures x in place && place[x] == InHand(t) && OwnsHook(t, place[x := p], None)
  {
  }

  lemma HookComes(t: Tid, place: map<Hook, Place>, x: Hook)
    requires OwnsHook(t, place, None)
    ensures OwnsHook(t, place[x := InHand(t)], Some(x))
  {
  }

  /** An attachment's reference keeps its guard; a drained handle its WaitSet; an own
      reference its owner. */
  lemma HandAlive(m: Memory, k: Key)
    requires MemoryOk(m) && k in m.tb.hands
    ensures k.1 !in m.gs.freed
  {
    assert Attached(k.0, k.1) in To(m.gs.refs, k.1);
  }

  lemma EntryAlive(m: Memory, k: Key)
    requires MemoryOk(m) && k in m.tb.conditions && k !in m.tb.pending
    ensures k.1 !in m.gs.freed && k !in m.tb.hands
  {
    assert Attached(k.0, k.1) in To(m.gs.refs, k.1);
  }

  lemma OwnAlive(m: Memory, g: Guard)
    requires MemoryOk(m) && OwnGuard(g) in m.gs.refs
    ensures g !in m.gs.freed
  {
    assert OwnGuard(g) in To(m.gs.refs, g);
  }

  lemma DrainedAlive(m: Memory, w: WaitSet, g: Guard)
    requires MemoryOk(m) && Drained(w, g) in m.ws.refs
    ensures w !in m.ws.freed && w !in m.ws.dying && Count(m.ws.counts, w) > 0
  {
    assert Drained(w, g) in To(m.ws.refs, w);
  }

  lemma OwnWaitSetAlive(m: Memory, w: WaitSet)
    requires MemoryOk(m) && OwnWaitSet(w) in m.ws.refs
    ensures w !in m.ws.freed && w !in m.ws.dying && Count(m.ws.counts, w) > 0
  {
    assert OwnWaitSet(w) in To(m.ws.refs, w);
  }

  lemma DyingHasNoCalls(m: Memory, k: Key)
    requires MemoryOk(m) && k.0 in m.ws.dying
    ensures k !in m.tb.pending
  {
    assert OwnWaitSet(k.0) in m.ws.refs ==> OwnWaitSet(k.0) in To(m.ws.refs, k.0);
  }

  /** An entry is removed and unregistered in one go. */
  lemma TakenOk(m: Memory, k: Key, t: Tid)
    requires MemoryOk(m) && k in m.tb.conditions && k !in m.tb.pending
    requires (k.0 in m.locks && m.locks[k.0] == t) || (k.0 in m.ws.dying && m.ws.dying[k.0] == t)
    ensures MemoryOk(Remove(Unregister(m, k), k, t)) && Frame(t, m, Remove(Unregister(m, k), k, t))
  {
    UnregisterOk(m, k, t);
    RemoveOk(Unregister(m, k), k, t);
  }

  lemma LetGoDestroys(c: Config, t: Tid, m: Memory, k: Key, of: Option<Guard>)
    requires Destroys(t, m.gs, of)
    ensures Destroys(t, LetGo(c, m, k).gs, of)
  {
  }

  lemma ReleaseEnds(t: Tid, ws: WaitSets, w: WaitSet, g: Guard, of: Option<WaitSet>)
    requires Ends(t, ws, of)
    ensures Ends(t, DropWaitSetRef(ws, Drained(w, g), t), of)
  {
  }

  lemma AttachLockPlace(t: Tid, w: WaitSet, g: Guard, x: Hook, m: Memory)
    requires Stands(t, AttachLock(w, g, x), m) && w !in m.locks
    ensures Stands(t, AttachAppend(w, g, x), Lock(m, w, t))
  {
    Gains(t, m.locks, w);
  }

  lemma AttachLockKeeps(c: Config, t: Tid, w: WaitSet, g: Guard, x: Hook, m: Memory)
    requires Before(c, t, AttachLock(w, g, x), m) && w !in m.locks
    ensures UseGuard(UseWaitSet(m, w), g) == m && Good(t, m, AttachAppend(w, g, x), Lock(m, w, t))
  {
    AttachLockPlace(t, w, g, x, m);
    LockOk(m, w, t);
    Alive(AttachLock(w, g, x), m);
  }

  lemma AttachRefusePlace(t: Tid, w: WaitSet, g: Guard, x: Hook, m: Memory)
    requires Stands(t, AttachAppend(w, g, x), m)
    ensures Stands(t, AttachUnlock(w), Refuse(m, x))
  {
    HookGone(t, m.hooks.place, x, Refused);
  }

  lemma AttachRefuseKeeps(c: Config, t: Tid, w: WaitSet, g: Guard, x: Hook, m: Memory)
    requires Before(c, t, AttachAppend(w, g, x), m)
    ensures UseWaitSet(m, w) == m && Good(t, m, AttachUnlock(w), Refuse(m, x))
  {
    AttachRefusePlace(t, w, g, x, m);
    HookOk(m, x, t);
    Alive(AttachAppend(w, g, x), m);
  }

  lemma AttachAppendPlace(t: Tid, w: WaitSet, g: Guard, x: Hook, m: Memory)
    requires Stands(t, AttachAppend(w, g, x), m) && (w, g) !in m.tb.pending
    ensures Stands(t, AttachAcquire(w, g, x), Append(m, (w, g), x, t))
  {
    HookGone(t, m.hooks.place, x, Stored((w, g)));
    Gains(t, m.tb.pending, (w, g));
  }

  lemma AttachAppendKeeps(c: Config, t: Tid, w: WaitSet, g: Guard, x: Hook, m: Memory)
    requires Before(c, t, AttachAppend(w, g, x), m) && (w, g) !in m.tb.conditions
    ensures UseWaitSet(m, w) == m && Good(t, m, AttachAcquire(w, g, x), Append(m, (w, g), x, t))
  {
    Alive(AttachAppend(w, g, x), m);
    AppendOk(m, (w, g), x, t);
    AttachAppendPlace(t, w, g, x, m);
  }

  lemma AttachAcquirePlace(t: Tid, w: WaitSet, g: Guard, x: Hook, m: Memory)
    requires Stands(t, AttachAcquire(w, g, x), m) && (w, g) !in m.tb.hands
    ensures Stands(t, AttachRegister(w, g, x), Acquire(m, (w, g), t))
  {
    Gains(t, m.tb.hands, (w, g));
  }

  lemma AttachAcquireKeeps(c: Config, t: Tid, w: WaitSet, g: Guard, x: Hook, m: Memory)
    requires Before(c, t, AttachAcquire(w, g, x), m)
    ensures UseGuard(m, g) == m && g !in m.gs.closed && Count(m.gs.counts, g) > 0
    ensures Good(t, m, AttachRegister(w, g, x), Acquire(m, (w, g), t))
  {
    Alive(AttachAcquire(w, g, x), m);
    AcquireOk(m, (w, g), t);
    AttachAcquirePlace(t, w, g, x, m);
  }

  lemma AttachFullPlace(t: Tid, w: WaitSet, g: Guard, x: Hook, m: Memory)
    requires Stands(t, AttachRegister(w, g, x), m)
    ensures Stands(t, AttachDrop(w, g, x), m)
  {
  }

  lemma AttachFullKeeps(c: Config, t: Tid, w: WaitSet, g: Guard, x: Hook, m: Memory)
    requires Before(c, t, AttachRegister(w, g, x), m)
    ensures UseGuard(m, g) == m && Good(t, m, AttachDrop(w, g, x), m)
  {
    HandAlive(m, (w, g));
    AttachFullPlace(t, w, g, x, m);
    SameSelf(t, m);
  }

  lemma AttachRegisterPlace(t: Tid, w: WaitSet, g: Guard, x: Hook, m: Memory)
    requires Stands(t, AttachRegister(w, g, x), m)
    ensures Stands(t, AttachUnlock(w), Register(m, (w, g)))
  {
    Loses(t, m.tb.pending, (w, g));
    Loses(t, m.tb.hands, (w, g));
  }

  lemma AttachRegisterKeeps(c: Config, t: Tid, w: WaitSet, g: Guard, x: Hook, m: Memory)
    requires Before(c, t, AttachRegister(w, g, x), m)
    ensures UseGuard(m, g) == m && Good(t, m, AttachUnlock(w), Register(m, (w, g)))
  {
    HandAlive(m, (w, g));
    AttachRegisterPlace(t, w, g, x, m);
    RegisterOk(m, (w, g), t);
  }

  lemma AttachDropPlace(c: Config, t: Tid, w: WaitSet, g: Guard, x: Hook, m: Memory)
    requires Stands(t, AttachDrop(w, g, x), m) && c.attachRef && (w, g) in m.tb.hands
    ensures Stands(t, AttachRollBack(w, g, x), LetGo(c, m, (w, g)))
  {
    Loses(t, m.tb.hands, (w, g));
    LetGoDestroys(c, t, m, (w, g), None);
  }

  lemma AttachDropKeeps(c: Config, t: Tid, w: WaitSet, g: Guard, x: Hook, m: Memory)
    requires Before(c, t, AttachDrop(w, g, x), m)
    ensures Good(t, m, AttachRollBack(w, g, x), LetGo(c, m, (w, g)))
  {
    LetGoOk(c, m, (w, g), t);
    AttachDropPlace(c, t, w, g, x, m);
  }

  lemma AttachRollBackPlace(t: Tid, w: WaitSet, g: Guard, x: Hook, m: Memory)
    requires Stands(t, AttachRollBack(w, g, x), m) && x in m.hooks.place && m.hooks.place[x] == Stored((w, g))
    ensures Stands(t, AttachUnlock(w), RollBack(m, (w, g), x))
  {
    Loses(t, m.tb.pending, (w, g));
  }

  lemma AttachRollBackKeeps(c: Config, t: Tid, w: WaitSet, g: Guard, x: Hook, m: Memory)
    requires Before(c, t, AttachRollBack(w, g, x), m)
    ensures UseWaitSet(m, w) == m && Good(t, m, AttachUnlock(w), RollBack(m, (w, g), x))
  {
    Alive(AttachRollBack(w, g, x), m);
    RollBackOk(m, (w, g), t);
    AttachRollBackPlace(t, w, g, x, m);
  }

  lemma AttachUnlockPlace(t: Tid, w: WaitSet, m: Memory)
    requires Stands(t, AttachUnlock(w), m)
    ensures Stands(t, Idle, Unlock(m, w))
  {
    Loses(t, m.locks, w);
  }

  lemma AttachUnlockKeeps(c: Config, t: Tid, w: WaitSet, m: Memory)
    requires Before(c, t, AttachUnlock(w), m)
    ensures UseWaitSet(m, w) == m && Good(t, m, Idle, Unlock(m, w))
  {
    Alive(AttachUnlock(w), m);
    UnlockOk(m, w, t);
    AttachUnlockPlace(t, w, m);
  }

  lemma DetachLockPlace(t: Tid, w: WaitSet, g: Guard, m: Memory)
    requires Stands(t, DetachLock(w, g), m) && w !in m.locks
    ensures Stands(t, DetachRemove(w, g), Lock(m, w, t))
  {
    Gains(t, m.locks, w);
  }

  lemma DetachLockKeeps(c: Config, t: Tid, w: WaitSet, g: Guard, m: Memory)
    requires Before(c, t, DetachLock(w, g), m) && w !in m.locks
    ensures UseWaitSet(m, w) == m && Good(t, m, DetachRemove(w, g), Lock(m, w, t))
  {
    Alive(DetachLock(w, g), m);
    LockOk(m, w, t);
    DetachLockPlace(t, w, g, m);
  }

  lemma DetachNothingPlace(t: Tid, w: WaitSet, g: Guard, m: Memory)
    requires Stands(t, DetachRemove(w, g), m)
    ensures Stands(t, DetachUnlock(w, None), m)
  {
  }

  lemma DetachNothingKeeps(c: Config, t: Tid, w: WaitSet, g: Guard, m: Memory)
    requires Before(c, t, DetachRemove(w, g), m)
    ensures UseWaitSet(m, w) == m && Good(t, m, DetachUnlock(w, None), m)
  {
    Alive(DetachRemove(w, g), m);
    SameSelf(t, m);
    DetachNothingPlace(t, w, g, m);
  }

  lemma DetachRemovePlace(t: Tid, w: WaitSet, g: Guard, x: Hook, m: Memory)
    requires Stands(t, DetachRemove(w, g), m) && (w, g) !in m.tb.hands
    requires (w, g) in m.tb.conditions && m.tb.conditions[(w, g)] == x
    ensures Stands(t, DetachRelease(w, g, x), Remove(Unregister(m, (w, g)), (w, g), t))
  {
    HookComes(t, m.hooks.place, x);
    Gains(t, m.tb.hands, (w, g));
  }

  lemma DetachRemoveKeeps(c: Config, t: Tid, w: WaitSet, g: Guard, x: Hook, m: Memory)
    requires Before(c, t, DetachRemove(w, g), m) && (w, g) in m.tb.conditions && m.tb.conditions[(w, g)] == x
    ensures UseGuard(UseWaitSet(m, w), g) == m && Good(t, m, DetachRelease(w, g, x), Remove(Unregister(m, (w, g)), (w, g), t))
  {
    Alive(DetachRemove(w, g), m);
    EntryAlive(m, (w, g));
    TakenOk(m, (w, g), t);
    DetachRemovePlace(t, w, g, x, m);
  }

  lemma DetachReleasePlace(c: Config, t: Tid, w: WaitSet, g: Guard, x: Hook, m: Memory)
    requires Stands(t, DetachRelease(w, g, x), m) && c.attachRef && (w, g) in m.tb.hands
    ensures Stands(t, DetachUnlock(w, Some(x)), LetGo(c, m, (w, g)))
  {
    Loses(t, m.tb.hands, (w, g));
    LetGoDestroys(c, t, m, (w, g), None);
  }

  lemma DetachReleaseKeeps(c: Config, t: Tid, w: WaitSet, g: Guard, x: Hook, m: Memory)
    requires Before(c, t, DetachRelease(w, g, x), m)
    ensures Good(t, m, DetachUnlock(w, Some(x)), LetGo(c, m, (w, g)))
  {
    LetGoOk(c, m, (w, g), t);
    DetachReleasePlace(c, t, w, g, x, m);
  }

  lemma DetachUnlockPlace(t: Tid, w: WaitSet, hook: Option<Hook>, m: Memory)
    requires Stands(t, DetachUnlock(w, hook), m)
    ensures Stands(t, AfterDetach(hook), Unlock(m, w))
  {
    Loses(t, m.locks, w);
  }

  lemma DetachUnlockKeeps(c: Config, t: Tid, w: WaitSet, hook: Option<Hook>, m: Memory)
    requires Before(c, t, DetachUnlock(w, hook), m)
    ensures UseWaitSet(m, w) == m && Good(t, m, AfterDetach(hook), Unlock(m, w))
  {
    Alive(DetachUnlock(w, hook), m);
    UnlockOk(m, w, t);
    DetachUnlockPlace(t, w, hook, m);
  }

  lemma DetachFirePlace(t: Tid, x: Hook, m: Memory)
    requires Stands(t, DetachFire(x), m)
    ensures Stands(t, Idle, Fire(m, x))
  {
    HookGone(t, m.hooks.place, x, Fired);
  }

  lemma DetachFireKeeps(c: Config, t: Tid, x: Hook, m: Memory)
    requires Before(c, t, DetachFire(x), m)
    ensures Good(t, m, Idle, Fire(m, x))
  {
    HookOk(m, x, t);
    DetachFirePlace(t, x, m);
  }

  lemma DestroyClosePlace(t: Tid, g: Guard, m: Memory)
    requires Stands(t, DestroyClose(g), m)
    ensures Stands(t, DestroyDrain(g), CloseGuard(m, g))
  {
  }

  lemma DestroyCloseKeeps(c: Config, t: Tid, g: Guard, m: Memory)
    requires Before(c, t, DestroyClose(g), m)
    ensures UseGuard(m, g) == m && Good(t, m, DestroyDrain(g), CloseGuard(m, g))
  {
    OwnAlive(m, g);
    CloseGuardOk(m, g, t);
    DestroyClosePlace(t, g, m);
  }

  lemma DestroyDrainPlace(c: Config, t: Tid, w: WaitSet, g: Guard, m: Memory)
    requires Stands(t, DestroyDrain(g), m) && (w, g) in m.tb.registered
    ensures Stands(t, DestroyDrain(g), Drain(c, m, (w, g)))
  {
  }

  lemma DestroyDrainKeeps(c: Config, t: Tid, w: WaitSet, g: Guard, m: Memory)
    requires Before(c, t, DestroyDrain(g), m) && (w, g) in m.tb.registered
    ensures UseGuard(UseWaitSet(m, w), g) == m && Good(t, m, DestroyDrain(g), Drain(c, m, (w, g)))
  {
    OwnAlive(m, g);
    DrainOk(c, m, (w, g), t);
    DestroyDrainPlace(c, t, w, g, m);
  }

  lemma DestroyDrainedPlace(t: Tid, g: Guard, m: Memory)
    requires Stands(t, DestroyDrain(g), m)
    ensures Stands(t, DestroyNext(g), m)
  {
  }

  lemma DestroyDrainedKeeps(c: Config, t: Tid, g: Guard, m: Memory)
    requires Before(c, t, DestroyDrain(g), m)
    ensures Good(t, m, DestroyNext(g), m)
  {
    DestroyDrainedPlace(t, g, m);
    SameSelf(t, m);
  }

  lemma DestroyPickPlace(t: Tid, w: WaitSet, g: Guard, m: Memory)
    requires Stands(t, DestroyNext(g), m) && Drained(w, g) in m.ws.refs
    ensures Stands(t, DestroyLock(w, g), m)
  {
  }

  lemma DestroyPickKeeps(c: Config, t: Tid, w: WaitSet, g: Guard, m: Memory)
    requires Before(c, t, DestroyNext(g), m) && Drained(w, g) in m.ws.refs
    ensures Good(t, m, DestroyLock(w, g), m)
  {
    DestroyPickPlace(t, w, g, m);
    SameSelf(t, m);
  }

  lemma DestroyLastPlace(t: Tid, g: Guard, m: Memory)
    requires Stands(t, DestroyNext(g), m) && (forall w :: Drained(w, g) !in m.ws.refs)
    ensures Stands(t, DestroyOwn(g), m)
  {
  }

  lemma DestroyLastKeeps(c: Config, t: Tid, g: Guard, m: Memory)
    requires Before(c, t, DestroyNext(g), m) && (forall w :: Drained(w, g) !in m.ws.refs)
    ensures Good(t, m, DestroyOwn(g), m)
  {
    DestroyLastPlace(t, g, m);
    SameSelf(t, m);
  }

  lemma DestroyLockPlace(t: Tid, w: WaitSet, g: Guard, m: Memory)
    requires Stands(t, DestroyLock(w, g), m) && w !in m.locks
    ensures Stands(t, DestroyRemove(w, g), Lock(m, w, t))
  {
    Gains(t, m.locks, w);
  }

  lemma DestroyLockKeeps(c: Config, t: Tid, w: WaitSet, g: Guard, m: Memory)
    requires Before(c, t, DestroyLock(w, g), m) && w !in m.locks
    ensures UseWaitSet(m, w) == m && Good(t, m, DestroyRemove(w, g), Lock(m, w, t))
  {
    DrainedAlive(m, w, g);
    LockOk(m, w, t);
    DestroyLockPlace(t, w, g, m);
  }

  lemma DestroyNothingPlace(t: Tid, w: WaitSet, g: Guard, m: Memory)
    requires Stands(t, DestroyRemove(w, g), m)
    ensures Stands(t, DestroyUnlock(w, g, None), m)
  {
  }

  lemma DestroyNothingKeeps(c: Config, t: Tid, w: WaitSet, g: Guard, m: Memory)
    requires Before(c, t, DestroyRemove(w, g), m)
    ensures UseWaitSet(m, w) == m && Good(t, m, DestroyUnlock(w, g, None), m)
  {
    DrainedAlive(m, w, g);
    SameSelf(t, m);
    DestroyNothingPlace(t, w, g, m);
  }

  lemma DestroyRemovePlace(t: Tid, w: WaitSet, g: Guard, x: Hook, m: Memory)
    requires Stands(t, DestroyRemove(w, g), m) && (w, g) !in m.tb.hands
    requires (w, g) in m.tb.conditions && m.tb.conditions[(w, g)] == x
    ensures Stands(t, DestroyUnlock(w, g, Some(x)), Remove(m, (w, g), t))
  {
    HookComes(t, m.hooks.place, x);
    Gains(t, m.tb.hands, (w, g));
  }

  lemma DestroyRemoveKeeps(c: Config, t: Tid, w: WaitSet, g: Guard, x: Hook, m: Memory)
    requires Before(c, t, DestroyRemove(w, g), m) && (w, g) in m.tb.conditions && m.tb.conditions[(w, g)] == x
    ensures UseWaitSet(m, w) == m && Good(t, m, DestroyUnlock(w, g, Some(x)), Remove(m, (w, g), t))
  {
    DrainedAlive(m, w, g);
    RemoveOk(m, (w, g), t);
    DestroyRemovePlace(t, w, g, x, m);
  }

  lemma DestroyUnlockHook(t: Tid, w: WaitSet, g: Guard, x: Hook, m: Memory)
    requires Stands(t, DestroyUnlock(w, g, Some(x)), m)
    ensures Stands(t, DestroyRelease(w, g, x), Unlock(m, w))
  {
    Loses(t, m.locks, w);
  }

  lemma DestroyUnlockPlace(t: Tid, w: WaitSet, g: Guard, hook: Option<Hook>, m: Memory)
    requires Stands(t, DestroyUnlock(w, g, hook), m)
    ensures var pc' := AfterInvalidate(w, g, hook);
            Stands(t, pc', Unlock(m, w))
  {
    if hook.Some? { DestroyUnlockHook(t, w, g, hook.value, m); } else { DestroyUnlockNone(t, w, g, m); }
  }

  lemma DestroyUnlockNone(t: Tid, w: WaitSet, g: Guard, m: Memory)
    requires Stands(t, DestroyUnlock(w, g, None), m)
    ensures Stands(t, DestroyDone(w, g), Unlock(m, w))
  {
    Loses(t, m.locks, w);
  }

  lemma DestroyUnlockKeeps(c: Config, t: Tid, w: WaitSet, g: Guard, hook: Option<Hook>, m: Memory)
    requires Before(c, t, DestroyUnlock(w, g, hook), m)
    ensures UseWaitSet(m, w) == m && Good(t, m, AfterInvalidate(w, g, hook), Unlock(m, w))
  {
    DrainedAlive(m, w, g);
    UnlockOk(m, w, t);
    DestroyUnlockPlace(t, w, g, hook, m);
  }

  lemma DestroyReleasePlace(c: Config, t: Tid, w: WaitSet, g: Guard, x: Hook, m: Memory)
    requires Stands(t, DestroyRelease(w, g, x), m) && c.attachRef && (w, g) in m.tb.hands
    ensures Stands(t, DestroyFire(w, g, x), LetGo(c, m, (w, g)))
  {
    Loses(t, m.tb.hands, (w, g));
    LetGoDestroys(c, t, m, (w, g), Some(g));
  }

  lemma DestroyReleaseKeeps(c: Config, t: Tid, w: WaitSet, g: Guard, x: Hook, m: Memory)
    requires Before(c, t, DestroyRelease(w, g, x), m)
    ensures Good(t, m, DestroyFire(w, g, x), LetGo(c, m, (w, g)))
  {
    LetGoOk(c, m, (w, g), t);
    DestroyReleasePlace(c, t, w, g, x, m);
  }

  lemma DestroyFirePlace(t: Tid, w: WaitSet, g: Guard, x: Hook, m: Memory)
    requires Stands(t, DestroyFire(w, g, x), m)
    ensures Stands(t, DestroyDone(w, g), Fire(m, x))
  {
    HookGone(t, m.hooks.place, x, Fired);
  }

  lemma DestroyFireKeeps(c: Config, t: Tid, w: WaitSet, g: Guard, x: Hook, m: Memory)
    requires Before(c, t, DestroyFire(w, g, x), m)
    ensures Good(t, m, DestroyDone(w, g), Fire(m, x))
  {
    HookOk(m, x, t);
    DestroyFirePlace(t, w, g, x, m);
  }

  lemma DestroyDoneLast(t: Tid, w: WaitSet, g: Guard, m: Memory)
    requires Stands(t, DestroyDone(w, g), m) && w !in m.ws.dying && Count(m.ws.counts, w) == 1
    ensures Mine(t, EndNext(w, Some(g)), ReleaseWaitSet(m, Drained(w, g), t))
    ensures Needs(EndNext(w, Some(g)), ReleaseWaitSet(m, Drained(w, g), t))
  {
    ReleaseEnds(t, m.ws, w, g, None);
    Gains(t, m.ws.dying, w);
  }

  lemma DestroyDoneMore(t: Tid, w: WaitSet, g: Guard, m: Memory)
    requires Stands(t, DestroyDone(w, g), m) && Count(m.ws.counts, w) > 1
    ensures Stands(t, DestroyNext(g), ReleaseWaitSet(m, Drained(w, g), t))
  {
    ReleaseEnds(t, m.ws, w, g, None);
  }

  lemma DestroyDonePlace(t: Tid, w: WaitSet, g: Guard, m: Memory)
    requires Stands(t, DestroyDone(w, g), m) && w !in m.ws.dying && Count(m.ws.counts, w) > 0
    ensures var m' := ReleaseWaitSet(m, Drained(w, g), t); Stands(t, AfterDrop(m', w, Some(g)), m')
  {
    if Count(m.ws.counts, w) == 1 { DestroyDoneLast(t, w, g, m); } else { DestroyDoneMore(t, w, g, m); }
  }

  lemma DestroyDoneKeeps(c: Config, t: Tid, w: WaitSet, g: Guard, m: Memory)
    requires Before(c, t, DestroyDone(w, g), m)
    ensures Good(t, m, AfterDrop(ReleaseWaitSet(m, Drained(w, g), t), w, Some(g)), ReleaseWaitSet(m, Drained(w, g), t))
  {
    DrainedAlive(m, w, g);
    ReleaseWaitSetOk(m, Drained(w, g), t);
    DestroyDonePlace(t, w, g, m);
  }

  lemma DestroyOwnPlace(t: Tid, g: Guard, m: Memory)
    requires Stands(t, DestroyOwn(g), m)
    ensures Stands(t, Idle, ReleaseGuard(m, OwnGuard(g)))
  {
  }

  lemma DestroyOwnKeeps(c: Config, t: Tid, g: Guard, m: Memory)
    requires Before(c, t, DestroyOwn(g), m)
    ensures Good(t, m, Idle, ReleaseGuard(m, OwnGuard(g)))
  {
    ReleaseOwnOk(m, g, t);
    DestroyOwnPlace(t, g, m);
  }

  lemma EndClosePlace(t: Tid, w: WaitSet, m: Memory)
    requires Stands(t, EndClose(w), m)
    ensures Stands(t, EndOwn(w), CloseWaitSet(m, w))
  {
  }

  lemma EndCloseKeeps(c: Config, t: Tid, w: WaitSet, m: Memory)
    requires Before(c, t, EndClose(w), m)
    ensures UseWaitSet(m, w) == m && Good(t, m, EndOwn(w), CloseWaitSet(m, w))
  {
    OwnWaitSetAlive(m, w);
    CloseWaitSetOk(m, w, t);
    EndClosePlace(t, w, m);
  }

  lemma EndOwnPlace(t: Tid, w: WaitSet, m: Memory)
    requires Stands(t, EndOwn(w), m) && w !in m.ws.dying && Count(m.ws.counts, w) > 0
    ensures Stands(t, AfterDrop(ReleaseWaitSet(m, OwnWaitSet(w), t), w, None), ReleaseWaitSet(m, OwnWaitSet(w), t))
  {
    if Count(m.ws.counts, w) == 1 { Gains(t, m.ws.dying, w); }
  }

  lemma EndOwnKeeps(c: Config, t: Tid, w: WaitSet, m: Memory)
    requires Before(c, t, EndOwn(w), m)
    ensures Good(t, m, AfterDrop(ReleaseWaitSet(m, OwnWaitSet(w), t), w, None), ReleaseWaitSet(m, OwnWaitSet(w), t))
  {
    OwnWaitSetAlive(m, w);
    ReleaseWaitSetOk(m, OwnWaitSet(w), t);
    EndOwnPlace(t, w, m);
  }

  lemma EndRemoveMine(t: Tid, w: WaitSet, g: Guard, x: Hook, back: Option<Guard>, m: Memory)
    requires Mine(t, EndNext(w, back), m) && (w, g) !in m.tb.hands
    requires (w, g) in m.tb.conditions && m.tb.conditions[(w, g)] == x
    ensures Mine(t, EndRelease(w, g, x, back), Remove(Unregister(m, (w, g)), (w, g), t))
  {
    HookComes(t, m.hooks.place, x);
    Gains(t, m.tb.hands, (w, g));
  }

  lemma EndRemovePlace(t: Tid, w: WaitSet, g: Guard, x: Hook, back: Option<Guard>, m: Memory)
    requires Stands(t, EndNext(w, back), m) && (w, g) !in m.tb.hands
    requires (w, g) in m.tb.conditions && m.tb.conditions[(w, g)] == x
    ensures Stands(t, EndRelease(w, g, x, back), Remove(Unregister(m, (w, g)), (w, g), t))
  {
    EndRemoveMine(t, w, g, x, back, m);
  }

  lemma EndRemoveKeeps(c: Config, t: Tid, w: WaitSet, g: Guard, x: Hook, back: Option<Guard>, m: Memory)
    requires Before(c, t, EndNext(w, back), m) && (w, g) in m.tb.conditions && m.tb.conditions[(w, g)] == x
    ensures UseGuard(UseWaitSet(m, w), g) == m && Good(t, m, EndRelease(w, g, x, back), Remove(Unregister(m, (w, g)), (w, g), t))
  {
    DyingHasNoCalls(m, (w, g));
    EntryAlive(m, (w, g));
    TakenOk(m, (w, g), t);
    EndRemovePlace(t, w, g, x, back, m);
  }

  lemma FreeEnds(t: Tid, ws: WaitSets, w: WaitSet, of: Option<WaitSet>)
    requires Ends(t, ws, of)
    ensures Ends(t, ws.(freed := ws.freed + {w}, dying := ws.dying - {w}), of)
  {
  }

  lemma EndFreeBack(t: Tid, w: WaitSet, g: Guard, m: Memory)
    requires Stands(t, EndNext(w, Some(g)), m)
    ensures Stands(t, DestroyNext(g), FreeWaitSet(m, w))
  {
    Loses(t, m.ws.dying, w);
    FreeEnds(t, m.ws, w, None);
  }

  lemma EndFreeIdle(t: Tid, w: WaitSet, m: Memory)
    requires Stands(t, EndNext(w, None), m)
    ensures Stands(t, Idle, FreeWaitSet(m, w))
  {
    Loses(t, m.ws.dying, w);
    FreeEnds(t, m.ws, w, None);
  }

  lemma EndFreePlace(t: Tid, w: WaitSet, back: Option<Guard>, m: Memory)
    requires Stands(t, EndNext(w, back), m)
    ensures Stands(t, Back(back), FreeWaitSet(m, w))
  {
    if back.Some? { EndFreeBack(t, w, back.value, m); } else { EndFreeIdle(t, w, m); }
  }

  lemma EndFreeKeeps(c: Config, t: Tid, w: WaitSet, back: Option<Guard>, m: Memory)
    requires Before(c, t, EndNext(w, back), m) && (forall k :: k in m.tb.conditions ==> k.0 != w)
    ensures UseWaitSet(m, w) == m && Good(t, m, Back(back), FreeWaitSet(m, w))
  {
    FreeWaitSetOk(m, w, t);
    EndFreePlace(t, w, back, m);
  }

  lemma EndReleasePlace(c: Config, t: Tid, w: WaitSet, g: Guard, x: Hook, back: Option<Guard>, m: Memory)
    requires Stands(t, EndRelease(w, g, x, back), m) && c.attachRef && (w, g) in m.tb.hands
    ensures Stands(t, EndFire(w, x, back), LetGo(c, m, (w, g)))
  {
    Loses(t, m.tb.hands, (w, g));
    LetGoDestroys(c, t, m, (w, g), back);
  }

  lemma EndReleaseKeeps(c: Config, t: Tid, w: WaitSet, g: Guard, x: Hook, back: Option<Guard>, m: Memory)
    requires Before(c, t, EndRelease(w, g, x, back), m)
    ensures Good(t, m, EndFire(w, x, back), LetGo(c, m, (w, g)))
  {
    LetGoOk(c, m, (w, g), t);
    EndReleasePlace(c, t, w, g, x, back, m);
  }

  lemma EndFirePlace(t: Tid, w: WaitSet, x: Hook, back: Option<Guard>, m: Memory)
    requires Stands(t, EndFire(w, x, back), m)
    ensures Stands(t, EndNext(w, back), Fire(m, x))
  {
    HookGone(t, m.hooks.place, x, Fired);
  }

  lemma EndFireKeeps(c: Config, t: Tid, w: WaitSet, x: Hook, back: Option<Guard>, m: Memory)
    requires Before(c, t, EndFire(w, x, back), m)
    ensures UseWaitSet(m, w) == m && Good(t, m, EndNext(w, back), Fire(m, x))
  {
    HookOk(m, x, t);
    EndFirePlace(t, w, x, back, m);
  }

  lemma AttachKeeps(c: Config, t: Tid, pc: Pc, m: Memory, ok: bool, pc': Pc, m': Memory)
    requires Before(c, t, pc, m) && AttachNext(c, t, pc, m, ok) == Some((pc', m'))
    ensures Good(t, m, pc', m')
  {
    if pc.AttachAppend? { AppendingKeeps(c, t, pc, m, ok, pc', m'); }
    else if pc.AttachRegister? || pc.AttachDrop? || pc.AttachRollBack? { RegisteringKeeps(c, t, pc, m, ok, pc', m'); }
    else { EnteringKeeps(c, t, pc, m, ok, pc', m'); }
  }

  lemma EnteringKeeps(c: Config, t: Tid, pc: Pc, m: Memory, ok: bool, pc': Pc, m': Memory)
    requires Before(c, t, pc, m) && AttachNext(c, t, pc, m, ok) == Some((pc', m'))
    requires !pc.AttachAppend? && !pc.AttachRegister? && !pc.AttachDrop? && !pc.AttachRollBack?
    ensures Good(t, m, pc', m')
  {
    match pc
    case AttachLock(w, g, x) => AttachLockKeeps(c, t, w, g, x, m);
    case AttachAcquire(w, g, x) => AttachAcquireKeeps(c, t, w, g, x, m);
    case AttachUnlock(w) => AttachUnlockKeeps(c, t, w, m);
    case _ =>
  }

  lemma AppendingKeeps(c: Config, t: Tid, pc: Pc, m: Memory, ok: bool, pc': Pc, m': Memory)
    requires Before(c, t, pc, m) && AttachNext(c, t, pc, m, ok) == Some((pc', m')) && pc.AttachAppend?
    ensures Good(t, m, pc', m')
  {
    if (pc.w, pc.g) in m.tb.conditions || !ok { AttachRefuseKeeps(c, t, pc.w, pc.g, pc.x, m); }
    else { AttachAppendKeeps(c, t, pc.w, pc.g, pc.x, m); }
  }

  lemma RegisteringKeeps(c: Config, t: Tid, pc: Pc, m: Memory, ok: bool, pc': Pc, m': Memory)
    requires Before(c, t, pc, m) && AttachNext(c, t, pc, m, ok) == Some((pc', m'))
    requires pc.AttachRegister? || pc.AttachDrop? || pc.AttachRollBack?
    ensures Good(t, m, pc', m')
  {
    match pc
    case AttachRegister(w, g, x) =>
      if Full(c, m.tb.registered, g) { AttachFullKeeps(c, t, w, g, x, m); } else { AttachRegisterKeeps(c, t, w, g, x, m); }
    case AttachDrop(w, g, x) => AttachDropKeeps(c, t, w, g, x, m);
    case AttachRollBack(w, g, x) => AttachRollBackKeeps(c, t, w, g, x, m);
    case _ =>
  }

  lemma DetachKeeps(c: Config, t: Tid, pc: Pc, m: Memory, pc': Pc, m': Memory)
    requires Before(c, t, pc, m) && DetachNext(c, t, pc, m) == Some((pc', m'))
    ensures Good(t, m, pc', m')
  {
    match pc
    case DetachLock(w, g) => DetachLockKeeps(c, t, w, g, m);
    case DetachRemove(w, g) =>
      if (w, g) in m.tb.conditions { DetachRemoveKeeps(c, t, w, g, m.tb.conditions[(w, g)], m); }
      else { DetachNothingKeeps(c, t, w, g, m); }
    case DetachRelease(w, g, x) => DetachReleaseKeeps(c, t, w, g, x, m);
    case DetachUnlock(w, hook) => DetachUnlockKeeps(c, t, w, hook, m);
    case DetachFire(x) => DetachFireKeeps(c, t, x, m);
    case _ =>
  }

  lemma DestroyKeeps(c: Config, t: Tid, pc: Pc, m: Memory, pick: nat, pc': Pc, m': Memory)
    requires Before(c, t, pc, m) && DestroyNextStep(c, t, pc, m, pick) == Some((pc', m'))
    ensures Good(t, m, pc', m')
  {
    if pc.DestroyDrain? { DrainingKeeps(c, t, pc, m, pick, pc', m'); }
    else if pc.DestroyNext? { ChoosingKeeps(c, t, pc, m, pick, pc', m'); }
    else if pc.DestroyClose? || pc.DestroyOwn? { EdgeKeeps(c, t, pc, m, pick, pc', m'); }
    else { InvalidateKeeps(c, t, pc, m, pick, pc', m'); }
  }

  lemma EdgeKeeps(c: Config, t: Tid, pc: Pc, m: Memory, pick: nat, pc': Pc, m': Memory)
    requires Before(c, t, pc, m) && DestroyNextStep(c, t, pc, m, pick) == Some((pc', m')) && (pc.DestroyClose? || pc.DestroyOwn?)
    ensures Good(t, m, pc', m')
  {
    if pc.DestroyClose? { DestroyCloseKeeps(c, t, pc.g, m); } else { DestroyOwnKeeps(c, t, pc.g, m); }
  }

  lemma DrainingKeeps(c: Config, t: Tid, pc: Pc, m: Memory, pick: nat, pc': Pc, m': Memory)
    requires Before(c, t, pc, m) && DestroyNextStep(c, t, pc, m, pick) == Some((pc', m')) && pc.DestroyDrain?
    ensures Good(t, m, pc', m')
  {
    if (pick, pc.g) in m.tb.registered { DestroyDrainKeeps(c, t, pick, pc.g, m); } else { DestroyDrainedKeeps(c, t, pc.g, m); }
  }

  lemma ChoosingKeeps(c: Config, t: Tid, pc: Pc, m: Memory, pick: nat, pc': Pc, m': Memory)
    requires Before(c, t, pc, m) && DestroyNextStep(c, t, pc, m, pick) == Some((pc', m')) && pc.DestroyNext?
    ensures Good(t, m, pc', m')
  {
    if Drained(pick, pc.g) in m.ws.refs { DestroyPickKeeps(c, t, pick, pc.g, m); } else { DestroyLastKeeps(c, t, pc.g, m); }
  }

  /** A guard's teardown, at one of the WaitSets it has drained. */
  lemma InvalidateKeeps(c: Config, t: Tid, pc: Pc, m: Memory, pick: nat, pc': Pc, m': Memory)
    requires Before(c, t, pc, m) && DestroyNextStep(c, t, pc, m, pick) == Some((pc', m'))
    requires !pc.DestroyClose? && !pc.DestroyDrain? && !pc.DestroyNext? && !pc.DestroyOwn?
    ensures Good(t, m, pc', m')
  {
    match pc
    case DestroyLock(w, g) => DestroyLockKeeps(c, t, w, g, m);
    case DestroyRemove(w, g) =>
      if (w, g) in m.tb.conditions { DestroyRemoveKeeps(c, t, w, g, m.tb.conditions[(w, g)], m); }
      else { DestroyNothingKeeps(c, t, w, g, m); }
    case DestroyUnlock(w, g, hook) => DestroyUnlockKeeps(c, t, w, g, hook, m);
    case DestroyRelease(w, g, x) => DestroyReleaseKeeps(c, t, w, g, x, m);
    case DestroyFire(w, g, x) => DestroyFireKeeps(c, t, w, g, x, m);
    case DestroyDone(w, g) => DestroyDoneKeeps(c, t, w, g, m);
    case _ =>
  }

  lemma EndKeeps(c: Config, t: Tid, pc: Pc, m: Memory, pick: nat, pc': Pc, m': Memory)
    requires Before(c, t, pc, m) && EndNextStep(c, t, pc, m, pick) == Some((pc', m'))
    ensures Good(t, m, pc', m')
  {
    match pc
    case EndClose(w) => EndCloseKeeps(c, t, w, m);
    case EndOwn(w) => EndOwnKeeps(c, t, w, m);
    case EndNext(w, back) =>
      if (w, pick) in m.tb.conditions { EndRemoveKeeps(c, t, w, pick, m.tb.conditions[(w, pick)], back, m); }
      else { EndFreeKeeps(c, t, w, back, m); }
    case EndRelease(w, g, x, back) => EndReleaseKeeps(c, t, w, g, x, back, m);
    case EndFire(w, x, back) => EndFireKeeps(c, t, w, x, back, m);
    case _ =>
  }

  lemma NextKeeps(c: Config, t: Tid, pc: Pc, m: Memory, pick: nat, ok: bool, pc': Pc, m': Memory)
    requires Before(c, t, pc, m) && Next(c, t, pc, m, pick, ok) == Some((pc', m'))
    ensures Good(t, m, pc', m')
  {
    if Attaching(pc) { AttachKeeps(c, t, pc, m, ok, pc', m'); }
    else if Detaching(pc) { DetachKeeps(c, t, pc, m, pc', m'); }
    else if Ending(pc) { EndKeeps(c, t, pc, m, pick, pc', m'); }
    else { DestroyKeeps(c, t, pc, m, pick, pc', m'); }
  }

  /** Whatever is attributed to a thread is attributed to one of `n`. */
  ghost predicate Attributed(n: nat, m: Memory) {
    && (forall k :: k in m.tb.pending ==> m.tb.pending[k] < n)
    && (forall k :: k in m.tb.hands ==> m.tb.hands[k] < n)
    && (forall w :: w in m.ws.dying ==> m.ws.dying[w] < n)
    && (forall w :: w in m.ws.ender ==> m.ws.ender[w] < n)
    && (forall g :: g in m.gs.destroyer ==> m.gs.destroyer[g] < n)
    && (forall x :: x in m.hooks.place && m.hooks.place[x].InHand? ==> m.hooks.place[x].t < n)
  }

  lemma AttributedKept(n: nat, t: Tid, m: Memory, m': Memory)
    requires Attributed(n, m) && t < n && Frame(t, m, m')
    ensures Attributed(n, m')
  {
  }

  ghost predicate Inv(c: Config, s: State) {
    |s.threads| == c.threads && MemoryOk(s.m) && Attributed(c.threads, s.m) && InPlace(s.threads, s.m)
  }

  ghost predicate InPlace(threads: seq<Pc>, m: Memory) {
    forall t :: 0 <= t < |threads| ==> Stands(t, threads[t], m)
  }

  lemma AdvanceKeeps(c: Config, s: State, a: Action, s': State)
    requires c.attachRef && Inv(c, s) && a.Advance? && Step(c, s, a) == Some(s')
    ensures Inv(c, s')
  {
    var t := a.t;
    NextKeeps(c, t, s.threads[t], s.m, a.pick, a.ok, s'.threads[t], s'.m);
    AttributedKept(c.threads, t, s.m, s'.m);
    ThreadsKept(s, t, s'.threads[t], s'.m);
  }

  /** The threads, after an action in which thread `t` at most moved, to `pc`. */
  lemma ThreadsKept(s: State, t: Tid, pc: Pc, m': Memory)
    requires InPlace(s.threads, s.m)
    requires t < |s.threads| && Frame(t, s.m, m') && Stands(t, pc, m')
    ensures InPlace(s.threads[t := pc], m')
  {
    var threads := s.threads[t := pc];
    forall u | 0 <= u < |threads| ensures Stands(u, threads[u], m') {
      if u != t {
        MineKept(t, s.m, m', u, s.threads[u]);
        NeedsKept(t, s.m, m', u, s.threads[u]);
      }
    }
  }

  lemma NewWaitSetOk(m: Memory, w: WaitSet, t: Tid)
    requires MemoryOk(m) && w !in m.ws.counts
    ensures MemoryOk(m.(ws := AddWaitSetRef(m.ws, OwnWaitSet(w)))) && Frame(t, m, m.(ws := AddWaitSetRef(m.ws, OwnWaitSet(w))))
  {
    NewWaitSetFields(m.ws, w, t, m.gs.destroyer);
    SameSelf(t, m);
    var ws' := AddWaitSetRef(m.ws, OwnWaitSet(w));
    assert PendingOk(m.tb.pending, m.tb.conditions, m.locks, ws') && RegisteredOk(m.tb, ws'.refs);
    assert DrainedOk(ws'.refs, m.gs.closed, m.gs.refs);
  }

  lemma NewWaitSetFields(ws: WaitSets, w: WaitSet, t: Tid, destroyer: map<Guard, Tid>)
    requires WaitSetsOk(ws) && w !in ws.counts
    ensures WaitSetsOk(AddWaitSetRef(ws, OwnWaitSet(w))) && SameWaitSets(t, ws, AddWaitSetRef(ws, OwnWaitSet(w)), destroyer)
  {
    Introduced(ws.refs, ws.counts, OwnWaitSet(w), w);
    AddSame(ws, OwnWaitSet(w), t, destroyer);
  }

  lemma NewGuardFields(gs: Guards, g: Guard, t: Tid)
    requires GuardsOk(gs) && g !in gs.counts
    ensures GuardsOk(AddGuardRef(gs, OwnGuard(g))) && SameGuards(t, gs, AddGuardRef(gs, OwnGuard(g)))
  {
    Introduced(gs.refs, gs.counts, OwnGuard(g), g);
  }

  lemma NewGuardOk(m: Memory, g: Guard, t: Tid)
    requires MemoryOk(m) && g !in m.gs.counts
    ensures MemoryOk(m.(gs := AddGuardRef(m.gs, OwnGuard(g)))) && Frame(t, m, m.(gs := AddGuardRef(m.gs, OwnGuard(g))))
  {
    NewGuardFields(m.gs, g, t);
    SameSelf(t, m);
    var gs' := AddGuardRef(m.gs, OwnGuard(g));
    assert Attachments(m.tb, gs'.refs) && DrainedOk(m.ws.refs, gs'.closed, gs'.refs);
  }

  /** Nobody is disturbed by a new object. */
  lemma NobodyMoves(c: Config, s: State, m': Memory)
    requires Inv(c, s) && MemoryOk(m') && Frame(|s.threads|, s.m, m')
    requires m'.tb == s.m.tb && m'.hooks == s.m.hooks && m'.ws.dying == s.m.ws.dying
    ensures Inv(c, s.(m := m'))
  {
    forall u | 0 <= u < |s.threads| ensures Stands(u, s.threads[u], m') {
      MineKept(|s.threads|, s.m, m', u, s.threads[u]);
      NeedsKept(|s.threads|, s.m, m', u, s.threads[u]);
    }
  }

  lemma OfferedHook(conditions: map<Key, Hook>, h: Hooks, t: Tid)
    requires HooksOk(conditions, h)
    ensures HooksOk(conditions, Hooks(h.next + 1, h.place[h.next := InHand(t)], h.fired))
    ensures SameHooks(t, h.place, h.place[h.next := InHand(t)])
  {
  }

  lemma OfferOk(m: Memory, t: Tid, n: nat)
    requires MemoryOk(m) && Attributed(n, m) && t < n && OwnsHook(t, m.hooks.place, None)
    ensures var m' := Offer(m, t);
            MemoryOk(m') && Attributed(n, m') && Frame(t, m, m') && OwnsHook(t, m'.hooks.place, Some(m.hooks.next))
  {
    OfferedHook(m.tb.conditions, m.hooks, t);
    SameSelf(t, m);
    HookComes(t, m.hooks.place, m.hooks.next);
  }

  lemma CallAttachKeeps(c: Config, s: State, t: Tid, w: WaitSet, g: Guard)
    requires Inv(c, s) && Idling(s, t) && w in s.m.ws.counts && w !in s.m.ws.ender && g in s.m.gs.counts && g !in s.m.gs.destroyer
    ensures Inv(c, State(s.threads[t := AttachLock(w, g, s.m.hooks.next)], Offer(s.m, t)))
  {
    assert Mine(t, Idle, s.m);
    OfferOk(s.m, t, c.threads);
    CallerPlace(t, AttachLock(w, g, s.m.hooks.next), s.m, Offer(s.m, t));
    ThreadsKept(s, t, AttachLock(w, g, s.m.hooks.next), Offer(s.m, t));
  }

  /** A thread that enters a call from outside. */
  lemma CallerPlace(t: Tid, pc: Pc, m: Memory, m': Memory)
    requires Mine(t, Idle, m) && (pc.AttachLock? || pc.DetachLock?) && m' == m.(hooks := m'.hooks)
    requires OwnsHook(t, m'.hooks.place, HookOf(pc)) && pc.w in m.ws.counts && pc.w !in m.ws.ender
    requires pc.AttachLock? ==> pc.g in m.gs.counts && pc.g !in m.gs.destroyer
    ensures Stands(t, pc, m')
  {
  }

  lemma CallDetachKeeps(c: Config, s: State, t: Tid, w: WaitSet, g: Guard)
    requires Inv(c, s) && Idling(s, t) && w in s.m.ws.counts && w !in s.m.ws.ender
    ensures Inv(c, s.(threads := s.threads[t := DetachLock(w, g)]))
  {
    SameSelf(t, s.m);
    CallerPlace(t, DetachLock(w, g), s.m, s.m);
    ThreadsKept(s, t, DetachLock(w, g), s.m);
  }

  lemma BeginDestroyOthers(c: Config, m: Memory, t: Tid, g: Guard, u: Tid, pc: Pc)
    requires Stands(u, pc, m) && u != t && g !in m.gs.destroyer && !Naming(c, pc, g)
    ensures var m' := m.(gs := m.gs.(destroyer := m.gs.destroyer[g := t])); Stands(u, pc, m')
  {
    var gs' := m.gs.(destroyer := m.gs.destroyer[g := t]);
    assert Destroys(u, gs', DestroyingOf(pc));
  }

  lemma BeginDestroyOk(m: Memory, t: Tid, g: Guard)
    requires MemoryOk(m) && g in m.gs.counts && g !in m.gs.destroyer
    ensures MemoryOk(m.(gs := m.gs.(destroyer := m.gs.destroyer[g := t])))
  {
    var gs' := m.gs.(destroyer := m.gs.destroyer[g := t]);
    assert GuardsOk(gs') && HandsOk(m.tb.hands, m.locks, gs'.destroyer, m.ws.dying);
  }

  lemma BeginDestroyPlace(m: Memory, t: Tid, g: Guard)
    requires Mine(t, Idle, m) && OwnGuard(g) in m.gs.refs && g !in m.gs.destroyer
    ensures var m' := m.(gs := m.gs.(destroyer := m.gs.destroyer[g := t]));
            Stands(t, DestroyClose(g), m')
  {
    var gs' := m.gs.(destroyer := m.gs.destroyer[g := t]);
    assert Destroys(t, gs', Some(g));
  }

  lemma BeginDestroyThreads(c: Config, s: State, t: Tid, g: Guard)
    requires InPlace(s.threads, s.m) && Idling(s, t) && OwnGuard(g) in s.m.gs.refs && g !in s.m.gs.destroyer
    requires !NamedBySome(c, s.threads, g)
    ensures InPlace(s.threads[t := DestroyClose(g)], s.m.(gs := s.m.gs.(destroyer := s.m.gs.destroyer[g := t])))
  {
    var threads, m' := s.threads[t := DestroyClose(g)], s.m.(gs := s.m.gs.(destroyer := s.m.gs.destroyer[g := t]));
    BeginDestroyPlace(s.m, t, g);
    forall u | 0 <= u < |threads| ensures Stands(u, threads[u], m') {
      if u != t { BeginDestroyOthers(c, s.m, t, g, u, s.threads[u]); }
    }
  }

  lemma CallDestroyKeeps(c: Config, s: State, t: Tid, g: Guard)
    requires Inv(c, s) && Idling(s, t) && g in s.m.gs.counts && g !in s.m.gs.destroyer && !NamedBySome(c, s.threads, g)
    ensures Inv(c, State(s.threads[t := DestroyClose(g)], s.m.(gs := s.m.gs.(destroyer := s.m.gs.destroyer[g := t]))))
  {
    BeginDestroyOk(s.m, t, g);
    BeginDestroyThreads(c, s, t, g);
    BeginAttributed(c.threads, s.m, t, g, 0);
  }

  lemma BeginAttributed(n: nat, m: Memory, t: Tid, g: Guard, w: WaitSet)
    requires Attributed(n, m) && t < n
    ensures Attributed(n, m.(gs := m.gs.(destroyer := m.gs.destroyer[g := t])))
    ensures Attributed(n, m.(ws := m.ws.(ender := m.ws.ender[w := t])))
  {
  }

  lemma BeginEndOthers(m: Memory, t: Tid, w: WaitSet, u: Tid, pc: Pc)
    requires Stands(u, pc, m) && u != t && w !in m.ws.ender && !CallOn(pc, w)
    ensures var m' := m.(ws := m.ws.(ender := m.ws.ender[w := t])); Stands(u, pc, m')
  {
    var ws' := m.ws.(ender := m.ws.ender[w := t]);
    assert Ends(u, ws', EndingOf(pc));
  }

  lemma BeginEndOk(m: Memory, t: Tid, w: WaitSet)
    requires MemoryOk(m) && w in m.ws.counts && w !in m.ws.ender && (forall k :: k in m.tb.pending ==> k.0 != w)
    ensures MemoryOk(m.(ws := m.ws.(ender := m.ws.ender[w := t])))
  {
    var ws' := m.ws.(ender := m.ws.ender[w := t]);
    assert WaitSetsOk(ws') && PendingOk(m.tb.pending, m.tb.conditions, m.locks, ws');
  }

  lemma BeginEndPlace(m: Memory, t: Tid, w: WaitSet)
    requires Mine(t, Idle, m) && OwnWaitSet(w) in m.ws.refs && w !in m.ws.ender
    ensures var m' := m.(ws := m.ws.(ender := m.ws.ender[w := t])); Stands(t, EndClose(w), m')
  {
    var ws' := m.ws.(ender := m.ws.ender[w := t]);
    assert Ends(t, ws', Some(w));
  }

  /** Entries being attached to a WaitSet belong to calls on it. */
  lemma NoCallsNoPending(c: Config, s: State, w: WaitSet)
    requires Inv(c, s) && !CalledBySome(s.threads, w)
    ensures forall k :: k in s.m.tb.pending ==> k.0 != w
  {
    forall k | k in s.m.tb.pending ensures k.0 != w {
      var u := s.m.tb.pending[k];
      assert Owns(u, s.m.tb.pending, PendingOf(s.threads[u]));
      assert PendingOf(s.threads[u]) == Some(k);
    }
  }

  lemma BeginEndThreads(s: State, t: Tid, w: WaitSet)
    requires InPlace(s.threads, s.m) && Idling(s, t) && OwnWaitSet(w) in s.m.ws.refs && w !in s.m.ws.ender
    requires !CalledBySome(s.threads, w)
    ensures InPlace(s.threads[t := EndClose(w)], s.m.(ws := s.m.ws.(ender := s.m.ws.ender[w := t])))
  {
    var threads, m' := s.threads[t := EndClose(w)], s.m.(ws := s.m.ws.(ender := s.m.ws.ender[w := t]));
    BeginEndPlace(s.m, t, w);
    forall u | 0 <= u < |threads| ensures Stands(u, threads[u], m') {
      if u != t { BeginEndOthers(s.m, t, w, u, s.threads[u]); }
    }
  }

  lemma CallEndKeeps(c: Config, s: State, t: Tid, w: WaitSet)
    requires Inv(c, s) && Idling(s, t) && w in s.m.ws.counts && w !in s.m.ws.ender && !CalledBySome(s.threads, w)
    ensures Inv(c, State(s.threads[t := EndClose(w)], s.m.(ws := s.m.ws.(ender := s.m.ws.ender[w := t]))))
  {
    NoCallsNoPending(c, s, w);
    BeginEndOk(s.m, t, w);
    BeginEndThreads(s, t, w);
    BeginAttributed(c.threads, s.m, t, 0, w);
  }

  lemma CallKeeps(c: Config, s: State, a: Action, s': State)
    requires Inv(c, s) && Call(c, s, a) == Some(s')
    ensures Inv(c, s')
  {
    match a
    case NewWaitSet(w) =>
      NewWaitSetOk(s.m, w, |s.threads|);
      NobodyMoves(c, s, s'.m);
    case NewGuard(g) =>
      NewGuardOk(s.m, g, |s.threads|);
      NobodyMoves(c, s, s'.m);
    case CallAttach(t, w, g) => CallAttachKeeps(c, s, t, w, g);
    case CallDetach(t, w, g) => CallDetachKeeps(c, s, t, w, g);
    case CallDestroy(t, g) => CallDestroyKeeps(c, s, t, g);
    case CallEnd(t, w) => CallEndKeeps(c, s, t, w);
  }

  lemma InitInv(c: Config)
    ensures Inv(c, Init(c))
  {
    var m := Init(c).m;
    assert WaitSetsOk(m.ws) && GuardsOk(m.gs) && Attachments(m.tb, m.gs.refs);
    forall t | 0 <= t < c.threads ensures Stands(t, Init(c).threads[t], m) {
      IdlePlace(t, m);
    }
  }

  lemma IdlePlace(t: Tid, m: Memory)
    requires m.tb.pending == map[] && m.tb.hands == map[] && m.locks == map[] && m.ws.dying == map[] && m.hooks.place == map[]
    requires m.gs.destroyer == map[] && m.ws.ender == map[]
    ensures Stands(t, Idle, m)
  {
  }

  /** `acts` is a schedule of the protocol as it is written, and leads to `s`. */
  ghost predicate Reaches(c: Config, acts: seq<Action>, s: State) {
    c.attachRef && Run(c, acts) == Some(s)
  }

  lemma {:induction false} RunKeepsInv(c: Config, acts: seq<Action>, s: State)
    requires Reaches(c, acts, s)
    ensures Inv(c, s)
  {
    if acts == [] {
      InitInv(c);
    } else {
      var before, a := acts[..|acts| - 1], acts[|acts| - 1];
      var s0 := Run(c, before).value;
      RunKeepsInv(c, before, s0);
      if a.Advance? { AdvanceKeeps(c, s0, a, s); } else { CallKeeps(c, s0, a, s); }
    }
  }

  // ---- Main results -----------------------------------------------------------------------

  /** In every interleaving of attaches, detaches and both kinds of teardown no thread
      uses a WaitSet or guard that has been freed, nor frees one twice; what has a
      reference is not freed, and an attached guard and the WaitSet it is in are alive. */
  lemma {:induction false} NothingDangles(c: Config, acts: seq<Action>, s: State)
    requires Reaches(c, acts, s)
    ensures !s.m.fault
    ensures forall k :: k in s.m.tb.conditions ==> k.0 !in s.m.ws.freed && (k in s.m.tb.pending || k.1 !in s.m.gs.freed)
    ensures forall k :: k in s.m.tb.registered ==> k.0 !in s.m.ws.freed && k.1 !in s.m.gs.freed
    ensures forall w :: w in s.m.ws.freed ==> forall h :: h in s.m.ws.refs ==> h.w != w
    ensures forall g :: g in s.m.gs.freed <==> g in s.m.gs.counts && forall h :: h in s.m.gs.refs ==> h.g != g
  {
    RunKeepsInv(c, acts, s);
    Referenced(s.m);
    forall k | k in s.m.tb.conditions && k !in s.m.tb.pending ensures k.1 !in s.m.gs.freed { EntryAlive(s.m, k); }
  }

  /** A count is positive exactly when there is a reference. */
  lemma Referenced(m: Memory)
    requires MemoryOk(m)
    ensures forall w :: w in m.ws.freed ==> forall h :: h in m.ws.refs ==> h.w != w
    ensures forall g :: g in m.gs.freed <==> g in m.gs.counts && forall h :: h in m.gs.refs ==> h.g != g
  {
    forall w, h | w in m.ws.freed && h in m.ws.refs ensures h.w != w { assert h in To(m.ws.refs, h.w); }
    forall g, h | g in m.gs.freed && h in m.gs.refs ensures h.g != g { assert h in To(m.gs.refs, h.g); }
    forall g | g in m.gs.counts && (forall h :: h in m.gs.refs ==> h.g != g) ensures g in m.gs.freed {
      assert To(m.gs.refs, g) == {};
    }
  }

  /** The hook of an attachment is fired at most once, and not while the attachment
      stands; every other hook ever passed is on its way to be fired or was refused. */
  lemma {:induction false} HooksFireOnce(c: Config, acts: seq<Action>, s: State, x: Hook)
    requires Reaches(c, acts, s)
    ensures s.m.hooks.fired[x] <= 1
    ensures forall k :: k in s.m.tb.conditions ==> s.m.hooks.fired[s.m.tb.conditions[k]] == 0
    ensures forall k, l :: k in s.m.tb.conditions && l in s.m.tb.conditions && k != l ==>
              s.m.tb.conditions[k] != s.m.tb.conditions[l]
    ensures x < s.m.hooks.next ==> x in s.m.hooks.place
    ensures Quiet(s) && x < s.m.hooks.next ==>
              x in s.m.tb.conditions.Values || s.m.hooks.place[x] == Refused || s.m.hooks.fired[x] == 1
  {
    RunKeepsInv(c, acts, s);
    if Quiet(s) && x < s.m.hooks.next {
      var place := s.m.hooks.place;
      forall t | 0 <= t < |s.threads| ensures OwnsHook(t, place, None) {
        assert Mine(t, s.threads[t], s.m);
      }
      assert place[x].InHand? ==> !OwnsHook(place[x].t, place, None);
      assert place[x].Stored? ==> s.m.tb.conditions[place[x].key] == x;
    }
  }

  predicate Quiet(s: State) {
    forall t :: 0 <= t < |s.threads| ==> s.threads[t].Idle?
  }

  /** When no call is in progress a WaitSet is freed exactly if it was deinitialized, and
      a guard exactly if it was and no WaitSet has it attached any more. */
  lemma {:induction false} FreedExactlyWhenOver(c: Config, acts: seq<Action>, s: State)
    requires Reaches(c, acts, s) && Quiet(s)
    ensures forall w :: w in s.m.ws.freed <==> w in s.m.ws.ender
    ensures forall g :: g in s.m.gs.freed <==> g in s.m.gs.destroyer && forall w :: (w, g) !in s.m.tb.conditions
  {
    RunKeepsInv(c, acts, s);
    Referenced(s.m);
    QuietHolders(c, s);
    forall w | w in s.m.ws.ender ensures w in s.m.ws.freed { assert To(s.m.ws.refs, w) == {}; }
    forall w | w in s.m.ws.freed ensures w in s.m.ws.ender {}
    forall k | k in s.m.tb.conditions ensures k.1 !in s.m.gs.freed { EntryAlive(s.m, k); }
  }

  /** At rest every reference is an object's own or an entry's. */
  lemma QuietHolders(c: Config, s: State)
    requires Inv(c, s) && Quiet(s)
    ensures s.m.tb.pending == map[] && s.m.tb.hands == map[] && s.m.ws.dying == map[]
    ensures forall h :: h in s.m.ws.refs ==> h.OwnWaitSet? && h.w !in s.m.ws.ender
    ensures forall g :: OwnGuard(g) in s.m.gs.refs ==> g !in s.m.gs.destroyer
    ensures forall w: WaitSet, g: Guard :: Attached(w, g) in s.m.gs.refs <==> (w, g) in s.m.tb.conditions
  {
    forall t | 0 <= t < |s.threads| ensures Mine(t, Idle, s.m) { assert s.threads[t] == Idle; }
    IdleOwnsNothing(|s.threads|, s.m);
    forall g | OwnGuard(g) in s.m.gs.refs ensures g !in s.m.gs.destroyer {
      assert g in s.m.gs.destroyer ==> !Destroys(s.m.gs.destroyer[g], s.m.gs, None);
    }
    forall h | h in s.m.ws.refs ensures h.OwnWaitSet? && h.w !in s.m.ws.ender {
      assert h.OwnWaitSet? && h.w in s.m.ws.ender ==> !Ends(s.m.ws.ender[h.w], s.m.ws, None);
    }
  }

  lemma IdleOwnsNothing(n: nat, m: Memory)
    requires Attributed(n, m) && forall t :: 0 <= t < n ==> Mine(t, Idle, m)
    ensures m.tb.pending == map[] && m.tb.hands == map[] && m.ws.dying == map[]
    ensures forall t :: 0 <= t < n ==> Destroys(t, m.gs, None) && Ends(t, m.ws, None)
  {
    forall t | 0 <= t < n
      ensures Owns(t, m.tb.pending, None) && Owns(t, m.tb.hands, None) && Owns(t, m.ws.dying, None)
      ensures Destroys(t, m.gs, None) && Ends(t, m.ws, None)
    {
      assert Mine(t, Idle, m);
    }
    NobodyOwns(n, m.tb.pending);
    NobodyOwns(n, m.tb.hands);
    NobodyOwns(n, m.ws.dying);
  }

  lemma NobodyOwns<K(!new)>(n: nat, owners: map<K, Tid>)
    requires (forall k :: k in owners ==> owners[k] < n) && forall t :: 0 <= t < n ==> Owns(t, owners, None)
    ensures owners == map[]
  {
    forall k ensures k !in owners { assert k in owners ==> !Owns(owners[k], owners, None); }
  }

  // ---- Why an attachment takes its reference when it is made ---------------------------------

  lemma Then(c: Config, acts: seq<Action>, s: State, a: Action, s': State) returns (more: seq<Action>)
    requires Run(c, acts) == Some(s) && Step(c, s, a) == Some(s')
    ensures Run(c, more) == Some(s')
  {
    more := acts + [a];
    assert more[..|acts|] == acts;
  }

  lemma Advances(c: Config, acts: seq<Action>, s: State, t: Tid, pc: Pc, m: Memory) returns (more: seq<Action>, s': State)
    requires Run(c, acts) == Some(s) && t < |s.threads| && Next(c, t, s.threads[t], s.m, 0, true) == Some((pc, m))
    ensures Run(c, more) == Some(s') && s' == State(s.threads[t := pc], m)
  {
    s' := State(s.threads[t := pc], m);
    more := Then(c, acts, s, Advance(t, 0, true), s');
  }

  /** One WaitSet and one guard, nobody in a call. */
  lemma Created(c: Config) returns (acts: seq<Action>, s: State)
    ensures Run(c, acts) == Some(s) && s.threads == Init(c).threads
    ensures s.m.ws.counts == map[0 := 1] && s.m.gs.counts == map[0 := 1]
    ensures s.m == Init(c).m.(ws := s.m.ws, gs := s.m.gs)
    ensures s.m.ws == Init(c).m.ws.(refs := s.m.ws.refs, counts := s.m.ws.counts)
    ensures s.m.gs == Init(c).m.gs.(refs := s.m.gs.refs, counts := s.m.gs.counts)
    ensures forall h :: h in s.m.ws.refs ==> !h.Drained?
  {
    var s0 := Init(c);
    var s1 := s0.(m := s0.m.(ws := AddWaitSetRef(s0.m.ws, OwnWaitSet(0))));
    acts := Then(c, [], s0, NewWaitSet(0), s1);
    s := s1.(m := s1.m.(gs := AddGuardRef(s1.m.gs, OwnGuard(0))));
    acts := Then(c, acts, s1, NewGuard(0), s);
  }

  /** Without the reference an attach goes through all the same. */
  lemma AttachesBare(c: Config, acts: seq<Action>, s: State) returns (more: seq<Action>, s': State)
    requires !c.attachRef && c.slots > 0 && Run(c, acts) == Some(s) && Idling(s, 0)
    requires 0 in s.m.ws.counts && 0 !in s.m.ws.ender && 0 in s.m.gs.counts && 0 !in s.m.gs.destroyer
    requires s.m.tb == Tables(map[], {}, map[], map[]) && s.m.locks == map[]
    ensures Run(c, more) == Some(s') && |s'.threads| == |s.threads| && s'.threads == s.threads
    ensures s'.m.ws == s.m.ws && s'.m.gs == s.m.gs && s'.m.tb.registered == {(0, 0)} && (0, 0) in s'.m.tb.conditions
  {
    var x := s.m.hooks.next;
    var s1 := State(s.threads[0 := AttachLock(0, 0, x)], Offer(s.m, 0));
    more := Then(c, acts, s, CallAttach(0, 0, 0), s1);
    more, s' := LocksAndAppends(c, more, s1, x);
    more, s' := RegistersBare(c, more, s', x);
    assert s'.threads == s.threads;
  }

  lemma RegistersBare(c: Config, acts: seq<Action>, s: State, x: Hook) returns (more: seq<Action>, s': State)
    requires !c.attachRef && c.slots > 0 && Run(c, acts) == Some(s)
    requires |s.threads| > 0 && s.threads[0] == AttachAcquire(0, 0, x) && s.m.tb.registered == {} && (0, 0) in s.m.tb.conditions
    ensures Run(c, more) == Some(s') && s'.threads == s.threads[0 := Idle] && s'.m.ws == s.m.ws && s'.m.gs == s.m.gs
    ensures s'.m.tb.registered == {(0, 0)} && (0, 0) in s'.m.tb.conditions
  {
    BareStep(c, 0, 0, 0, x, s.m);
    var s1;
    more, s1 := Advances(c, acts, s, 0, AttachRegister(0, 0, x), s.m);
    RegisterStep(c, 0, 0, 0, x, s.m);
    var m2 := Register(UseGuard(s.m, 0), (0, 0));
    var s2;
    more, s2 := Advances(c, more, s1, 0, AttachUnlock(0), m2);
    UnlockStep(c, 0, 0, m2);
    more, s' := Advances(c, more, s2, 0, Idle, Unlock(UseWaitSet(m2, 0), 0));
    assert s'.threads == s.threads[0 := Idle];
  }

  lemma BareStep(c: Config, t: Tid, w: WaitSet, g: Guard, x: Hook, m: Memory)
    requires !c.attachRef
    ensures Next(c, t, AttachAcquire(w, g, x), m, 0, true) == Some((AttachRegister(w, g, x), m))
  {
  }

  lemma UnlockStep(c: Config, t: Tid, w: WaitSet, m: Memory)
    ensures Next(c, t, AttachUnlock(w), m, 0, true) == Some((Idle, Unlock(UseWaitSet(m, w), w)))
  {
  }

  // The steps the two teardowns take below.

  lemma EndSteps(c: Config, t: Tid, w: WaitSet, m: Memory)
    requires Count(m.ws.counts, w) == 1
    ensures Next(c, t, EndClose(w), m, 0, true) == Some((EndOwn(w), CloseWaitSet(UseWaitSet(m, w), w)))
    ensures Next(c, t, EndOwn(w), m, 0, true) == Some((EndNext(w, None), ReleaseWaitSet(m, OwnWaitSet(w), t)))
  {
  }

  lemma DestroySteps(c: Config, t: Tid, g: Guard, m: Memory)
    ensures Next(c, t, DestroyClose(g), m, 0, true) == Some((DestroyDrain(g), CloseGuard(UseGuard(m, g), g)))
    ensures Next(c, t, DestroyOwn(g), m, 0, true) == Some((Idle, ReleaseGuard(m, OwnGuard(g))))
  {
  }

  lemma DrainStep(c: Config, t: Tid, g: Guard, m: Memory)
    requires (0, g) in m.tb.registered
    ensures Next(c, t, DestroyDrain(g), m, 0, true) == Some((DestroyDrain(g), Drain(c, UseGuard(UseWaitSet(m, 0), g), (0, g))))
  {
  }

  lemma DrainedStep(c: Config, t: Tid, g: Guard, m: Memory)
    requires m.tb.registered == {}
    ensures Next(c, t, DestroyDrain(g), m, 0, true) == Some((DestroyNext(g), m))
  {
  }

  lemma LastStep(c: Config, t: Tid, g: Guard, m: Memory)
    requires forall h :: h in m.ws.refs ==> !h.Drained?
    ensures Next(c, t, DestroyNext(g), m, 0, true) == Some((DestroyOwn(g), m))
  {
  }

  lemma RemoveStep(c: Config, t: Tid, w: WaitSet, m: Memory)
    requires (w, 0) in m.tb.conditions
    ensures Next(c, t, EndNext(w, None), m, 0, true) ==
            Some((EndRelease(w, 0, m.tb.conditions[(w, 0)], None),
                  Remove(Unregister(UseGuard(UseWaitSet(m, w), 0), (w, 0)), (w, 0), t)))
  {
  }

  /** The WaitSet's own reference goes: thread 0 is about to look at its entries. */
  lemma EndBegins(c: Config, acts: seq<Action>, s: State) returns (more: seq<Action>, s': State)
    requires Run(c, acts) == Some(s) && Idling(s, 0) && s.m.ws.counts == map[0 := 1] && 0 !in s.m.ws.ender
    requires !CalledBySome(s.threads, 0) && forall h :: h in s.m.ws.refs ==> !h.Drained?
    ensures Run(c, more) == Some(s') && s'.threads == s.threads[0 := EndNext(0, None)]
    ensures Count(s'.m.ws.counts, 0) == 0 && s'.m.gs == s.m.gs && s'.m.tb == s.m.tb
    ensures forall h :: h in s'.m.ws.refs ==> !h.Drained?
  {
    var s1 := State(s.threads[0 := EndClose(0)], s.m.(ws := s.m.ws.(ender := s.m.ws.ender[0 := 0])));
    more := Then(c, acts, s, CallEnd(0, 0), s1);
    more, s' := EndEnds(c, more, s1);
    assert s'.threads == s.threads[0 := EndNext(0, None)];
  }

  lemma EndEnds(c: Config, acts: seq<Action>, s: State) returns (more: seq<Action>, s': State)
    requires Run(c, acts) == Some(s) && |s.threads| > 0 && s.threads[0] == EndClose(0) && Count(s.m.ws.counts, 0) == 1
    ensures Run(c, more) == Some(s') && s'.threads == s.threads[0 := EndNext(0, None)]
    ensures Count(s'.m.ws.counts, 0) == 0 && s'.m.gs == s.m.gs && s'.m.tb == s.m.tb
    ensures s'.m.ws.refs == s.m.ws.refs - {OwnWaitSet(0)}
  {
    var m1 := CloseWaitSet(UseWaitSet(s.m, 0), 0);
    EndSteps(c, 0, 0, s.m);
    var s1;
    more, s1 := Advances(c, acts, s, 0, EndOwn(0), m1);
    EndSteps(c, 0, 0, m1);
    more, s' := Advances(c, more, s1, 0, EndNext(0, None), ReleaseWaitSet(m1, OwnWaitSet(0), 0));
  }

  /** The guard's teardown finds the WaitSet without references, forgets it and ends. */
  lemma GuardGoes(c: Config, acts: seq<Action>, s: State) returns (more: seq<Action>, s': State)
    requires Run(c, acts) == Some(s) && |s.threads| > 1 && s.threads[1].Idle? && !NamedBySome(c, s.threads, 0)
    requires s.m.gs.counts == map[0 := 1] && 0 !in s.m.gs.destroyer && s.m.tb.registered == {(0, 0)}
    requires Count(s.m.ws.counts, 0) == 0 && forall h :: h in s.m.ws.refs ==> !h.Drained?
    ensures Run(c, more) == Some(s') && s'.threads == s.threads[1 := Idle]
    ensures 0 in s'.m.gs.freed && s'.m.tb.conditions == s.m.tb.conditions
  {
    var s1 := State(s.threads[1 := DestroyClose(0)], s.m.(gs := s.m.gs.(destroyer := s.m.gs.destroyer[0 := 1])));
    more := Then(c, acts, s, CallDestroy(1, 0), s1);
    more, s' := GuardDrains(c, more, s1);
    more, s' := OwnGoes(c, more, s');
    assert s'.threads == s.threads[1 := Idle];
  }

  lemma GuardDrains(c: Config, acts: seq<Action>, s: State) returns (more: seq<Action>, s': State)
    requires Run(c, acts) == Some(s) && |s.threads| > 1 && s.threads[1] == DestroyClose(0) && s.m.tb.registered == {(0, 0)}
    requires Count(s.m.ws.counts, 0) == 0
    ensures Run(c, more) == Some(s') && s'.threads == s.threads[1 := DestroyDrain(0)]
    ensures s'.m.ws == s.m.ws && s'.m.gs.counts == s.m.gs.counts && s'.m.tb == s.m.tb.(registered := {})
  {
    DestroySteps(c, 1, 0, s.m);
    var m1 := CloseGuard(UseGuard(s.m, 0), 0);
    var s1;
    more, s1 := Advances(c, acts, s, 1, DestroyDrain(0), m1);
    DrainStep(c, 1, 0, m1);
    more, s' := Advances(c, more, s1, 1, DestroyDrain(0), Drain(c, UseGuard(UseWaitSet(m1, 0), 0), (0, 0)));
    assert s'.threads == s.threads[1 := DestroyDrain(0)];
  }

  lemma OwnGoes(c: Config, acts: seq<Action>, s: State) returns (more: seq<Action>, s': State)
    requires Run(c, acts) == Some(s) && |s.threads| > 1 && s.threads[1] == DestroyDrain(0) && s.m.tb.registered == {}
    requires Count(s.m.gs.counts, 0) == 1 && forall h :: h in s.m.ws.refs ==> !h.Drained?
    ensures Run(c, more) == Some(s') && s'.threads == s.threads[1 := Idle]
    ensures 0 in s'.m.gs.freed && s'.m.tb == s.m.tb
  {
    var s1, s2;
    DrainedStep(c, 1, 0, s.m);
    more, s1 := Advances(c, acts, s, 1, DestroyNext(0), s.m);
    LastStep(c, 1, 0, s.m);
    more, s2 := Advances(c, more, s1, 1, DestroyOwn(0), s.m);
    DestroySteps(c, 1, 0, s.m);
    more, s' := Advances(c, more, s2, 1, Idle, ReleaseGuard(s.m, OwnGuard(0)));
    assert s'.threads == s.threads[1 := Idle];
  }

  /** A WaitSet's teardown that has yet to take a reference reads a guard that is gone. */
  lemma LateReferenceFaults(c: Config)
    requires !c.attachRef && c.slots > 0 && c.threads > 1
    ensures exists acts :: Run(c, acts).Some? && Run(c, acts).value.m.fault
  {
    var acts, s := Created(c);
    acts, s := AttachesBare(c, acts, s);
    acts, s := EndBegins(c, acts, s);
    acts, s := GuardGoes(c, acts, s);
    ReadsFreed(c, acts, s);
  }

  lemma ReadsFreed(c: Config, acts: seq<Action>, s: State)
    requires Run(c, acts) == Some(s) && |s.threads| > 0 && s.threads[0] == EndNext(0, None)
    requires 0 in s.m.gs.freed && (0, 0) in s.m.tb.conditions
    ensures exists more :: Run(c, more).Some? && Run(c, more).value.m.fault
  {
    RemoveStep(c, 0, 0, s.m);
    var next := Next(c, 0, s.threads[0], s.m, 0, true).value;
    var more, s' := Advances(c, acts, s, 0, next.0, next.1);
    assert s'.m.fault;
  }

  lemma AttachSteps(c: Config, t: Tid, w: WaitSet, g: Guard, x: Hook, m: Memory)
    ensures w !in m.locks ==>
              Next(c, t, AttachLock(w, g, x), m, 0, true) == Some((AttachAppend(w, g, x), Lock(UseGuard(UseWaitSet(m, w), g), w, t)))
    ensures (w, g) !in m.tb.conditions ==>
              Next(c, t, AttachAppend(w, g, x), m, 0, true) == Some((AttachAcquire(w, g, x), Append(UseWaitSet(m, w), (w, g), x, t)))
  {
  }

  lemma CallStep(c: Config, s: State)
    requires Idling(s, 0) && 0 in s.m.ws.counts && 0 !in s.m.ws.ender && 0 in s.m.gs.counts && 0 !in s.m.gs.destroyer
    ensures Step(c, s, CallAttach(0, 0, 0)) == Some(State(s.threads[0 := AttachLock(0, 0, s.m.hooks.next)], Offer(s.m, 0)))
  {
  }

  lemma LocksAndAppends(c: Config, acts: seq<Action>, s: State, x: Hook) returns (more: seq<Action>, s': State)
    requires Run(c, acts) == Some(s) && |s.threads| > 0 && s.threads[0] == AttachLock(0, 0, x)
    requires 0 !in s.m.locks && s.m.tb == Tables(map[], {}, map[], map[])
    ensures Run(c, more) == Some(s') && s'.threads == s.threads[0 := AttachAcquire(0, 0, x)]
    ensures s'.m.ws == s.m.ws && s'.m.gs == s.m.gs && s'.m.tb.registered == {} && (0, 0) in s'.m.tb.conditions
  {
    var m1 := Lock(UseGuard(UseWaitSet(s.m, 0), 0), 0, 0);
    AttachSteps(c, 0, 0, 0, x, s.m);
    var s1;
    more, s1 := Advances(c, acts, s, 0, AttachAppend(0, 0, x), m1);
    AttachSteps(c, 0, 0, 0, x, m1);
    more, s' := Advances(c, more, s1, 0, AttachAcquire(0, 0, x), Append(UseWaitSet(m1, 0), (0, 0), x, 0));
    assert s'.threads == s.threads[0 := AttachAcquire(0, 0, x)];
  }

  lemma RegisterStep(c: Config, t: Tid, w: WaitSet, g: Guard, x: Hook, m: Memory)
    requires c.slots > 0 && m.tb.registered == {}
    ensures Next(c, t, AttachRegister(w, g, x), m, 0, true) == Some((AttachUnlock(w), Register(UseGuard(m, g), (w, g))))
  {
    assert (set k | k in m.tb.registered && k.1 == g) == {};
  }

  /** For guard conditions and at least two threads, no schedule uses freed memory if and
      only if an attachment takes its reference when it is made, whichever way the guard's
      teardown acquires the WaitSets it finds. */
  lemma SafeIffAttachRef(c: Config)
    requires c.slots > 0 && c.threads > 1
    ensures c.attachRef <==> forall acts :: Run(c, acts).Some? ==> !Run(c, acts).value.m.fault
  {
    if c.attachRef {
      forall acts | Run(c, acts).Some? ensures !Run(c, acts).value.m.fault {
        NothingDangles(c, acts, Run(c, acts).value);
      }
    } else {
      LateReferenceFaults(c);
    }
  }
}
