/** Coherent sets over two topics: a publisher brackets one write on each, a subscriber
    drains both readers inside an access bracket and checks that they agree. */
module CoherentSets {
  import opened Base

  /** `groups` sets are published, at most `cap` samples are taken per call. `gated`: a
      set becomes visible on both readers at once, when it is complete (section 2.2.3.6
      of DDS 1.4). `frozen`: nothing becomes visible inside an access bracket (section
      2.2.2.5.2). */
  datatype Config = Config(groups: nat, cap: nat, gated: bool, frozen: bool)

  datatype Event = Begin | WritePosition(id: nat) | WriteVelocity(id: nat) | End

  datatype Place = Waiting | TakePosition | TakeVelocity | Checking | Finished | Failed(why: Failure)

  datatype Failure = Diverged | Mismatched | Disordered

  /** Per reader: what was written, how much of it has arrived, how much was ever made
      visible, what is visible and not yet taken, and what the subscriber has recorded. */
  datatype Topic = Topic(sent: seq<nat>, arrived: nat, revealed: nat, visible: seq<nat>, order: seq<nat>)

  datatype State = State(
    events: nat,
    closed: nat,
    position: Topic,
    velocity: Topic,
    at: Place)

  datatype Action = Publish | ArrivePosition | ArriveVelocity | Reveal | RevealPosition | RevealVelocity | Subscribe

  function Init(): State {
    State(0, 0, Topic([], 0, 0, [], []), Topic([], 0, 0, [], []), Waiting)
  }

  function Range(a: nat, b: nat): (r: seq<nat>) {
    if b <= a then [] else Range(a, b - 1) + [b - 1]
  }

  /** The publisher's calls for one set, and for the first `n`. */
  function Set(id: nat): seq<Event> {
    [Begin, WritePosition(id), WriteVelocity(id), End]
  }

  function Sets(n: nat): (events: seq<Event>)
    ensures |events| == 4 * n
  {
    if n == 0 then [] else Sets(n - 1) + Set(n - 1)
  }

  function Do(s: State, e: Event): State {
    match e
    case Begin => s
    case WritePosition(id) => s.(position := s.position.(sent := s.position.sent + [id]))
    case WriteVelocity(id) => s.(velocity := s.velocity.(sent := s.velocity.sent + [id]))
    case End => s.(closed := s.closed + 1)
  }

  function Show(t: Topic): Topic
    requires t.revealed < |t.sent|
  {
    t.(revealed := t.revealed + 1, visible := t.visible + [t.sent[t.revealed]])
  }

  predicate Showable(t: Topic) {
    t.revealed < t.arrived <= |t.sent|
  }

  /** take_n: the oldest visible samples, at most `cap`. */
  function Take(t: Topic, cap: nat): Topic {
    var n := Least(cap, |t.visible|);
    t.(visible := t.visible[n..], order := t.order + t.visible[..n])
  }

  function Least(a: nat, b: nat): nat {
    if a < b then a else b
  }

  predicate InBracket(at: Place) {
    at.TakePosition? || at.TakeVelocity?
  }

  /** The pairing check after a bracket, and what the loop does next. */
  function AfterCheck(c: Config, position: seq<nat>, velocity: seq<nat>): Place {
    if |position| != |velocity| then Failed(Diverged)
    else if position != velocity then Failed(Mismatched)
    else if |position| < c.groups || |velocity| < c.groups then Waiting
    else if position[..c.groups] == Range(0, c.groups) && velocity[..c.groups] == Range(0, c.groups) then Finished
    else Failed(Disordered)
  }

  function Step(c: Config, s: State, a: Action): Option<State> {
    match a
    case Publish =>
      if s.events < |Sets(c.groups)| then Some(Do(s.(events := s.events + 1), Sets(c.groups)[s.events])) else None
    case ArrivePosition =>
      if s.position.arrived < |s.position.sent| then Some(s.(position := s.position.(arrived := s.position.arrived + 1))) else None
    case ArriveVelocity =>
      if s.velocity.arrived < |s.velocity.sent| then Some(s.(velocity := s.velocity.(arrived := s.velocity.arrived + 1))) else None
    case Reveal =>
      if c.gated && Showable(s.position) && Showable(s.velocity) && s.position.revealed == s.velocity.revealed < s.closed
         && !(c.frozen && InBracket(s.at))
      then Some(s.(position := Show(s.position), velocity := Show(s.velocity))) else None
    case RevealPosition =>
      if !c.gated && Showable(s.position) && !(c.frozen && InBracket(s.at))
      then Some(s.(position := Show(s.position))) else None
    case RevealVelocity =>
      if !c.gated && Showable(s.velocity) && !(c.frozen && InBracket(s.at))
      then Some(s.(velocity := Show(s.velocity))) else None
    case Subscribe => StepSubscriber(c, s)
  }

  function StepSubscriber(c: Config, s: State): Option<State> {
    match s.at
    case Waiting =>
      // the WaitSet holds a read condition of each reader
      if s.position.visible != [] || s.velocity.visible != [] then Some(s.(at := TakePosition)) else None
    case TakePosition => Some(s.(position := Take(s.position, c.cap), at := TakeVelocity))
    case TakeVelocity => Some(s.(velocity := Take(s.velocity, c.cap), at := Checking))
    case Checking => Some(s.(at := AfterCheck(c, s.position.order, s.velocity.order)))
    case Finished => None
    case Failed(_) => None
  }

  function Run(c: Config, acts: seq<Action>): Option<State> {
    if acts == [] then Some(Init())
    else
      var before := Run(c, acts[..|acts| - 1]);
      if before.None? then None else Step(c, before.value, acts[|acts| - 1])
  }

  // ---- The invariant ----------------------------------------------------------

  lemma {:induction false} RangeAt(a: nat, b: nat, i: nat)
    requires a <= b && i < b - a
    ensures |Range(a, b)| == b - a && Range(a, b)[i] == a + i
  {
    if i < b - a - 1 { RangeAt(a, b - 1, i); } else { RangeLength(a, b - 1); }
  }

  lemma {:induction false} RangeLength(a: nat, b: nat)
    ensures |Range(a, b)| == if a <= b then b - a else 0
  {
    if a < b { RangeLength(a, b - 1); }
  }

  lemma {:induction false} RangeSplits(a: nat, m: nat, b: nat)
    requires a <= m <= b
    ensures Range(a, m) + Range(m, b) == Range(a, b)
  {
    if m < b { RangeSplits(a, m, b - 1); }
  }

  lemma RangeCut(a: nat, b: nat, n: nat)
    requires a <= b && n <= b - a
    ensures |Range(a, b)| == b - a
    ensures Range(a, b)[..n] == Range(a, a + n) && Range(a, b)[n..] == Range(a + n, b)
  {
    RangeSplits(a, a + n, b);
    RangeLength(a, b);
    RangeLength(a, a + n);
  }

  /** The recorded, the visible and the sent samples are runs of consecutive sets. */
  ghost predicate Ordered(t: Topic) {
    && t.sent == Range(0, |t.sent|) && t.revealed <= t.arrived <= |t.sent|
    && |t.order| <= t.revealed
    && t.order == Range(0, |t.order|) && t.visible == Range(|t.order|, t.revealed)
  }

  /** The publisher is `e` calls in: that many samples were sent and sets closed. */
  predicate Written(e: nat, position: nat, velocity: nat, closed: nat) {
    && position == (e + 2) / 4 && velocity == (e + 1) / 4 && closed == e / 4
  }

  /** What the two readers have in common at each point of the subscriber's loop. */
  predicate Together(c: Config, at: Place, p: nat, v: nat, revealed: nat) {
    match at
    case Waiting => p == v && (c.groups > 0 ==> p < c.groups)
    case TakePosition => p == v < revealed
    case TakeVelocity => v <= p && v < revealed && p - v == Least(c.cap, revealed - v)
    case Checking => p == v
    case Finished => p == v == c.groups
    case Failed(_) => false
  }

  ghost predicate Inv(c: Config, s: State) {
    && s.events <= 4 * c.groups
    && Written(s.events, |s.position.sent|, |s.velocity.sent|, s.closed)
    && Ordered(s.position) && Ordered(s.velocity)
    && s.position.revealed == s.velocity.revealed <= c.groups
    && Together(c, s.at, |s.position.order|, |s.velocity.order|, s.position.revealed)
  }

  /** The conditions under which the check can never fail: sets are gated, and either
      the view is frozen or a bracket cannot take more than it started with. */
  predicate Safe(c: Config) {
    c.gated && (c.frozen || c.groups <= 1 || c.cap <= 1)
  }

  lemma {:induction false} EventAt(n: nat, e: nat)
    requires e < 4 * n
    ensures Sets(n)[e] == Set(e / 4)[e % 4]
  {
    if e < 4 * (n - 1) { EventAt(n - 1, e); }
  }

  /** The state after the publisher's next call. */
  function Published(s: State): State {
    Do(s.(events := s.events + 1), Set(s.events / 4)[s.events % 4])
  }

  lemma PublishedWrites(s: State)
    requires Written(s.events, |s.position.sent|, |s.velocity.sent|, s.closed)
    ensures var s' := Published(s);
            && Written(s'.events, |s'.position.sent|, |s'.velocity.sent|, s'.closed)
            && (s'.position == s.position || s'.position == s.position.(sent := s.position.sent + [|s.position.sent|]))
            && (s'.velocity == s.velocity || s'.velocity == s.velocity.(sent := s.velocity.sent + [|s.velocity.sent|]))
            && s'.events == s.events + 1 && s'.at == s.at
  {
    var e := s.events;
    assert e == 4 * (e / 4) + e % 4;
  }

  lemma PublishKeeps(c: Config, s: State)
    requires Inv(c, s) && s.events < 4 * c.groups
    ensures Inv(c, Do(s.(events := s.events + 1), Sets(c.groups)[s.events]))
  {
    EventAt(c.groups, s.events);
    PublishedWrites(s);
    SentGrows(s.position);
    SentGrows(s.velocity);
  }

  lemma SentGrows(t: Topic)
    requires Ordered(t)
    ensures Ordered(t.(sent := t.sent + [|t.sent|]))
  {
  }

  lemma ShowKeeps(t: Topic)
    requires Ordered(t) && Showable(t)
    ensures Ordered(Show(t)) && Show(t).order == t.order
  {
    RangeAt(0, |t.sent|, t.revealed);
  }

  lemma TakeKeeps(t: Topic, cap: nat)
    requires Ordered(t)
    ensures Ordered(Take(t, cap)) && |Take(t, cap).order| == |t.order| + Least(cap, t.revealed - |t.order|)
  {
    var n := Least(cap, t.revealed - |t.order|);
    RangeCut(|t.order|, t.revealed, n);
    RangeSplits(0, |t.order|, |t.order| + n);
    RangeLength(0, |t.order| + n);
  }

  lemma CheckKeeps(c: Config, s: State)
    requires Inv(c, s) && s.at.Checking?
    ensures Inv(c, s.(at := AfterCheck(c, s.position.order, s.velocity.order)))
  {
    if |s.position.order| >= c.groups {
      assert s.position.order[..c.groups] == s.position.order;
      assert s.velocity.order[..c.groups] == s.velocity.order;
    }
  }

  lemma SubscribeKeeps(c: Config, s: State, s': State)
    requires Safe(c) && Inv(c, s) && StepSubscriber(c, s) == Some(s')
    ensures Inv(c, s')
  {
    match s.at
    case Waiting =>
      RangeLength(|s.position.order|, s.position.revealed);
      RangeLength(|s.velocity.order|, s.velocity.revealed);
    case TakePosition => TakeKeeps(s.position, c.cap);
    case TakeVelocity => TakeKeeps(s.velocity, c.cap);
    case Checking => CheckKeeps(c, s);
    case _ =>
  }

  lemma RevealKeeps(c: Config, s: State, s': State)
    requires Safe(c) && Inv(c, s) && Step(c, s, Reveal) == Some(s')
    ensures Inv(c, s')
  {
    ShowKeeps(s.position);
    ShowKeeps(s.velocity);
  }

  lemma StepKeepsInv(c: Config, s: State, a: Action, s': State)
    requires Safe(c) && Inv(c, s) && Step(c, s, a) == Some(s')
    ensures Inv(c, s')
  {
    match a
    case Publish => PublishKeeps(c, s);
    case Reveal => RevealKeeps(c, s, s');
    case Subscribe => SubscribeKeeps(c, s, s');
    case _ => ArriveKeeps(c, s, a, s');
  }

  lemma ArriveKeeps(c: Config, s: State, a: Action, s': State)
    requires Inv(c, s) && (a.ArrivePosition? || a.ArriveVelocity?) && Step(c, s, a) == Some(s')
    ensures Inv(c, s')
  {
  }

  lemma {:induction false} RunKeepsInv(c: Config, acts: seq<Action>)
    requires Safe(c) && Run(c, acts).Some?
    ensures Inv(c, Run(c, acts).value)
  {
    if acts != [] {
      var before := acts[..|acts| - 1];
      RunKeepsInv(c, before);
      StepKeepsInv(c, Run(c, before).value, acts[|acts| - 1], Run(c, acts).value);
    }
  }

  // ---- Main results -------------------------------------------------------------

  /** `acts` is a schedule under the middleware's promises, and leads to `s`. */
  ghost predicate Reaches(c: Config, acts: seq<Action>, s: State) {
    Safe(c) && Run(c, acts) == Some(s)
  }

  /** In every interleaving of publisher, delivery and subscriber both records are
      always 0..k-1, outside a bracket of the same length; success means exactly
      0..groups-1 on both. */
  lemma {:induction false} AlwaysOrdered(c: Config, acts: seq<Action>, s: State)
    requires Reaches(c, acts, s)
    ensures s.position.order == Range(0, |s.position.order|) && s.velocity.order == Range(0, |s.velocity.order|)
    ensures !InBracket(s.at) ==> s.position.order == s.velocity.order
    ensures |s.position.order| + |s.position.visible| <= c.groups
    ensures |s.velocity.order| + |s.velocity.visible| <= c.groups
    ensures s.at.Finished? ==> s.position.order == s.velocity.order == Range(0, c.groups)
  {
    RunKeepsInv(c, acts);
    RangeLength(|s.position.order|, s.position.revealed);
    RangeLength(|s.velocity.order|, s.velocity.revealed);
  }

  /** The check of a reachable state ends the program with success exactly when every set
      has been recorded; until then the loop goes on. */
  lemma {:induction false} ChecksToFinished(c: Config, acts: seq<Action>, s: State)
    requires Reaches(c, acts, s) && s.at.Checking?
    ensures Step(c, s, Subscribe) ==
            Some(s.(at := if |s.position.order| == c.groups && |s.velocity.order| == c.groups then Finished else Waiting))
  {
    RunKeepsInv(c, acts);
    CheckKeeps(c, s);
    if |s.position.order| == c.groups {
      assert s.position.order[..c.groups] == s.position.order;
      assert s.velocity.order[..c.groups] == s.velocity.order;
    }
  }

  /** How far the subscriber is in its loop. */
  function Rank(at: Place): nat {
    match at
    case Checking => 4
    case Waiting => 3
    case TakePosition => 2
    case TakeVelocity => 1
    case _ => 0
  }

  /** The next step on the way to the end. */
  function Onward(c: Config, s: State): Action {
    if s.events < 4 * c.groups then Publish
    else if s.position.arrived < |s.position.sent| then ArrivePosition
    else if s.velocity.arrived < |s.velocity.sent| then ArriveVelocity
    else if !s.at.Waiting? || s.position.visible != [] then Subscribe
    else Reveal
  }

  lemma OnwardPossible(c: Config, s: State)
    requires Safe(c) && c.groups > 0 && c.cap > 0 && Inv(c, s) && !s.at.Finished?
    ensures Step(c, s, Onward(c, s)).Some?
  {
    RangeLength(|s.position.order|, s.position.revealed);
    RangeLength(|s.velocity.order|, s.velocity.revealed);
  }

  /** Nothing is left to publish or deliver, or there is less of it. */
  predicate Nearer(s: State, s': State) {
    || s'.events > s.events
    || (s'.events == s.events && s'.position.arrived + s'.velocity.arrived > s.position.arrived + s.velocity.arrived)
    || (s'.events == s.events && s'.position.arrived + s'.velocity.arrived == s.position.arrived + s.velocity.arrived
        && Closer(s, s'))
  }

  lemma OnwardNearer(c: Config, s: State, s': State)
    requires Safe(c) && c.cap > 0 && Inv(c, s) && !s.at.Finished? && Step(c, s, Onward(c, s)) == Some(s')
    ensures Nearer(s, s')
  {
    match Onward(c, s)
    case Publish => PublishedCounts(c, s, s');
    case Subscribe => SubscribesCloser(c, s, s');
    case _ =>
  }

  lemma PublishedCounts(c: Config, s: State, s': State)
    requires Step(c, s, Publish) == Some(s')
    ensures s'.events == s.events + 1
  {
  }

  /** More has been shown, or taken, or the loop has gone on. */
  predicate Closer(s: State, s': State) {
    || s'.position.revealed > s.position.revealed
    || (s'.position.revealed == s.position.revealed
        && |s'.position.order| + |s'.velocity.order| > |s.position.order| + |s.velocity.order|)
    || (s'.position.revealed == s.position.revealed
        && |s'.position.order| + |s'.velocity.order| == |s.position.order| + |s.velocity.order|
        && Rank(s'.at) < Rank(s.at))
  }

  lemma SubscribesCloser(c: Config, s: State, s': State)
    requires Safe(c) && c.cap > 0 && Inv(c, s) && !s.at.Finished? && StepSubscriber(c, s) == Some(s')
    ensures Closer(s, s') && s'.events == s.events
    ensures s'.position.arrived == s.position.arrived && s'.velocity.arrived == s.velocity.arrived
  {
    match s.at
    case TakePosition => TakeKeeps(s.position, c.cap);
    case TakeVelocity => TakeKeeps(s.velocity, c.cap);
    case Checking => CheckKeeps(c, s);
    case _ =>
  }

  /** Whatever has happened so far, the subscriber can still succeed. */
  lemma {:induction false} CanStillFinish(c: Config, acts: seq<Action>, s: State) returns (more: seq<Action>)
    requires Reaches(c, acts, s) && c.groups > 0 && c.cap > 0
    ensures acts <= more && Run(c, more).Some? && Run(c, more).value.at.Finished?
    decreases 4 * c.groups - s.events, 2 * c.groups - s.position.arrived - s.velocity.arrived,
              c.groups - s.position.revealed, 2 * c.groups - |s.position.order| - |s.velocity.order|, Rank(s.at)
  {
    RunKeepsInv(c, acts);
    if s.at.Finished? {
      more := acts;
    } else {
      var a := Onward(c, s);
      OnwardPossible(c, s);
      var s' := Step(c, s, a).value;
      StepKeepsInv(c, s, a, s');
      OnwardNearer(c, s, s');
      Then(c, acts, a);
      more := CanStillFinish(c, acts + [a], s');
    }
  }

  ghost predicate NeverFails(c: Config) {
    forall acts :: Run(c, acts).Some? ==> !Run(c, acts).value.at.Failed?
  }

  /** The one step a schedule adds. */
  lemma Then(c: Config, acts: seq<Action>, a: Action)
    requires Run(c, acts).Some?
    ensures Run(c, acts + [a]) == Step(c, Run(c, acts).value, a)
  {
    assert (acts + [a])[..|acts|] == acts;
  }

  /** A position written, delivered and shown without its velocity is taken alone. */
  lemma UngatedFails(c: Config)
    requires !c.gated && c.groups > 0 && c.cap > 0
    ensures !NeverFails(c)
  {
    EventAt(c.groups, 0);
    EventAt(c.groups, 1);
    Then(c, [], Publish);
    Then(c, [Publish], Publish);
    var acts := [Publish, Publish];
    assert [Publish] + [Publish] == acts;
    var s := Run(c, acts).value;
    assert s == Init().(events := 2, position := Topic([0], 0, 0, [], []));
    Then(c, acts, ArrivePosition);
    acts := acts + [ArrivePosition];
    Then(c, acts, RevealPosition);
    acts := acts + [RevealPosition];
    TakenAlone(c, acts);
  }

  lemma TakenAlone(c: Config, acts: seq<Action>)
    requires c.cap > 0 && Run(c, acts).Some?
    requires var s := Run(c, acts).value;
             s.at.Waiting? && s.position.order == s.velocity.order && s.position.visible != [] && s.velocity.visible == []
    ensures !NeverFails(c)
  {
    Then(c, acts, Subscribe);
    var a1 := acts + [Subscribe];
    Then(c, a1, Subscribe);
    var a2 := a1 + [Subscribe];
    Then(c, a2, Subscribe);
    var a3 := a2 + [Subscribe];
    Then(c, a3, Subscribe);
    assert Run(c, a3 + [Subscribe]).value.at.Failed?;
  }

  /** The publisher gets through its first `n` calls. */
  lemma {:induction false} Publishes(c: Config, n: nat) returns (acts: seq<Action>)
    requires n <= 4 * c.groups
    ensures |acts| == n && Run(c, acts).Some?
    ensures var s := Run(c, acts).value;
            && s.events == n && s.at.Waiting? && Written(n, |s.position.sent|, |s.velocity.sent|, s.closed)
            && s.position == Topic(s.position.sent, 0, 0, [], []) && s.velocity == Topic(s.velocity.sent, 0, 0, [], [])
  {
    if n == 0 {
      acts := [];
    } else {
      acts := Publishes(c, n - 1);
      PublishNext(c, acts);
      PublishedWrites(Run(c, acts).value);
      acts := acts + [Publish];
    }
  }

  lemma PublishNext(c: Config, acts: seq<Action>)
    requires Run(c, acts).Some? && Run(c, acts).value.events < 4 * c.groups
    ensures var s := Run(c, acts).value;
            Run(c, acts + [Publish]) == Some(Published(s))
  {
    Then(c, acts, Publish);
    EventAt(c.groups, Run(c, acts).value.events);
  }

  /** Both samples of a published set arrive. */
  lemma Arrives(c: Config, acts: seq<Action>) returns (more: seq<Action>)
    requires Run(c, acts).Some?
    requires var s := Run(c, acts).value; s.position.arrived < |s.position.sent| && s.velocity.arrived < |s.velocity.sent|
    ensures var s := Run(c, acts).value;
            Run(c, more) == Some(s.(position := s.position.(arrived := s.position.arrived + 1),
                                    velocity := s.velocity.(arrived := s.velocity.arrived + 1)))
  {
    Then(c, acts, ArrivePosition);
    more := acts + [ArrivePosition];
    Then(c, more, ArriveVelocity);
    more := more + [ArriveVelocity];
  }

  /** A second set shown between the two takes is on one record only. */
  lemma UnfrozenFails(c: Config)
    requires c.gated && !c.frozen && c.groups > 1 && c.cap > 1
    ensures !NeverFails(c)
  {
    var acts := Publishes(c, 8);
    acts := Arrives(c, acts);
    acts := Arrives(c, acts);
    Then(c, acts, Reveal);
    TakenThenShown(c, acts + [Reveal], Run(c, acts + [Reveal]).value);
  }

  lemma TakenThenShown(c: Config, acts: seq<Action>, s: State)
    requires c.gated && !c.frozen && c.cap > 1 && Run(c, acts) == Some(s) && s.at.Waiting? && s.closed == 2
    requires |s.position.visible| == 1 && |s.velocity.visible| == 1 && s.position.order == s.velocity.order == []
    requires Showable(s.position) && Showable(s.velocity) && s.position.revealed == s.velocity.revealed == 1
    ensures !NeverFails(c)
  {
    Then(c, acts, Subscribe);
    var a1 := acts + [Subscribe];
    Then(c, a1, Subscribe);
    var a2 := a1 + [Subscribe];
    Then(c, a2, Reveal);
    ShownBetween(c, a2 + [Reveal]);
  }

  lemma ShownBetween(c: Config, acts: seq<Action>)
    requires Run(c, acts).Some? && c.cap > 1
    requires var s := Run(c, acts).value;
             s.at.TakeVelocity? && |s.position.order| == 1 && s.velocity.order == [] && |s.velocity.visible| == 2
    ensures !NeverFails(c)
  {
    Then(c, acts, Subscribe);
    var a1 := acts + [Subscribe];
    Then(c, a1, Subscribe);
    assert Run(c, a1 + [Subscribe]).value.at.Failed?;
  }

  /** No FAIL exit of the subscriber is reachable exactly when sets become visible
      atomically and, unless there is nothing more to show or to take, the access
      bracket freezes the view. With the program's own cap, the number of sets, and
      more than one set, both are needed. */
  lemma NeverFailsIff(c: Config)
    requires c.groups > 0 && c.cap > 0
    ensures NeverFails(c) <==> c.gated && (c.frozen || c.groups == 1 || c.cap == 1)
  {
    if Safe(c) {
      forall acts | Run(c, acts).Some? ensures !Run(c, acts).value.at.Failed? {
        RunKeepsInv(c, acts);
      }
    } else if !c.gated {
      UngatedFails(c);
    } else {
      UnfrozenFails(c);
    }
  }

  // ---- The loops of the two programs ------------------------------------------------

  /** The publisher's write loop. */
  method WriteGroups(n: nat) returns (calls: seq<Event>)
    ensures calls == Sets(n)
  {
    calls := [];
    for id := 0 to n
      invariant calls == Sets(id)
    {
      calls := calls + [Begin];
      calls := calls + [WritePosition(id)];
      calls := calls + [WriteVelocity(id)];
      calls := calls + [End];
    }
  }

  datatype Sample = Sample(valid: bool, id: nat)

  function Ids(samples: seq<Sample>): seq<nat> {
    if samples == [] then []
    else
      var last := samples[|samples| - 1];
      Ids(samples[..|samples| - 1]) + if last.valid then [last.id] else []
  }

  /** Each valid sample's id is there, behind those of the valid ones before it. */
  lemma {:induction false} IdsHas(samples: seq<Sample>, i: nat)
    requires i < |samples| && samples[i].valid
    ensures var k := |Ids(samples[..i])|; k < |Ids(samples)| && Ids(samples)[k] == samples[i].id
  {
    var n := |samples| - 1;
    if i < n {
      assert samples[..n][..i] == samples[..i];
      IdsHas(samples[..n], i);
    }
  }

  /** And nothing else is. */
  lemma {:induction false} IdsOnly(samples: seq<Sample>, k: nat) returns (i: nat)
    requires k < |Ids(samples)|
    ensures i < |samples| && samples[i].valid && |Ids(samples[..i])| == k && Ids(samples)[k] == samples[i].id
  {
    var n := |samples| - 1;
    if k < |Ids(samples[..n])| {
      i := IdsOnly(samples[..n], k);
      assert samples[..n][..i] == samples[..i];
    } else {
      i := n;
    }
  }

  /** The same samples at the same indices. */
  predicate Agree(position: seq<nat>, velocity: seq<nat>) {
    |position| == |velocity| && forall i :: 0 <= i < |position| ==> position[i] == velocity[i]
  }

  class Subscriber {
    var positionOrder: seq<nat>
    var velocityOrder: seq<nat>

    constructor ()
      ensures positionOrder == velocityOrder == []
    {
      positionOrder, velocityOrder := [], [];
    }

    /** Both drains of one access bracket. */
    method Bracket(positions: seq<Sample>, velocities: seq<Sample>)
      modifies this
      ensures positionOrder == old(positionOrder) + Ids(positions)
      ensures velocityOrder == old(velocityOrder) + Ids(velocities)
    {
      for i := 0 to |positions|
        invariant positionOrder == old(positionOrder) + Ids(positions[..i]) && velocityOrder == old(velocityOrder)
      {
        assert positions[..i + 1][..i] == positions[..i];
        if positions[i].valid {
          positionOrder := positionOrder + [positions[i].id];
        }
      }
      assert positions[..|positions|] == positions;
      for i := 0 to |velocities|
        invariant velocityOrder == old(velocityOrder) + Ids(velocities[..i])
        invariant positionOrder == old(positionOrder) + Ids(positions)
      {
        assert velocities[..i + 1][..i] == velocities[..i];
        if velocities[i].valid {
          velocityOrder := velocityOrder + [velocities[i].id];
        }
      }
      assert velocities[..|velocities|] == velocities;
    }

    /** The checks after a bracket and, once both records are long enough, the last. */
    method Check(c: Config) returns (at: Place)
      ensures at == AfterCheck(c, positionOrder, velocityOrder)
      ensures at.Finished? <==>
                && Agree(positionOrder, velocityOrder) && |positionOrder| >= c.groups
                && forall i :: 0 <= i < c.groups ==> positionOrder[i] == i
      ensures at.Waiting? <==> Agree(positionOrder, velocityOrder) && |positionOrder| < c.groups
      ensures at == Failed(Diverged) <==> |positionOrder| != |velocityOrder|
      ensures at == Failed(Mismatched) <==>
                && |positionOrder| == |velocityOrder|
                && exists i :: 0 <= i < |positionOrder| && positionOrder[i] != velocityOrder[i]
      ensures at == Failed(Disordered) <==>
                && Agree(positionOrder, velocityOrder) && |positionOrder| >= c.groups
                && exists i :: 0 <= i < c.groups && positionOrder[i] != i
    {
      if |positionOrder| != |velocityOrder| {
        return Failed(Diverged);
      }
      for i := 0 to |positionOrder|
        invariant positionOrder[..i] == velocityOrder[..i]
      {
        if positionOrder[i] != velocityOrder[i] {
          return Failed(Mismatched);
        }
      }
      assert positionOrder == positionOrder[..|positionOrder|] == velocityOrder[..|positionOrder|] == velocityOrder;
      if |positionOrder| < c.groups || |velocityOrder| < c.groups {
        return Waiting;
      }
      RangeLength(0, c.groups);
      for i := 0 to c.groups
        invariant positionOrder[..i] == velocityOrder[..i] == Range(0, i)
        invariant forall k :: 0 <= k < i ==> positionOrder[k] == k
      {
        RangeAt(0, c.groups, i);
        if positionOrder[i] != i || velocityOrder[i] != i {
          assert positionOrder[..c.groups][i] == positionOrder[i] && velocityOrder[..c.groups][i] == velocityOrder[i];
          return Failed(Disordered);
        }
      }
      at := Finished;
    }
  }
}
