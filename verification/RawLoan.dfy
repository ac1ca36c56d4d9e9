/** The raw-loan publisher and subscriber as one run: loans on both sides, the match
    callbacks that tell the publisher when to stop, the listener's take loop and the
    main thread that deletes the reader under it. */
module RawLoan {
  import opened Base

  const CANCELLED := -1

  /** `samples` are published. `countFirst`: the match callback stores the count before
      it stores that there ever was a match. `stops`: the listener takes no more once it
      has received everything, which the source's does not do. */
  datatype Config = Config(samples: nat, countFirst: bool, stops: bool)

  /** The publisher's main thread; sample number `samples` is the cancelled one. */
  datatype Pub =
    | AwaitReader
    | Loaning(k: nat)
    | Filling(k: nat)
    | Draining
    | Counting
    | Deleting
    | PubDone
    | PubFailed

  /** The subscriber's listener thread. */
  datatype Listener =
    | Outside
    | Taking
    | Comparing(v: int)
    | Returning
    | Signalling

  /** The subscriber's main thread. */
  datatype Main = Polling | Removing | Closing | Joining | SubDone

  datatype Fail = TakeRefused | WrongSequence | ReturnRefused | LoanLeaked

  datatype Reader = Alive | Removed | Closed | Deleted

  datatype Match = Never | Matched | Over

  /** The publisher's side of the data. */
  datatype Writer = Writer(at: Pub, loans: nat, sent: seq<int>)

  /** What the publisher's callbacks tell its main thread; `callback` is the count a
      half-run match callback is reporting. */
  datatype Matching = Matching(phase: Match, ready: bool, count: nat, ever: bool, events: seq<nat>, callback: Option<nat>)

  /** The subscriber's process: reader, listener thread and main thread. */
  datatype Receiver = Receiver(
    arrived: nat,
    taken: nat,
    loans: nat,
    expected: nat,
    accepted: seq<int>,
    allReceived: bool,
    listener: Listener,
    main: Main,
    reader: Reader,
    exit: Option<Fail>)

  datatype State = State(w: Writer, m: Matching, r: Receiver)

  datatype Action =
    | Publish
    | MakeMatch
    | EndMatch
    | MakeReady
    | Callback
    | Arrive
    | Dispatch
    | Listen
    | Proceed

  function Init(): State {
    State(Writer(AwaitReader, 0, []), Matching(Never, false, 0, false, [], None),
          Receiver(0, 0, 0, 0, [], false, Outside, Polling, Alive, None))
  }

  function Value(c: Config, k: nat): int {
    if k < c.samples then k else CANCELLED
  }

  function StepPub(c: Config, w: Writer, m: Matching): Option<Writer> {
    match w.at
    case AwaitReader => if m.ready then Some(w.(at := Loaning(0))) else None
    case Loaning(k) => Some(w.(at := Filling(k), loans := w.loans + 1))
    case Filling(k) =>
      if w.loans == 0 then Some(w.(at := PubFailed))
      else if k < c.samples then Some(Writer(Loaning(k + 1), w.loans - 1, w.sent + [Value(c, k)]))
      else Some(Writer(Draining, w.loans - 1, w.sent))
    case Draining => Some(if m.ever then w.(at := Counting) else w)
    case Counting => Some(w.(at := if m.count == 0 then Deleting else Draining))
    case Deleting => Some(w.(at := if w.loans == 0 then PubDone else PubFailed))
    case PubDone => None
    case PubFailed => None
  }

  /** The two stores of on_publication_matched. */
  function FirstStore(c: Config, m: Matching, n: nat): Matching {
    if c.countFirst then m.(count := n) else m.(ever := m.ever || n > 0)
  }

  function SecondStore(c: Config, m: Matching, n: nat): Matching {
    if c.countFirst then m.(ever := m.ever || n > 0) else m.(count := n)
  }

  function StepCallback(c: Config, m: Matching): Option<Matching> {
    if m.callback.Some? then Some(SecondStore(c, m, m.callback.value).(callback := None))
    else if m.events == [] then None
    else Some(FirstStore(c, m, m.events[0]).(callback := Some(m.events[0]), events := m.events[1..]))
  }

  function StepListener(c: Config, r: Receiver, sent: seq<int>): Option<Receiver> {
    match r.listener
    case Outside => None
    case Taking =>
      if c.stops && r.allReceived then Some(r.(listener := Outside))
      else if r.reader.Closed? || r.reader.Deleted? then Some(r.(exit := Some(TakeRefused)))
      else if r.taken < r.arrived <= |sent| then
        Some(r.(listener := Comparing(sent[r.taken]), taken := r.taken + 1, loans := r.loans + 1))
      else Some(r.(listener := Outside))
    case Comparing(v) =>
      if v != r.expected then Some(r.(exit := Some(WrongSequence)))
      else Some(r.(listener := Returning, expected := r.expected + 1, accepted := r.accepted + [v]))
    case Returning =>
      if r.loans == 0 then Some(r.(exit := Some(ReturnRefused)))
      else Some(r.(listener := Signalling, loans := r.loans - 1))
    case Signalling =>
      Some(r.(listener := Taking, allReceived := r.allReceived || r.expected == c.samples))
  }

  /** delete_datareader: the loan check, then teardown, which refuses further calls and
      waits for a running listener. */
  function StepMain(r: Receiver): Option<Receiver> {
    match r.main
    case Polling => Some(r.(main := if r.allReceived then Removing else Polling))
    case Removing =>
      if r.loans > 0 then Some(r.(exit := Some(LoanLeaked)))
      else Some(r.(main := Closing, reader := Removed))
    case Closing => Some(r.(main := Joining, reader := Closed))
    case Joining => if r.listener.Outside? then Some(r.(main := SubDone, reader := Deleted)) else None
    case SubDone => None
  }

  /** A step of the middleware or of one of the subscriber's threads. */
  function StepReceiver(c: Config, r: Receiver, sent: seq<int>, a: Action): Option<Receiver> {
    if r.exit.Some? then None
    else match a
      case Arrive => if r.arrived < |sent| then Some(r.(arrived := r.arrived + 1)) else None
      case Dispatch => if r.listener.Outside? && !r.reader.Deleted? then Some(r.(listener := Taking)) else None
      case Listen => StepListener(c, r, sent)
      case Proceed => StepMain(r)
      case _ => None
  }

  /** The reader cannot be reached any more, or its process has ended. */
  predicate Gone(r: Receiver) {
    r.reader.Closed? || r.reader.Deleted? || r.exit.Some?
  }

  function StepMatching(c: Config, m: Matching, r: Receiver, a: Action): Option<Matching> {
    match a
    case MakeMatch => if m.phase.Never? && r.reader.Alive? then Some(m.(phase := Matched, events := m.events + [1])) else None
    case EndMatch => if m.phase.Matched? && Gone(r) then Some(m.(phase := Over, events := m.events + [0])) else None
    case MakeReady => if m.phase.Never? then None else Some(m.(ready := true))
    case Callback => StepCallback(c, m)
    case _ => None
  }

  function Step(c: Config, s: State, a: Action): Option<State> {
    if a.Publish? then
      var w := StepPub(c, s.w, s.m);
      if w.None? then None else Some(s.(w := w.value))
    else if a.MakeMatch? || a.EndMatch? || a.MakeReady? || a.Callback? then
      var m := StepMatching(c, s.m, s.r, a);
      if m.None? then None else Some(s.(m := m.value))
    else
      var r := StepReceiver(c, s.r, s.w.sent, a);
      if r.None? then None else Some(s.(r := r.value))
  }

  function Run(c: Config, acts: seq<Action>): Option<State> {
    if acts == [] then Some(Init())
    else
      var before := Run(c, acts[..|acts| - 1]);
      if before.None? then None else Step(c, before.value, acts[|acts| - 1])
  }

  // ---- The publisher's and the subscriber's own bookkeeping -----------------------

  function Range(n: nat): (r: seq<int>)
    ensures |r| == n && forall i :: 0 <= i < n ==> r[i] == i
  {
    if n == 0 then [] else Range(n - 1) + [n - 1]
  }

  /** How many samples the publisher has published when it stands at `at`. */
  predicate PubCounts(c: Config, at: Pub, sent: nat, loans: nat) {
    match at
    case AwaitReader => sent == 0 && loans == 0
    case Loaning(k) => sent == k <= c.samples && loans == 0
    case Filling(k) => sent == k <= c.samples && loans == 1
    case PubFailed => false
    case _ => sent == c.samples && loans == 0
  }

  /** How many samples the listener has taken, accepted and given back. */
  predicate ListenerCounts(at: Listener, taken: nat, accepted: nat, loans: nat) {
    match at
    case Comparing(v) => taken == accepted + 1 && v == accepted && loans == 1
    case Returning => taken == accepted > 0 && loans == 1
    case Signalling => taken == accepted > 0 && loans == 0
    case _ => taken == accepted && loans == 0
  }

  predicate MainAgrees(main: Main, reader: Reader, at: Listener, allReceived: bool) {
    match main
    case Polling => reader.Alive?
    case Removing => reader.Alive? && allReceived
    case Closing => reader.Removed? && allReceived
    case Joining => reader.Closed? && allReceived
    case SubDone => reader.Deleted? && allReceived && at.Outside?
  }

  ghost predicate WriterInv(c: Config, w: Writer) {
    PubCounts(c, w.at, |w.sent|, w.loans) && w.sent == Range(|w.sent|)
  }

  ghost predicate ReceiverInv(c: Config, r: Receiver, sent: nat) {
    && r.taken <= r.arrived <= sent <= c.samples
    && r.accepted == Range(r.expected) && ListenerCounts(r.listener, r.taken, r.expected, r.loans)
    && (r.allReceived ==> r.expected == c.samples > 0 && !r.listener.Returning?)
    && MainAgrees(r.main, r.reader, r.listener, r.allReceived)
    && (r.exit.Some? ==> r.exit == Some(TakeRefused) && r.reader.Closed? && !c.stops)
  }

  ghost predicate DataInv(c: Config, s: State) {
    WriterInv(c, s.w) && ReceiverInv(c, s.r, |s.w.sent|)
  }

  /** The match callbacks that have run, are running and are still to run, in order. */
  predicate MatchInv(m: Matching) {
    match m.phase
    case Never => m.events == [] && m.callback.None? && m.count == 0 && !m.ever
    case Matched =>
      || (m.events == [1] && m.callback.None? && m.count == 0 && !m.ever)
      || (m.events == [] && m.callback == Some(1) && m.count == 1 && !m.ever)
      || (m.events == [] && m.callback.None? && m.count == 1 && m.ever)
    case Over =>
      || (m.events == [1, 0] && m.callback.None? && m.count == 0 && !m.ever)
      || (m.events == [0] && m.callback == Some(1) && m.count == 1 && !m.ever)
      || (m.events == [0] && m.callback.None? && m.count == 1 && m.ever)
      || (m.events == [] && m.callback != Some(1) && m.count == 0 && m.ever)
  }

  /** The publisher goes past its drain loop only after the match is over. */
  predicate DrainInv(at: Pub, m: Matching, r: Receiver) {
    && (at.Counting? ==> m.ever)
    && (at.Deleting? || at.PubDone? ==> m.phase.Over?)
    && (m.phase.Over? ==> Gone(r))
  }

  lemma PubKeeps(c: Config, w: Writer, m: Matching)
    requires WriterInv(c, w) && StepPub(c, w, m).Some?
    ensures WriterInv(c, StepPub(c, w, m).value) && |StepPub(c, w, m).value.sent| >= |w.sent|
    ensures |StepPub(c, w, m).value.sent| <= c.samples
  {
  }

  lemma ListenerKeeps(c: Config, r: Receiver, sent: seq<int>)
    requires ReceiverInv(c, r, |sent|) && sent == Range(|sent|) && r.exit.None? && StepListener(c, r, sent).Some?
    ensures ReceiverInv(c, StepListener(c, r, sent).value, |sent|)
  {
  }

  lemma MainKeeps(c: Config, r: Receiver, sent: nat)
    requires ReceiverInv(c, r, sent) && r.exit.None? && StepMain(r).Some?
    ensures ReceiverInv(c, StepMain(r).value, sent)
  {
  }

  lemma StepKeepsData(c: Config, s: State, a: Action, s': State)
    requires DataInv(c, s) && Step(c, s, a) == Some(s')
    ensures DataInv(c, s')
  {
    match a
    case Publish => PubKeeps(c, s.w, s.m);
    case Listen => ListenerKeeps(c, s.r, s.w.sent);
    case Proceed => MainKeeps(c, s.r, |s.w.sent|);
    case _ =>
  }

  lemma MatchKeeps(c: Config, m: Matching, r: Receiver, a: Action)
    requires c.countFirst && MatchInv(m) && StepMatching(c, m, r, a).Some?
    ensures MatchInv(StepMatching(c, m, r, a).value)
  {
  }

  lemma StepKeepsMatch(c: Config, s: State, a: Action, s': State)
    requires c.countFirst && MatchInv(s.m) && Step(c, s, a) == Some(s')
    ensures MatchInv(s'.m)
  {
    if s'.m != s.m { MatchKeeps(c, s.m, s.r, a); }
  }

  lemma StepKeepsDrain(c: Config, s: State, a: Action, s': State)
    requires c.countFirst && DataInv(c, s) && Step(c, s, a) == Some(s') && MatchInv(s.m) && DrainInv(s.w.at, s.m, s.r)
    ensures DrainInv(s'.w.at, s'.m, s'.r)
  {
  }

  lemma {:induction false} RunKeepsData(c: Config, acts: seq<Action>)
    requires Run(c, acts).Some?
    ensures DataInv(c, Run(c, acts).value)
  {
    if acts != [] {
      var before := acts[..|acts| - 1];
      RunKeepsData(c, before);
      StepKeepsData(c, Run(c, before).value, acts[|acts| - 1], Run(c, acts).value);
    }
  }

  lemma {:induction false} RunKeepsDrain(c: Config, acts: seq<Action>)
    requires c.countFirst && Run(c, acts).Some?
    ensures var s := Run(c, acts).value; MatchInv(s.m) && DrainInv(s.w.at, s.m, s.r)
  {
    if acts != [] {
      var before := acts[..|acts| - 1];
      RunKeepsDrain(c, before);
      RunKeepsData(c, before);
      StepKeepsMatch(c, Run(c, before).value, acts[|acts| - 1], Run(c, acts).value);
      StepKeepsDrain(c, Run(c, before).value, acts[|acts| - 1], Run(c, acts).value);
    }
  }

  // ---- Main results -------------------------------------------------------------

  /** In every interleaving of the publisher, its callbacks, delivery, the listener and
      the subscriber's main thread: what is accepted is 0..k-1 and never the cancelled
      sample, and both deletes are called with no loan outstanding. */
  lemma {:induction false} LoansAndOrder(c: Config, acts: seq<Action>, s: State)
    requires Run(c, acts) == Some(s)
    ensures s.r.accepted == Range(s.r.expected) && s.r.expected <= c.samples
    ensures CANCELLED !in s.r.accepted && CANCELLED !in s.w.sent
    ensures s.r.main.Removing? ==> s.r.loans == 0 && s.r.accepted == Range(c.samples)
    ensures s.w.at.Deleting? ==> s.w.loans == 0 && s.w.sent == Range(c.samples)
    ensures s.r.main.SubDone? ==> s.r.accepted == Range(c.samples) && s.r.loans == 0 && s.r.exit.None?
    ensures !s.w.at.PubFailed?
  {
    RunKeepsData(c, acts);
  }

  /** The publisher has reported done before everything was accepted. */
  predicate FalseDone(c: Config, s: State) {
    s.w.at.PubDone? && s.r.accepted != Range(c.samples)
  }

  /** Of the program's four FAIL exits in the listener and at the delete only a refused
      take_raw can be reached, and only by a take made once the reader is closed, when
      everything has been accepted and no loan is out. */
  lemma {:induction false} OnlyTakeCanFail(c: Config, acts: seq<Action>, s: State, a: Action)
    requires Run(c, acts) == Some(s) && s.r.exit.None?
    requires Step(c, s, a).Some?
    ensures var r, r' := s.r, Step(c, s, a).value.r;
            && (r'.exit.Some? <==> a.Listen? && r.listener.Taking? && r.reader.Closed? && !c.stops)
            && (r'.exit.Some? ==> r'.exit == Some(TakeRefused) && r'.accepted == Range(c.samples) && r'.loans == 0)
  {
    RunKeepsData(c, acts);
    StepKeepsData(c, s, a, Step(c, s, a).value);
    if a.Listen? { ListenerExits(c, s.r, s.w.sent); }
  }

  lemma ListenerExits(c: Config, r: Receiver, sent: seq<int>)
    requires ReceiverInv(c, r, |sent|) && r.exit.None? && StepListener(c, r, sent).Some?
    ensures StepListener(c, r, sent).value.exit.Some? <==> r.listener.Taking? && r.reader.Closed? && !c.stops
  {
  }

  // ---- Runs that go wrong -----------------------------------------------------------

  lemma Then(c: Config, acts: seq<Action>, a: Action)
    requires Run(c, acts).Some?
    ensures Run(c, acts + [a]) == Step(c, Run(c, acts).value, a)
  {
    assert (acts + [a])[..|acts|] == acts;
  }

  /** The reader is matched and the publisher has published its first `k` samples. */
  function Sent(k: nat): State {
    State(Writer(Loaning(k), 0, Range(k)), Matching(Matched, true, 0, false, [1], None), Init().r)
  }

  lemma {:induction false} Publishes(c: Config, k: nat) returns (acts: seq<Action>)
    requires k <= c.samples
    ensures Run(c, acts) == Some(Sent(k))
  {
    if k == 0 {
      Then(c, [], MakeMatch);
      acts := [] + [MakeMatch];
      assert Init().m.events + [1] == [1];
      Then(c, acts, MakeReady);
      acts := acts + [MakeReady];
      Then(c, acts, Publish);
      acts := acts + [Publish];
    } else {
      acts := Publishes(c, k - 1);
      Then(c, acts, Publish);
      acts := acts + [Publish];
      Then(c, acts, Publish);
      acts := acts + [Publish];
    }
  }

  /** With the other order of stores the publisher can find that there was a match and
      that the count is zero while the match has only begun. */
  lemma EverFirstEndsEarly(c: Config)
    requires !c.countFirst && c.samples > 0
    ensures exists acts :: Run(c, acts).Some? && FalseDone(c, Run(c, acts).value)
  {
    var acts := Publishes(c, c.samples);
    Then(c, acts, Callback);
    var a1 := acts + [Callback];
    Then(c, a1, Publish);
    var a2 := a1 + [Publish];
    Then(c, a2, Publish);
    var a3 := a2 + [Publish];
    DrainsNow(c, a3);
  }

  lemma DrainsNow(c: Config, acts: seq<Action>)
    requires Run(c, acts).Some? && c.samples > 0
    requires var s := Run(c, acts).value; s.w.at.Draining? && s.m.ever && s.m.count == 0 && s.r.accepted == [] && s.w.loans == 0
    ensures exists more :: Run(c, more).Some? && FalseDone(c, Run(c, more).value)
  {
    Then(c, acts, Publish);
    var a1 := acts + [Publish];
    Then(c, a1, Publish);
    var a2 := a1 + [Publish];
    Then(c, a2, Publish);
    assert FalseDone(c, Run(c, a2 + [Publish]).value);
  }

  /** The publisher reports done only after the subscriber has accepted exactly
      0..samples-1 in order, if and only if the match callback stores the count first or
      there is nothing to send. */
  lemma DoneIffCountFirst(c: Config)
    ensures c.countFirst || c.samples == 0 <==> forall acts :: Run(c, acts).Some? ==> !FalseDone(c, Run(c, acts).value)
  {
    if c.countFirst || c.samples == 0 {
      forall acts | Run(c, acts).Some? ensures !FalseDone(c, Run(c, acts).value) {
        RunKeepsData(c, acts);
        if c.countFirst { RunKeepsDrain(c, acts); }
      }
    } else {
      EverFirstEndsEarly(c);
    }
  }

  /** The listener takes, accepts and returns one waiting sample. */
  lemma AcceptsOne(c: Config, acts: seq<Action>, s: State, r': Receiver) returns (more: seq<Action>)
    requires Run(c, acts) == Some(s) && s.r.exit.None? && s.r.listener.Taking? && s.r.reader.Alive? && s.r.loans == 0
    requires s.r.taken == s.r.arrived == s.r.expected < |s.w.sent| && s.w.sent[s.r.taken] == s.r.taken && !s.r.allReceived
    requires r' == s.r.(arrived := s.r.arrived + 1, taken := s.r.taken + 1, expected := s.r.expected + 1,
                        accepted := s.r.accepted + [s.r.taken],
                        allReceived := s.r.expected + 1 == c.samples)
    ensures Run(c, more) == Some(s.(r := r'))
  {
    var r := s.r;
    var r1 := r.(arrived := r.arrived + 1, listener := Comparing(r.taken), taken := r.taken + 1, loans := 1);
    more := TakesOne(c, acts, s, r1);
    var r2 := r1.(listener := Returning, expected := r.expected + 1, accepted := r.accepted + [r.taken]);
    more := ComparesOne(c, more, s.(r := r1), r2);
    more := ReturnsOne(c, more, s.(r := r2), r');
  }

  lemma ComparesOne(c: Config, acts: seq<Action>, s: State, r': Receiver) returns (more: seq<Action>)
    requires Run(c, acts) == Some(s) && s.r.exit.None? && s.r.listener == Comparing(s.r.expected)
    requires r' == s.r.(listener := Returning, expected := s.r.expected + 1, accepted := s.r.accepted + [s.r.expected])
    ensures Run(c, more) == Some(s.(r := r'))
  {
    more := Receives(c, acts, s, Listen, r');
  }

  lemma TakesOne(c: Config, acts: seq<Action>, s: State, r': Receiver) returns (more: seq<Action>)
    requires Run(c, acts) == Some(s) && s.r.exit.None? && s.r.listener.Taking? && s.r.reader.Alive? && s.r.loans == 0
    requires s.r.taken == s.r.arrived < |s.w.sent| && s.w.sent[s.r.taken] == s.r.taken && !s.r.allReceived
    requires r' == s.r.(arrived := s.r.arrived + 1, listener := Comparing(s.r.taken), taken := s.r.taken + 1, loans := 1)
    ensures Run(c, more) == Some(s.(r := r'))
  {
    var r1 := s.r.(arrived := s.r.arrived + 1);
    more := Receives(c, acts, s, Arrive, r1);
    more := Receives(c, more, s.(r := r1), Listen, r');
  }

  lemma ReturnsOne(c: Config, acts: seq<Action>, s: State, r': Receiver) returns (more: seq<Action>)
    requires Run(c, acts) == Some(s) && s.r.exit.None? && s.r.listener.Returning? && s.r.loans == 1
    requires r' == s.r.(listener := Taking, loans := 0, allReceived := s.r.allReceived || s.r.expected == c.samples)
    ensures Run(c, more) == Some(s.(r := r'))
  {
    var r1 := s.r.(listener := Signalling, loans := 0);
    more := Receives(c, acts, s, Listen, r1);
    more := Receives(c, more, s.(r := r1), Listen, r');
  }

  lemma Receives(c: Config, acts: seq<Action>, s: State, a: Action, r: Receiver) returns (more: seq<Action>)
    requires Run(c, acts) == Some(s) && StepReceiver(c, s.r, s.w.sent, a) == Some(r)
    ensures Run(c, more) == Some(s.(r := r))
  {
    Then(c, acts, a);
    more := acts + [a];
  }

  lemma {:induction false} AcceptsAll(c: Config, k: nat) returns (acts: seq<Action>)
    requires k <= c.samples && c.samples > 0
    ensures Run(c, acts) == Some(Sent(c.samples).(
              r := Receiver(k, k, 0, k, Range(k), k == c.samples, Taking, Polling, Alive, None)))
  {
    if k == 0 {
      acts := Publishes(c, c.samples);
      Then(c, acts, Dispatch);
      acts := acts + [Dispatch];
    } else {
      acts := AcceptsAll(c, k - 1);
      var s := Sent(c.samples).(r := Receiver(k - 1, k - 1, 0, k - 1, Range(k - 1), false, Taking, Polling, Alive, None));
      acts := AcceptsOne(c, acts, s, Receiver(k, k, 0, k, Range(k), k == c.samples, Taking, Polling, Alive, None));
    }
  }

  /** It can: once the last sample is in, the main thread may close the reader before
      the listener's next take, and the program then ends with FAIL although it has
      received everything in order. */
  lemma TakeCanFail(c: Config)
    requires !c.stops && c.samples > 0
    ensures exists acts :: Run(c, acts).Some? && Run(c, acts).value.r.exit == Some(TakeRefused)
                           && Run(c, acts).value.r.accepted == Range(c.samples)
  {
    var acts := AcceptsAll(c, c.samples);
    Then(c, acts, Proceed);
    var a1 := acts + [Proceed];
    Then(c, a1, Proceed);
    var a2 := a1 + [Proceed];
    Then(c, a2, Proceed);
    var a3 := a2 + [Proceed];
    Then(c, a3, Listen);
    assert Run(c, a3 + [Listen]).value.r.exit == Some(TakeRefused);
  }

  /** Both programs have ended with success, everything accepted and given back. */
  predicate Success(c: Config, s: State) {
    && s.r.main.SubDone? && s.r.exit.None? && s.r.accepted == Range(c.samples) && s.r.loans == 0 && s.r.reader.Deleted?
    && s.w.at.PubDone? && s.w.sent == Range(c.samples) && s.w.loans == 0
  }

  /** The subscriber's main thread deletes the reader once the listener has left. */
  lemma Deletes(c: Config, acts: seq<Action>) returns (more: seq<Action>)
    requires c.samples > 0 && Run(c, acts) == Some(Sent(c.samples).(
               r := Receiver(c.samples, c.samples, 0, c.samples, Range(c.samples), true, Taking, Polling, Alive, None)))
    ensures Run(c, more) == Some(Sent(c.samples).(
              r := Receiver(c.samples, c.samples, 0, c.samples, Range(c.samples), true, Outside, SubDone, Deleted, None)))
  {
    var n := c.samples;
    var s := Sent(n).(r := Receiver(n, n, 0, n, Range(n), true, Taking, Polling, Alive, None));
    var r1 := s.r.(listener := Outside);
    more := Receives(c, acts, s, Listen, r1);
    var r2 := r1.(main := Removing);
    more := Receives(c, more, s.(r := r1), Proceed, r2);
    var r3 := r2.(main := Closing, reader := Removed);
    more := Receives(c, more, s.(r := r2), Proceed, r3);
    var r4 := r3.(main := Joining, reader := Closed);
    more := Receives(c, more, s.(r := r3), Proceed, r4);
    more := Receives(c, more, s.(r := r4), Proceed, r4.(main := SubDone, reader := Deleted));
  }

  /** The match ends and both callbacks run. */
  lemma Unmatches(c: Config, acts: seq<Action>, s: State) returns (more: seq<Action>)
    requires Run(c, acts) == Some(s) && s.r.reader.Deleted? && s.m == Matching(Matched, true, 0, false, [1], None)
    ensures Run(c, more) == Some(s.(m := Matching(Over, true, 0, true, [], None)))
  {
    var s1 := s.(m := Matching(Over, true, 0, false, [1, 0], None));
    assert [1] + [0] == [1, 0];
    more := Steps(c, acts, s, EndMatch, s1);
    more := CallsBack(c, more, s1, 1, [0]);
    more := CallsBack(c, more, s.(m := Matching(Over, true, 1, true, [0], None)), 0, []);
  }

  lemma CallsBack(c: Config, acts: seq<Action>, s: State, n: nat, rest: seq<nat>) returns (more: seq<Action>)
    requires Run(c, acts) == Some(s) && s.m.callback.None? && s.m.events == [n] + rest
    ensures Run(c, more) == Some(s.(m := s.m.(count := n, ever := s.m.ever || n > 0, events := rest)))
  {
    var m1 := FirstStore(c, s.m, n).(callback := Some(n), events := rest);
    assert s.m.events[1..] == rest;
    more := Steps(c, acts, s, Callback, s.(m := m1));
    more := Steps(c, more, s.(m := m1), Callback, s.(m := SecondStore(c, m1, n).(callback := None)));
  }

  lemma Steps(c: Config, acts: seq<Action>, s: State, a: Action, s': State) returns (more: seq<Action>)
    requires Run(c, acts) == Some(s) && Step(c, s, a) == Some(s')
    ensures Run(c, more) == Some(s')
  {
    Then(c, acts, a);
    more := acts + [a];
  }

  /** The publisher sends the cancelled sample's loan back, sees the match end and stops. */
  lemma Finishes(c: Config, acts: seq<Action>, s: State) returns (more: seq<Action>)
    requires Run(c, acts) == Some(s) && s.w == Sent(c.samples).w && s.m.ever && s.m.count == 0
    ensures Run(c, more) == Some(s.(w := Writer(PubDone, 0, Range(c.samples))))
  {
    var w := s.w;
    more := Steps(c, acts, s, Publish, s.(w := w.(at := Filling(c.samples), loans := 1)));
    more := Steps(c, more, s.(w := w.(at := Filling(c.samples), loans := 1)), Publish, s.(w := w.(at := Draining)));
    more := Steps(c, more, s.(w := w.(at := Draining)), Publish, s.(w := w.(at := Counting)));
    more := Steps(c, more, s.(w := w.(at := Counting)), Publish, s.(w := w.(at := Deleting)));
    more := Steps(c, more, s.(w := w.(at := Deleting)), Publish, s.(w := w.(at := PubDone)));
  }

  /** In every configuration with something to send, both programs can succeed. */
  lemma BothSucceed(c: Config)
    requires c.samples > 0
    ensures exists acts :: Run(c, acts).Some? && Success(c, Run(c, acts).value)
  {
    var n := c.samples;
    var acts := AcceptsAll(c, n);
    acts := Deletes(c, acts);
    var s := Sent(n).(r := Receiver(n, n, 0, n, Range(n), true, Outside, SubDone, Deleted, None));
    acts := Unmatches(c, acts, s);
    var s1 := s.(m := Matching(Over, true, 0, true, [], None));
    acts := Finishes(c, acts, s1);
    assert Success(c, Run(c, acts).value);
  }

  /** One of the two programs has ended with FAIL. */
  predicate EndsInFail(s: State) {
    s.r.exit.Some? || s.w.at.PubFailed?
  }

  /** No run ends with FAIL exactly when the listener takes no more after the sample that
      completes the count, or there is nothing to send. */
  lemma NeverFailsIffStops(c: Config)
    ensures c.stops || c.samples == 0 <==> forall acts :: Run(c, acts).Some? ==> !EndsInFail(Run(c, acts).value)
  {
    if c.stops || c.samples == 0 {
      forall acts | Run(c, acts).Some? ensures !EndsInFail(Run(c, acts).value) { RunKeepsData(c, acts); }
    } else {
      TakeCanFail(c);
      var acts :| Run(c, acts).Some? && Run(c, acts).value.r.exit == Some(TakeRefused);
      assert EndsInFail(Run(c, acts).value);
    }
  }
}
