/** Strings pinned while the core evaluates a content filter over a Java sample: each
    field callback may pin one, and the match call releases them when it is over. */
module FilterPins {
  import opened Base

  type Pin = nat

  /** What the application's field accessor did: returned null, a Long, a String, or
      raised an exception. */
  datatype Answer = Null | Raised | LongValue(i: int) | StringValue(text: string)

  datatype Callback = Callback(field: string, answer: Answer)

  /** What the evaluator is given: a number, or a pointer to pinned characters. */
  datatype FilterValue = Number(i: int) | Chars(pin: Pin, len: nat)

  /** The field name must fit a 64-byte buffer with its terminator. */
  const NAME_BUFFER := 64

  datatype State = State(
    kept: seq<Pin>,
    pinned: map<Pin, string>,
    next: Pin,
    released: multiset<Pin>,
    pending: bool)

  /** How the core was entered; only a proper call reaches the evaluator. */
  datatype Entry = NoFilter | WrongClass | NoAccessor | NoGetter | Proper

  /** One field callback. */
  function Get(limit: nat, s: State, c: Callback): (State, Option<FilterValue>) {
    if |c.field| >= NAME_BUFFER then (s, None)
    else
      var s' := s.(pending := s.pending || c.answer.Raised?);
      if c.answer.Null? || s'.pending then (s', None)
      else if c.answer.LongValue? then (s', Some(Number(c.answer.i)))
      else if |s.kept| >= limit then (s', None)
      else (Pinned(s, c.answer.text), Some(Chars(s.next, |c.answer.text|)))
  }

  function Pinned(s: State, text: string): State {
    s.(kept := s.kept + [s.next], pinned := s.pinned[s.next := text], next := s.next + 1)
  }

  /** All the callbacks of one evaluation, in order, with what each was answered. */
  function Serve(limit: nat, s: State, cs: seq<Callback>): (State, seq<Option<FilterValue>>) {
    if cs == [] then (s, [])
    else
      var (before, answers) := Serve(limit, s, cs[..|cs| - 1]);
      var (after, answer) := Get(limit, before, cs[|cs| - 1]);
      (after, answers + [answer])
  }

  /** The release loop. */
  function Released(s: State, n: nat): State
    requires n <= |s.kept|
  {
    s.(pinned := map p | p in s.pinned && p !in s.kept[..n] :: s.pinned[p],
       released := s.released + multiset(s.kept[..n]))
  }

  // ---- What holds at every callback ---------------------------------------------

  /** Pins taken since `s0` are exactly the kept ones, each once; earlier pins and
      releases are as they were. */
  ghost predicate Inv(limit: nat, s0: State, s: State) {
    && |s.kept| <= limit && s.next == s0.next + |s.kept| && s.released == s0.released
    && (forall i :: 0 <= i < |s.kept| ==> s.kept[i] == s0.next + i)
    && (forall p :: p in s.pinned <==> p in s0.pinned || s0.next <= p < s.next)
    && (forall p :: p in s0.pinned ==> p < s0.next && s.pinned[p] == s0.pinned[p])
  }

  ghost predicate Fresh(s: State) {
    s.kept == [] && forall p :: p in s.pinned ==> p < s.next
  }

  lemma {:induction false} ServeKeeps(limit: nat, s: State, cs: seq<Callback>)
    requires Fresh(s)
    ensures Inv(limit, s, Serve(limit, s, cs).0) && |Serve(limit, s, cs).1| == |cs|
  {
    if cs != [] {
      ServeKeeps(limit, s, cs[..|cs| - 1]);
    }
  }

  lemma {:induction false} ServePrefix(limit: nat, s: State, cs: seq<Callback>, i: nat)
    requires i <= |cs|
    ensures |Serve(limit, s, cs).1| == |cs|
    ensures Serve(limit, s, cs).1[..i] == Serve(limit, s, cs[..i]).1
  {
    if i < |cs| {
      ServePrefix(limit, s, cs[..|cs| - 1], i);
      assert cs[..|cs| - 1][..i] == cs[..i];
    } else {
      assert cs[..i] == cs;
      if cs != [] { ServePrefix(limit, s, cs[..|cs| - 1], 0); }
    }
  }

  lemma ServeOne(limit: nat, s: State, cs: seq<Callback>, i: nat)
    requires i < |cs|
    ensures |Serve(limit, s, cs).1| == |cs|
    ensures var before := Serve(limit, s, cs[..i]).0;
            && Serve(limit, s, cs).1[i] == Get(limit, before, cs[i]).1
            && Serve(limit, s, cs[..i + 1]).0 == Get(limit, before, cs[i]).0
  {
    ServePrefix(limit, s, cs, i + 1);
    assert cs[..i + 1][..i] == cs[..i];
    ServePrefix(limit, s, cs[..i], i);
    ServePrefix(limit, s, cs[..i + 1], i + 1);
    assert Serve(limit, s, cs).1[..i + 1][i] == Serve(limit, s, cs).1[i];
  }

  /** Nothing handed out loses its characters while the evaluation goes on. */
  lemma {:induction false} PinsLast(limit: nat, s: State, cs: seq<Callback>, i: nat, p: Pin)
    requires Fresh(s) && i <= |cs| && p in Serve(limit, s, cs[..i]).0.pinned
    ensures p in Serve(limit, s, cs).0.pinned
    ensures Serve(limit, s, cs).0.pinned[p] == Serve(limit, s, cs[..i]).0.pinned[p]
  {
    if i == |cs| {
      assert cs[..i] == cs;
    } else {
      var before := cs[..|cs| - 1];
      assert before[..i] == cs[..i];
      PinsLast(limit, s, before, i, p);
      ServeKeeps(limit, s, before);
    }
  }

  /** A string the accessor gave and the callback did not refuse is what the evaluator
      gets: pinned characters that were not pinned before, still pinned with that text
      and length whatever callbacks follow; and it gets characters for nothing else. */
  lemma {:induction false} HandedStaysPinned(limit: nat, s: State, cs: seq<Callback>, i: nat)
    requires Fresh(s) && i < |cs| && |Serve(limit, s, cs).1| == |cs|
    requires Serve(limit, s, cs).1[i].Some?
    requires cs[i].answer.StringValue? || Serve(limit, s, cs).1[i].value.Chars?
    ensures var v, last := Serve(limit, s, cs).1[i].value, Serve(limit, s, cs).0;
            && cs[i].answer.StringValue? && v.Chars? && v.pin in last.pinned && v.pin !in s.pinned
            && last.pinned[v.pin] == cs[i].answer.text && v.len == |cs[i].answer.text|
  {
    ServeOne(limit, s, cs, i);
    ServeKeeps(limit, s, cs[..i]);
    PinsLast(limit, s, cs, i + 1, Serve(limit, s, cs).1[i].value.pin);
  }

  lemma {:induction false} NextGrows(limit: nat, s: State, cs: seq<Callback>, i: nat)
    requires i <= |cs|
    ensures Serve(limit, s, cs[..i]).0.next <= Serve(limit, s, cs).0.next
  {
    if i == |cs| {
      assert cs[..i] == cs;
    } else {
      var before := cs[..|cs| - 1];
      assert before[..i] == cs[..i];
      NextGrows(limit, s, before, i);
    }
  }

  /** Two strings handed out are two pins, even if they are equal. */
  lemma {:induction false} PinsDiffer(limit: nat, s: State, cs: seq<Callback>, i: nat, j: nat)
    requires Fresh(s) && i < j < |cs| && |Serve(limit, s, cs).1| == |cs|
    requires cs[i].answer.StringValue? && Serve(limit, s, cs).1[i].Some?
    requires cs[j].answer.StringValue? && Serve(limit, s, cs).1[j].Some?
    ensures var v, w := Serve(limit, s, cs).1[i].value, Serve(limit, s, cs).1[j].value;
            v.Chars? && w.Chars? && v.pin != w.pin
  {
    ServeOne(limit, s, cs, i);
    ServeOne(limit, s, cs, j);
    assert cs[..j][..i + 1] == cs[..i + 1];
    NextGrows(limit, s, cs[..j], i + 1);
  }

  /** How many strings were handed out so far. */
  function Strings(answers: seq<Option<FilterValue>>): nat {
    if answers == [] then 0
    else
      var last := answers[|answers| - 1];
      Strings(answers[..|answers| - 1]) + if last.Some? && last.value.Chars? then 1 else 0
  }

  lemma {:induction false} KeptAreStrings(limit: nat, s: State, cs: seq<Callback>)
    requires Fresh(s)
    ensures |Serve(limit, s, cs).0.kept| == Strings(Serve(limit, s, cs).1)
  {
    if cs != [] {
      var before := Serve(limit, s, cs[..|cs| - 1]);
      KeptAreStrings(limit, s, cs[..|cs| - 1]);
      assert Serve(limit, s, cs).1[..|before.1|] == before.1;
    }
  }

  /** A callback short enough to reach the accessor raised an exception. */
  predicate Raises(c: Callback) {
    c.answer.Raised? && |c.field| < NAME_BUFFER
  }

  lemma {:induction false} PendingIsRaised(limit: nat, s: State, cs: seq<Callback>)
    ensures Serve(limit, s, cs).0.pending <==> s.pending || exists j :: 0 <= j < |cs| && Raises(cs[j])
  {
    if cs != [] {
      var n := |cs| - 1;
      PendingIsRaised(limit, s, cs[..n]);
      assert forall j :: 0 <= j < n ==> cs[..n][j] == cs[j];
      assert Raises(cs[n]) || !Raises(cs[n]);
    }
  }

  /** A callback gets no value exactly when its name does not fit, its accessor gave
      null, it or an earlier one raised, or it is one string too many. */
  lemma {:induction false} RefusedExactlyWhen(limit: nat, s: State, cs: seq<Callback>, i: nat)
    requires Fresh(s) && !s.pending && i < |cs|
    ensures var answers := Serve(limit, s, cs).1;
            && |answers| == |cs|
            && (answers[i].None? <==>
                  || |cs[i].field| >= NAME_BUFFER || cs[i].answer.Null?
                  || (exists j :: 0 <= j <= i && Raises(cs[j]))
                  || (cs[i].answer.StringValue? && Strings(answers[..i]) == limit))
            && (answers[i].Some? && cs[i].answer.LongValue? ==> answers[i].value == Number(cs[i].answer.i))
  {
    ServeOne(limit, s, cs, i);
    ServePrefix(limit, s, cs, i);
    ServeKeeps(limit, s, cs[..i]);
    KeptAreStrings(limit, s, cs[..i]);
    PendingIsRaised(limit, s, cs[..i]);
    assert forall j :: 0 <= j < i ==> cs[..i][j] == cs[j];
    assert Raises(cs[i]) || !Raises(cs[i]);
  }

  /** However many callbacks the evaluator makes, in whatever order: never more than
      the table's size of strings is pinned, and once the release loop is over each
      string this evaluation pinned was released exactly once and only the pins that
      were there before remain. */
  lemma {:induction false} ReleasedExactlyOnce(limit: nat, s: State, cs: seq<Callback>, p: Pin)
    requires Fresh(s)
    ensures var served := Serve(limit, s, cs).0; var last := Released(served, |served.kept|);
            && |served.kept| <= limit
            && (p in served.pinned <==> p in s.pinned || p in served.kept)
            && last.pinned == s.pinned
            && last.released[p] == s.released[p] + if s.next <= p < served.next then 1 else 0
  {
    ServeKeeps(limit, s, cs);
    var served := Serve(limit, s, cs).0;
    assert served.kept[..|served.kept|] == served.kept;
    assert s.next <= p < served.next ==> served.kept[p - s.next] == p;
    Once(served.kept, s.next, p);
    forall q | s.next <= q < served.next ensures q in served.kept {
      assert served.kept[q - s.next] == q;
    }
  }

  lemma ReleasedNext(s: State, n: nat)
    requires n < |s.kept|
    ensures Released(s, n + 1) == Released(s, n).(
              pinned := Released(s, n).pinned - {s.kept[n]}, released := Released(s, n).released + multiset{s.kept[n]})
  {
    assert s.kept[..n + 1] == s.kept[..n] + [s.kept[n]];
  }

  lemma {:induction false} Once(kept: seq<Pin>, first: Pin, p: Pin)
    requires forall i :: 0 <= i < |kept| ==> kept[i] == first + i
    ensures multiset(kept)[p] == if first <= p < first + |kept| then 1 else 0
  {
    if kept != [] {
      var n := |kept| - 1;
      Once(kept[..n], first, p);
      assert kept == kept[..n] + [kept[n]];
    }
  }

  // ---- The code, on its table and the JVM's pins ----------------------------------

  /** GetStringUTFChars and ReleaseStringUTFChars. */
  class Jvm {
    var pinned: map<Pin, string>
    var next: Pin
    var released: multiset<Pin>
    var pending: bool

    constructor ()
      ensures pinned == map[] && next == 0 && released == multiset{} && !pending
    {
      pinned, next, released, pending := map[], 0, multiset{}, false;
    }

    method Hold(text: string) returns (p: Pin)
      modifies this
      ensures p == old(next) && next == p + 1 && pinned == old(pinned)[p := text]
      ensures released == old(released) && pending == old(pending)
    {
      p := next;
      pinned, next := pinned[p := text], p + 1;
    }

    method LetGo(p: Pin)
      modifies this
      ensures pinned == old(pinned) - {p} && released == old(released) + multiset{p}
      ensures next == old(next) && pending == old(pending)
    {
      pinned, released := pinned - {p}, released + multiset{p};
    }
  }

  class MatchContext {
    const jvm: Jvm
    const kept: array<Pin>
    var keptCount: nat

    constructor (jvm: Jvm, limit: nat)
      ensures this.jvm == jvm && fresh(kept) && kept.Length == limit && keptCount == 0
    {
      this.jvm := jvm;
      kept := new Pin[limit];
      keptCount := 0;
    }

    ghost predicate Valid()
      reads this
    {
      keptCount <= kept.Length
    }

    ghost function Now(): State
      reads this, kept, jvm
      requires Valid()
    {
      State(kept[..keptCount], jvm.pinned, jvm.next, jvm.released, jvm.pending)
    }

    /** zzdds_java_cft_get. */
    method Field(c: Callback) returns (r: Option<FilterValue>)
      requires Valid()
      modifies this, kept, jvm
      ensures Valid() && (Now(), r) == Get(kept.Length, old(Now()), c)
    {
      if |c.field| >= NAME_BUFFER {
        return None;
      }
      jvm.pending := jvm.pending || c.answer.Raised?;
      if c.answer.Null? || jvm.pending {
        return None;
      }
      if c.answer.LongValue? {
        return Some(Number(c.answer.i));
      }
      if keptCount >= kept.Length {
        return None;
      }
      var p := jvm.Hold(c.answer.text);
      kept[keptCount] := p;
      keptCount := keptCount + 1;
      assert kept[..keptCount] == old(kept[..keptCount]) + [p];
      r := Some(Chars(p, |c.answer.text|));
    }

    /** The evaluator's callbacks, then the release loop. */
    method Evaluate(cs: seq<Callback>) returns (answers: seq<Option<FilterValue>>)
      requires Valid() && keptCount == 0 && Fresh(Now())
      modifies this, kept, jvm
      ensures answers == Serve(kept.Length, old(Now()), cs).1
      ensures jvm.pinned == old(jvm.pinned)
      ensures jvm.next == old(jvm.next) + Strings(answers)
      ensures forall p: nat :: jvm.released[p] == old(jvm.released)[p] + if old(jvm.next) <= p < jvm.next then 1 else 0
    {
      ghost var s := Now();
      answers := [];
      for i := 0 to |cs|
        invariant Valid() && (Now(), answers) == Serve(kept.Length, s, cs[..i])
      {
        var r := Field(cs[i]);
        answers := answers + [r];
        assert cs[..i + 1][..i] == cs[..i];
      }
      assert cs[..|cs|] == cs;
      ReleaseKept();
      ServeKeeps(kept.Length, s, cs);
      KeptAreStrings(kept.Length, s, cs);
      forall p: nat ensures jvm.released[p] == s.released[p] + if s.next <= p < jvm.next then 1 else 0 {
        ReleasedExactlyOnce(kept.Length, s, cs, p);
      }
      ReleasedExactlyOnce(kept.Length, s, cs, 0);
    }

    method ReleaseKept()
      requires Valid()
      modifies jvm
      ensures var s := old(Now()); Valid() && Now() == Released(s, |s.kept|)
    {
      ghost var s := Now();
      assert Released(s, 0).pinned == s.pinned;
      for i := 0 to keptCount
        invariant kept[..keptCount] == s.kept && Now() == Released(s, i)
      {
        ReleasedNext(s, i);
        jvm.LetGo(kept[i]);
      }
    }
  }

  /** cftMatchSample: no filter, or nothing to ask the sample with, matches. */
  method MatchSample(jvm: Jvm, entry: Entry, limit: nat, cs: seq<Callback>, verdict: seq<Option<FilterValue>> -> bool)
      returns (matched: bool)
    requires forall p :: p in jvm.pinned ==> p < jvm.next
    modifies jvm
    ensures entry.NoFilter? || entry.NoGetter? ==> matched
    ensures entry.WrongClass? || entry.NoAccessor? ==> !matched
    ensures entry.Proper? ==>
              matched == verdict(Serve(limit, State([], old(jvm.pinned), old(jvm.next), old(jvm.released), old(jvm.pending)), cs).1)
    ensures jvm.pinned == old(jvm.pinned) && jvm.next >= old(jvm.next)
    ensures forall p: nat :: jvm.released[p] == old(jvm.released)[p] + if old(jvm.next) <= p < jvm.next then 1 else 0
  {
    match entry
    case NoFilter => matched := true;
    case WrongClass => matched := false;
    case NoAccessor => matched := false;
    case NoGetter => matched := true;
    case Proper =>
      var ctx := new MatchContext(jvm, limit);
      var answers := ctx.Evaluate(cs);
      matched := verdict(answers);
  }
}
