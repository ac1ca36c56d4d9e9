/** The shape publisher's nested write loops with automatic sizes, the colours that name
    its instances, and the subscriber's content checks on what was written. */
module ShapeWriter {
  import opened Base

  const WIDTH := 320
  const HEIGHT := 240
  const INT_MAX := 0x7fff_ffff

  /** `perSet` writes per instance and window in coherent mode; `size` 0 means automatic
      sizes, cycling 1..modulo when modulo is positive. */
  datatype Options = Options(topics: nat, instances: nat, perSet: nat, coherent: bool, size: int, modulo: int)

  datatype Sample = Sample(topic: nat, instance: nat, color: string, x: int, y: int, size: int)

  // ---- Java's arithmetic ----------------------------------------------------------

  /** The value of an int after narrowing or overflow. */
  function ToInt(n: int): (r: int)
    ensures -INT_MAX - 1 <= r <= INT_MAX
    ensures -INT_MAX - 1 <= n <= INT_MAX ==> r == n
  {
    var m := n % 0x1_0000_0000;
    if m > INT_MAX then m - 0x1_0000_0000 else m
  }

  function Divide(a: int, b: int): int
    requires b > 0
  {
    if a >= 0 then a / b else -((-a) / b)
  }

  datatype Duration = Duration(sec: int, nanosec: int)

  /** durationFromMs. */
  function DurationFromMs(ms: int): Duration {
    Duration(ToInt(Divide(ms, 1000)), ToInt((ms - 1000 * Divide(ms, 1000)) * 1_000_000))
  }

  /** A well-formed duration of the same length comes back exactly for milliseconds
      whose seconds fit an int; a longer one is cut short. */
  lemma DurationIsExact(ms: int)
    requires 0 <= ms
    ensures var d := DurationFromMs(ms);
            && 0 <= d.nanosec < 1_000_000_000 && d.nanosec % 1_000_000 == 0
            && (d.sec * 1000 + d.nanosec / 1_000_000 == ms <==> ms / 1000 <= INT_MAX)
  {
    var sec, rest := ms / 1000, ms % 1000;
    assert ms - 1000 * Divide(ms, 1000) == rest;
    assert ToInt(rest * 1_000_000) == rest * 1_000_000;
    assert (rest * 1_000_000) / 1_000_000 == rest;
  }

  // ---- Colours ------------------------------------------------------------------------

  function Digit(d: nat): (c: char)
    requires d < 10
  {
    '0' + d as char
  }

  /** Decimal digits of a positive number. */
  function Decimal(n: nat): string
    requires n > 0
  {
    if n < 10 then [Digit(n)] else Decimal(n / 10) + [Digit(n % 10)]
  }

  function Parse(s: string): int {
    if s == [] then 0 else 10 * Parse(s[..|s| - 1]) + (s[|s| - 1] as int - '0' as int)
  }

  lemma {:induction false} ParseDecimal(n: nat)
    requires n > 0
    ensures Decimal(n) != [] && Parse(Decimal(n)) == n
  {
    if n >= 10 {
      ParseDecimal(n / 10);
      assert Decimal(n)[..|Decimal(n)| - 1] == Decimal(n / 10);
    } else {
      assert Decimal(n)[..0] == [];
    }
  }

  /** instanceColor: the base for instance 0, the base and the number for the others. */
  function InstanceColor(base: string, inst: nat): string {
    if inst == 0 then base else base + Decimal(inst)
  }

  lemma {:induction false} DecimalDigits(n: nat)
    requires n > 0
    ensures Decimal(n) != [] && Decimal(n)[0] != '0'
    ensures forall i :: 0 <= i < |Decimal(n)| ==> '0' <= Decimal(n)[i] <= '9'
  {
    if n >= 10 { DecimalDigits(n / 10); }
  }

  /** `digits` is how `n` is written in decimal, without leading zeros. */
  predicate Writes(digits: string, n: nat) {
    && digits != [] && digits[0] != '0' && (forall i :: 0 <= i < |digits| ==> '0' <= digits[i] <= '9')
    && Parse(digits) == n
  }

  /** Instance 0 has the base colour itself, every other one the base and its number. */
  lemma ColorIs(base: string, inst: nat)
    ensures InstanceColor(base, 0) == base
    ensures inst > 0 ==> base <= InstanceColor(base, inst) && Writes(InstanceColor(base, inst)[|base|..], inst)
  {
    if inst > 0 {
      ParseDecimal(inst);
      DecimalDigits(inst);
      assert InstanceColor(base, inst)[|base|..] == Decimal(inst);
    }
  }

  /** Two instances never share a key. */
  lemma ColorsDiffer(base: string, i: nat, j: nat)
    ensures InstanceColor(base, i) == InstanceColor(base, j) <==> i == j
  {
    if InstanceColor(base, i) == InstanceColor(base, j) {
      if i > 0 { ParseDecimal(i); }
      if j > 0 { ParseDecimal(j); }
      assert InstanceColor(base, i)[|base|..] == InstanceColor(base, j)[|base|..];
      assert InstanceColor(base, i)[|base|..] == if i == 0 then [] else Decimal(i);
      assert InstanceColor(base, j)[|base|..] == if j == 0 then [] else Decimal(j);
    }
  }

  // ---- Sizes ------------------------------------------------------------------------------

  /** What the loop does to the size after a write, or after a plain iteration. */
  function Bump(o: Options, size: int): int {
    if o.size != 0 then size
    else
      var next := ToInt(size + 1);
      if o.modulo > 0 && next > o.modulo then 1 else next
  }

  function SizeAfter(o: Options, k: nat): int {
    if k == 0 then (if o.size == 0 then 1 else o.size) else Bump(o, SizeAfter(o, k - 1))
  }

  /** With a modulo an int can count past, the sizes cycle through 1..modulo. */
  lemma {:induction false} SizesCycle(o: Options, k: nat)
    requires o.size == 0 && 1 <= o.modulo < INT_MAX
    ensures SizeAfter(o, k) == k % o.modulo + 1
  {
    if k > 0 {
      SizesCycle(o, k - 1);
      NextMod(k - 1, o.modulo);
    } else {
      assert 0 % o.modulo == 0;
    }
  }

  lemma NextMod(k: nat, m: nat)
    requires m > 0
    ensures (k + 1) % m == if k % m == m - 1 then 0 else k % m + 1
  {
    var q, r := k / m, k % m;
    assert k == q * m + r;
    if r == m - 1 {
      assert k + 1 == (q + 1) * m;
      ModOf(q + 1, 0, m);
    } else {
      ModOf(q, r + 1, m);
    }
  }

  lemma ModOf(q: nat, r: nat, m: nat)
    requires r < m
    ensures (q * m + r) % m == r && (q * m + r) / m == q
  {
    var n := q * m + r;
    var q', r' := n / m, n % m;
    assert n == q' * m + r';
    if q > q' {
      Apart(q, q', m);
    } else if q < q' {
      Apart(q', q, m);
    }
  }

  lemma Apart(a: nat, b: nat, m: nat)
    requires a > b
    ensures a * m >= b * m + m
  {
    assert a * m == (a - b) * m + b * m;
    Monotone(1, a - b, m);
  }

  /** With the largest int as modulo, or with none, sizes run up to it and overflow. */
  lemma {:induction false} SizesClimb(o: Options, k: nat)
    requires o.size == 0 && (o.modulo <= 0 || o.modulo == INT_MAX) && k < INT_MAX
    ensures SizeAfter(o, k) == k + 1
  {
    if k > 0 { SizesClimb(o, k - 1); }
  }

  /** Automatic sizes always stay positive exactly for these modulos. */
  lemma SizesPositiveIff(o: Options)
    requires o.size == 0 && o.modulo <= INT_MAX
    ensures (forall k: nat :: SizeAfter(o, k) >= 1) <==> 1 <= o.modulo < INT_MAX
  {
    if 1 <= o.modulo < INT_MAX {
      forall k: nat ensures SizeAfter(o, k) >= 1 { SizesCycle(o, k); }
    } else {
      SizesClimb(o, INT_MAX - 1);
      assert SizeAfter(o, INT_MAX) == ToInt(INT_MAX + 1);
      assert SizeAfter(o, INT_MAX) < 1;
    }
  }

  // ---- The write loops -----------------------------------------------------------------

  function Over(a: nat, b: nat): nat
    requires b > 0
  {
    a / b
  }

  /** Which topic and instance the k-th write is for, and how often the size was bumped. */
  function TopicOf(o: Options, k: nat): nat
    requires PerTopic(o) > 0 && o.topics > 0
  {
    Over(k, PerTopic(o)) % o.topics
  }

  function InstanceOf(o: Options, k: nat): nat
    requires Repeats(o) > 0 && o.instances > 0
  {
    Over(k, Repeats(o)) % o.instances
  }

  function BumpsBefore(o: Options, k: nat): nat
    requires PerTopic(o) > 0 && o.topics > 0
  {
    if o.coherent then k else Over(Over(k, PerTopic(o)), o.topics)
  }

  /** Writes per instance; in plain mode one. */
  function Repeats(o: Options): nat {
    if o.coherent then (if o.perSet > 0 then o.perSet else 1) else 1
  }

  function PerTopic(o: Options): nat {
    o.instances * Repeats(o)
  }

  /** The k-th write of a run, counting over all windows, topics, instances and members. */
  ghost predicate Written(o: Options, base: string, k: nat, w: Sample) {
    && o.topics > 0 && PerTopic(o) > 0
    && Repeats(o) > 0 && o.instances > 0
    && w.topic == TopicOf(o, k) && w.instance == InstanceOf(o, k)
    && w.color == InstanceColor(base, w.instance)
    && 0 <= w.x < WIDTH && 0 <= w.y < HEIGHT
    && w.size == SizeAfter(o, BumpsBefore(o, k))
  }

  /** Position `s` of instance `inst` of topic `t` of window `j` is write number k. */
  lemma Position(o: Options, j: nat, t: nat, inst: nat, s: nat)
    requires t < o.topics && inst < o.instances && s < Repeats(o)
    ensures PerTopic(o) > 0
    ensures var k := ((j * o.topics + t) * o.instances + inst) * Repeats(o) + s;
            && k == (j * o.topics + t) * PerTopic(o) + (inst * Repeats(o) + s)
            && TopicOf(o, k) == t && InstanceOf(o, k) == inst && (!o.coherent ==> BumpsBefore(o, k) == j)
  {
    Place3(o.topics, o.instances, Repeats(o), j, t, inst, s);
  }

  /** The same about plain numbers: `n` instances of `r` members, `m` topics. */
  lemma Place3(m: nat, n: nat, r: nat, j: nat, t: nat, inst: nat, s: nat)
    requires t < m && inst < n && s < r
    ensures n * r > 0
    ensures var k := ((j * m + t) * n + inst) * r + s;
            && k == (j * m + t) * (n * r) + (inst * r + s)
            && Over(k, n * r) % m == t && Over(k, r) % n == inst && Over(Over(k, n * r), m) == j
  {
    var a := j * m + t;
    ModOf(a * n + inst, s, r);
    ModOf(a, inst, n);
    Within(inst, n, s, r);
    Distribute(a, n, inst, r);
    ModOf(a, inst * r + s, n * r);
    ModOf(j, t, m);
  }

  lemma Within(i: nat, n: nat, s: nat, r: nat)
    requires i < n && s < r
    ensures i * r + s < n * r
  {
    Apart(n, i, r);
  }

  lemma Monotone(a: nat, b: nat, c: nat)
    requires a <= b
    ensures a * c <= b * c
  {
  }

  lemma Distribute(a: nat, n: nat, i: nat, r: nat)
    ensures (a * n + i) * r == a * (n * r) + i * r
  {
  }

  /** One position in `WIDTH` x `HEIGHT`, whatever the random source gave. */
  function Place(n: nat, bound: nat): int
    requires bound > 0
  {
    n % bound
  }

  class Publisher {
    const o: Options
    const base: string
    var color: string
    var x: int
    var y: int
    var size: int
    var log: seq<Sample>

    constructor (o: Options, base: string)
      ensures this.o == o && this.base == base && log == [] && size == SizeAfter(o, 0)
      ensures x == 0 && y == 0
    {
      this.o, this.base := o, base;
      color, x, y, size, log := base, 0, 0, if o.size == 0 then 1 else o.size, [];
    }

    /** So far `j` windows, `t` topics, `inst` instances and `s` members are done. */
    ghost predicate At(j: nat, t: nat, inst: nat, s: nat)
      reads this
    {
      && |log| == ((j * o.topics + t) * o.instances + inst) * Repeats(o) + s
      && (forall k :: 0 <= k < |log| ==> Written(o, base, k, log[k]))
      && size == SizeAfter(o, if o.coherent then |log| else j)
    }

    /** write(); `accepted` says whether the writer takes write number k. */
    method Write(topic: nat, inst: nat, accepted: nat -> bool) returns (ok: bool)
      modifies this
      ensures color == old(color) && x == old(x) && y == old(y) && size == old(size)
      ensures ok == accepted(|old(log)|)
      ensures log == old(log) + if ok then [Sample(topic, inst, color, x, y, size)] else []
    {
      ok := accepted(|log|);
      if ok {
        log := log + [Sample(topic, inst, color, x, y, size)];
      }
    }

    /** One member of a set, and the size for the next. */
    method WriteOne(j: nat, t: nat, inst: nat, s: nat, accepted: nat -> bool) returns (ok: bool)
      requires o.coherent && t < o.topics && inst < o.instances && s < Repeats(o) && At(j, t, inst, s)
      requires color == InstanceColor(base, inst) && 0 <= x < WIDTH && 0 <= y < HEIGHT
      modifies this
      ensures ok ==> At(j, t, inst, s + 1) && color == InstanceColor(base, inst)
      ensures forall k :: 0 <= k < |log| ==> Written(o, base, k, log[k])
      ensures !ok ==> !accepted(|log|)
    {
      Position(o, j, t, inst, s);
      ok := Write(t, inst, accepted);
      if ok {
        size := Bump(o, size);
      }
    }

    /** All members of one instance's set. */
    method WriteSet(j: nat, t: nat, inst: nat, random: nat -> nat, accepted: nat -> bool) returns (ok: bool)
      requires o.coherent && t < o.topics && inst < o.instances && At(j, t, inst, 0)
      modifies this
      ensures ok ==> At(j, t, inst + 1, 0)
      ensures forall k :: 0 <= k < |log| ==> Written(o, base, k, log[k])
      ensures !ok ==> !accepted(|log|)
    {
      color := InstanceColor(base, inst);
      for s := 0 to Repeats(o)
        invariant At(j, t, inst, s) && color == InstanceColor(base, inst)
      {
        x, y := Place(random(2 * |log|), WIDTH), Place(random(2 * |log| + 1), HEIGHT);
        ok := WriteOne(j, t, inst, s, accepted);
        if !ok {
          return;
        }
      }
      NextInstance(j * o.topics + t, o.instances, inst, Repeats(o));
      ok := true;
    }

    /** One coherent window over all topics and instances. */
    method Window(j: nat, random: nat -> nat, accepted: nat -> bool) returns (ok: bool)
      requires o.coherent && At(j, 0, 0, 0)
      modifies this
      ensures ok ==> At(j + 1, 0, 0, 0)
      ensures forall k :: 0 <= k < |log| ==> Written(o, base, k, log[k])
      ensures !ok ==> !accepted(|log|)
    {
      for t := 0 to o.topics
        invariant At(j, t, 0, 0)
      {
        for inst := 0 to o.instances
          invariant At(j, t, inst, 0)
        {
          ok := WriteSet(j, t, inst, random, accepted);
          if !ok {
            return;
          }
        }
        NextTopic(j * o.topics + t, o.instances, Repeats(o));
      }
      NextWindow(j, o.topics);
      ok := true;
    }

    /** One instance, at the place and size of this iteration. */
    method WriteInstance(j: nat, t: nat, inst: nat, accepted: nat -> bool) returns (ok: bool)
      requires !o.coherent && t < o.topics && inst < o.instances && At(j, t, inst, 0)
      requires 0 <= x < WIDTH && 0 <= y < HEIGHT
      modifies this
      ensures x == old(x) && y == old(y)
      ensures ok ==> At(j, t, inst + 1, 0)
      ensures forall k :: 0 <= k < |log| ==> Written(o, base, k, log[k])
      ensures !ok ==> !accepted(|log|)
    {
      color := InstanceColor(base, inst);
      Position(o, j, t, inst, 0);
      ok := Write(t, inst, accepted);
      NextInstance(j * o.topics + t, o.instances, inst, 1);
    }

    /** All instances of one topic, at the place and size of this iteration. */
    method WriteTopic(j: nat, t: nat, accepted: nat -> bool) returns (ok: bool)
      requires !o.coherent && t < o.topics && At(j, t, 0, 0) && 0 <= x < WIDTH && 0 <= y < HEIGHT
      modifies this
      ensures ok ==> At(j, t + 1, 0, 0) && 0 <= x < WIDTH && 0 <= y < HEIGHT
      ensures forall k :: 0 <= k < |log| ==> Written(o, base, k, log[k])
      ensures !ok ==> !accepted(|log|)
    {
      for inst := 0 to o.instances
        invariant At(j, t, inst, 0) && 0 <= x < WIDTH && 0 <= y < HEIGHT
      {
        ok := WriteInstance(j, t, inst, accepted);
        if !ok {
          return;
        }
      }
      NextTopic(j * o.topics + t, o.instances, 1);
      ok := true;
    }

    /** One plain iteration: every topic and instance at one place and size. */
    method Iteration(j: nat, random: nat -> nat, accepted: nat -> bool) returns (ok: bool)
      requires !o.coherent && At(j, 0, 0, 0)
      modifies this
      ensures ok ==> At(j + 1, 0, 0, 0)
      ensures forall k :: 0 <= k < |log| ==> Written(o, base, k, log[k])
      ensures !ok ==> !accepted(|log|)
    {
      x, y := Place(random(2 * j), WIDTH), Place(random(2 * j + 1), HEIGHT);
      for t := 0 to o.topics
        invariant At(j, t, 0, 0) && 0 <= x < WIDTH && 0 <= y < HEIGHT
      {
        ok := WriteTopic(j, t, accepted);
        if !ok {
          return;
        }
      }
      NextWindow(j, o.topics);
      size := Bump(o, size);
      ok := true;
    }

    /** The write loop, ended after `windows` of its iterations or by a refused write. */
    method WriteLoop(windows: nat, random: nat -> nat, accepted: nat -> bool) returns (rc: int)
      requires log == [] && size == SizeAfter(o, 0)
      modifies this
      ensures rc == 0 || rc == 1
      ensures rc == 0 ==> |log| == windows * o.topics * o.instances * Repeats(o)
      ensures rc == 1 ==> !accepted(|log|)
      ensures forall k :: 0 <= k < |log| ==> Written(o, base, k, log[k])
    {
      for j := 0 to windows
        invariant At(j, 0, 0, 0)
      {
        var ok;
        if o.coherent {
          ok := Window(j, random, accepted);
        } else {
          ok := Iteration(j, random, accepted);
        }
        if !ok {
          return 1;
        }
      }
      rc := 0;
    }
  }

  lemma NextInstance(a: nat, n: nat, inst: nat, r: nat)
    ensures (a * n + inst) * r + r == (a * n + (inst + 1)) * r
  {
  }

  lemma NextTopic(a: nat, n: nat, r: nat)
    ensures (a * n + n) * r == ((a + 1) * n) * r
  {
  }

  lemma NextWindow(j: nat, n: nat)
    ensures j * n + n == (j + 1) * n
  {
  }

  // ---- What the sizes come to --------------------------------------------------------------

  /** With automatic size and a modulo an int can count past, the k-th write has size
      k mod m + 1 in coherent mode, and every write of iteration j has j mod m + 1 in
      plain mode. */
  lemma WrittenSizes(o: Options, base: string, k: nat, w: Sample)
    requires o.size == 0 && 1 <= o.modulo < INT_MAX && Written(o, base, k, w)
    ensures o.coherent ==> w.size == k % o.modulo + 1
    ensures !o.coherent ==> w.size == (k / (o.instances * o.topics)) % o.modulo + 1
  {
    SizesCycle(o, BumpsBefore(o, k));
    if !o.coherent { DivDiv(k, o.instances, o.topics); }
  }

  lemma {:induction false} SizeStays(o: Options, k: nat)
    requires o.size != 0
    ensures SizeAfter(o, k) == o.size
  {
    if k > 0 { SizeStays(o, k - 1); }
  }

  /** A size that was asked for is the size of every write, in both modes. */
  lemma FixedSizes(o: Options, base: string, k: nat, w: Sample)
    requires o.size != 0 && Written(o, base, k, w)
    ensures w.size == o.size
  {
    SizeStays(o, BumpsBefore(o, k));
  }

  /** Without a modulo an int can count past, sizes count up from 1 until the largest. */
  lemma ClimbingSizes(o: Options, base: string, k: nat, w: Sample)
    requires o.size == 0 && (o.modulo <= 0 || o.modulo == INT_MAX) && Written(o, base, k, w)
    requires BumpsBefore(o, k) < INT_MAX
    ensures o.coherent ==> w.size == k + 1
    ensures !o.coherent ==> w.size == k / (o.instances * o.topics) + 1
  {
    SizesClimb(o, BumpsBefore(o, k));
    if !o.coherent { DivDiv(k, o.instances, o.topics); }
  }

  /** Member `s` of instance `inst` of topic `t` of window `j` is written as such: every
      instance of every topic is written in every window. */
  lemma WrittenPlace(o: Options, base: string, j: nat, t: nat, inst: nat, s: nat, k: nat, w: Sample)
    requires t < o.topics && inst < o.instances && s < Repeats(o)
    requires k == ((j * o.topics + t) * o.instances + inst) * Repeats(o) + s && Written(o, base, k, w)
    ensures w.topic == t && w.instance == inst && (inst == 0 ==> w.color == base)
    ensures inst > 0 ==> base <= w.color && Writes(w.color[|base|..], inst)
  {
    Position(o, j, t, inst, s);
    ColorIs(base, inst);
  }

  lemma Quotient(k: nat, a: nat) returns (q: nat, r: nat)
    requires a > 0
    ensures k == q * a + r && r < a && q == k / a
  {
    q, r := k / a, k % a;
  }

  lemma DivDiv(k: nat, a: nat, b: nat)
    requires a > 0 && b > 0
    ensures a * b > 0 && k / a / b == k / (a * b)
  {
    var q, r := Quotient(k, a);
    var q', r' := Quotient(q, b);
    Within(r', b, r, a);
    Regroup(q', r', r, a, b);
    ModOf(q', r' * a + r, b * a);
  }

  lemma Regroup(q: nat, i: nat, r: nat, a: nat, b: nat)
    ensures (q * b + i) * a + r == q * (b * a) + (i * a + r) && a * b == b * a
  {
    Distribute(q, b, i, a);
  }

  // ---- The subscriber's checks -----------------------------------------------------------------

  datatype Checked = Passed(cache: map<int, string>) | KeyChanged | OutOfBounds

  /** processSample for a sample with data; the cache is shared by all topics. */
  function Process(cache: map<int, string>, handle: int, w: Sample): Checked {
    if handle in cache && cache[handle] != w.color then KeyChanged
    else if w.x < 0 || w.x >= WIDTH || w.y < 0 || w.y >= HEIGHT || w.size < 1 then OutOfBounds
    else Passed(cache[handle := w.color])
  }

  function ProcessAll(handles: string -> int, ws: seq<Sample>): Checked {
    if ws == [] then Passed(map[])
    else
      var before := ProcessAll(handles, ws[..|ws| - 1]);
      if before.Passed? then Process(before.cache, handles(ws[|ws| - 1].color), ws[|ws| - 1]) else before
  }

  predicate InBounds(w: Sample) {
    0 <= w.x < 320 && 0 <= w.y < 240 && w.size >= 1
  }

  predicate KeyKept(handles: string -> int, v: Sample, w: Sample) {
    handles(v.color) == handles(w.color) ==> v.color == w.color
  }

  predicate Sane(handles: string -> int, ws: seq<Sample>) {
    && (forall i :: 0 <= i < |ws| ==> InBounds(ws[i]))
    && (forall i, j :: 0 <= i < j < |ws| ==> KeyKept(handles, ws[i], ws[j]))
  }

  /** The cache has the colour of each sample so far under its handle, and nothing else. */
  ghost predicate CacheOf(handles: string -> int, ws: seq<Sample>, cache: map<int, string>) {
    && (forall i :: 0 <= i < |ws| ==> handles(ws[i].color) in cache && cache[handles(ws[i].color)] == ws[i].color)
    && (forall h :: h in cache ==> exists i :: 0 <= i < |ws| && handles(ws[i].color) == h)
  }

  /** Any samples at all pass the checks exactly when every one is in bounds and no two
      of one handle differ in colour; the cache is then theirs. */
  lemma {:induction false} PassesIffSane(handles: string -> int, ws: seq<Sample>)
    ensures ProcessAll(handles, ws).Passed? <==> Sane(handles, ws)
    ensures ProcessAll(handles, ws).Passed? ==> CacheOf(handles, ws, ProcessAll(handles, ws).cache)
  {
    if ws != [] {
      var n := |ws| - 1;
      var before := ProcessAll(handles, ws[..n]);
      PassesIffSane(handles, ws[..n]);
      SaneSnoc(handles, ws);
      if before.Passed? { PassesOneMore(handles, ws, before.cache); }
    }
  }

  lemma SaneSnoc(handles: string -> int, ws: seq<Sample>)
    requires ws != []
    ensures var n := |ws| - 1;
            Sane(handles, ws) <==> Sane(handles, ws[..n]) && InBounds(ws[n]) && forall i :: 0 <= i < n ==> KeyKept(handles, ws[i], ws[n])
  {
  }

  lemma PassesOneMore(handles: string -> int, ws: seq<Sample>, cache: map<int, string>)
    requires ws != [] && CacheOf(handles, ws[..|ws| - 1], cache)
    ensures var n := |ws| - 1; var next := Process(cache, handles(ws[n].color), ws[n]);
            && (next.Passed? <==> InBounds(ws[n]) && forall i :: 0 <= i < n ==> KeyKept(handles, ws[i], ws[n]))
            && (next.Passed? ==> CacheOf(handles, ws, next.cache))
  {
    var n := |ws| - 1;
    var rest, w, h := ws[..n], ws[n], handles(ws[n].color);
    assert forall i :: 0 <= i < n ==> rest[i] == ws[i];
    if h in cache {
      var i :| 0 <= i < |rest| && handles(rest[i].color) == h;
      assert cache[h] == ws[i].color;
      assert KeyKept(handles, ws[i], w) <==> cache[h] == w.color;
    }
    var next := Process(cache, h, w);
    if next.Passed? { CacheGrows(handles, ws, cache); }
  }

  lemma CacheGrows(handles: string -> int, ws: seq<Sample>, cache: map<int, string>)
    requires ws != [] && CacheOf(handles, ws[..|ws| - 1], cache)
    requires var w := ws[|ws| - 1]; handles(w.color) in cache ==> cache[handles(w.color)] == w.color
    ensures var w := ws[|ws| - 1]; CacheOf(handles, ws, cache[handles(w.color) := w.color])
  {
    var n := |ws| - 1;
    var rest, h := ws[..n], handles(ws[n].color);
    var cache' := cache[h := ws[n].color];
    forall g | g in cache' ensures exists i :: 0 <= i < |ws| && handles(ws[i].color) == g {
      if g == h {
        assert handles(ws[n].color) == g;
      } else {
        var i :| 0 <= i < |rest| && handles(rest[i].color) == g;
        assert handles(ws[i].color) == g;
      }
    }
    assert forall i :: 0 <= i < n ==> rest[i] == ws[i];
  }

  ghost predicate Injective(handles: string -> int) {
    forall a, b :: handles(a) == handles(b) ==> a == b
  }

  ghost predicate OfRun(o: Options, base: string, w: Sample) {
    exists k: nat :: Written(o, base, k, w)
  }

  /** Samples of a run, in any selection and order, on any topic, pass every check when
      handles are an injective function of the key. */
  lemma {:induction false} EveryWrittenSamplePasses(o: Options, base: string, handles: string -> int, ws: seq<Sample>)
    requires (o.size == 0 && 1 <= o.modulo < INT_MAX) || o.size >= 1
    requires Injective(handles)
    requires forall i :: 0 <= i < |ws| ==> OfRun(o, base, ws[i])
    ensures ProcessAll(handles, ws).Passed?
    ensures forall h :: h in ProcessAll(handles, ws).cache ==> h == handles(ProcessAll(handles, ws).cache[h])
  {
    if ws != [] {
      var before := ws[..|ws| - 1];
      EveryWrittenSamplePasses(o, base, handles, before);
      var w := ws[|ws| - 1];
      assert OfRun(o, base, w);
      var k: nat :| Written(o, base, k, w);
      if o.size == 0 { SizesCycle(o, BumpsBefore(o, k)); } else { SizeStays(o, BumpsBefore(o, k)); }
    }
  }

  /** With no modulo, or with the largest int, the subscriber rejects what is written
      after 2^31-1 bumps: one write in coherent mode, an iteration of them in plain mode. */
  lemma OverflowIsRejected(o: Options, base: string, k: nat, w: Sample, handle: int)
    requires o.size == 0 && (o.modulo <= 0 || o.modulo == INT_MAX) && Written(o, base, k, w)
    requires BumpsBefore(o, k) == INT_MAX
    ensures Process(map[], handle, w) == OutOfBounds
  {
    SizesClimb(o, INT_MAX - 1);
    assert SizeAfter(o, INT_MAX) == Bump(o, SizeAfter(o, INT_MAX - 1));
  }
}
