/** The raw-loan publisher's payload: an encapsulation header and the serialized value,
    written into a buffer that doubles until it fits, and the subscriber's decoder. */
module Payload {
  import opened Base

  /** A Java byte. */
  type Byte = b: int | -128 <= b < 128

  const FIRST := 64
  const INT_LIMIT := 0x8000_0000

  function Unsigned(b: Byte): int {
    if b < 0 then b + 256 else b
  }

  /** Representation identifier and options (section 10.2 of DDSI-RTPS 2.5). */
  function Header(version: int): seq<Byte> {
    if version == 1 then [0, 1, 0, 0] else [0, 7, 0, 0]
  }

  function Encoded<V>(serialize: (V, int) -> seq<Byte>, value: V, version: int): seq<Byte> {
    Header(version) + serialize(value, version)
  }

  // ---- A buffer of fixed capacity ---------------------------------------------------

  class ByteBuffer {
    const bytes: array<Byte>
    var position: nat

    constructor (capacity: nat)
      ensures fresh(bytes) && bytes.Length == capacity && position == 0
    {
      bytes := new Byte[capacity](_ => 0);
      position := 0;
    }

    ghost predicate Valid()
      reads this
    {
      position <= bytes.Length
    }

    /** What has been put so far. */
    function Written(): (s: seq<Byte>)
      requires Valid()
      reads this, bytes
      ensures |s| == position
    {
      bytes[..position]
    }

    /** False is a BufferOverflowException. */
    method Put(b: Byte) returns (ok: bool)
      requires Valid()
      modifies this`position, bytes
      ensures Valid() && ok == (old(position) < bytes.Length)
      ensures Written() == if ok then old(Written()) + [b] else old(Written())
    {
      ok := position < bytes.Length;
      if ok {
        bytes[position] := b;
        position := position + 1;
      }
    }

    /** Puts until all is in or the buffer is full. */
    method PutAll(s: seq<Byte>) returns (ok: bool)
      requires Valid()
      modifies this`position, bytes
      ensures Valid() && ok == (old(position) + |s| <= bytes.Length)
      ensures ok ==> Written() == old(Written()) + s
    {
      for i := 0 to |s|
        invariant Valid() && Written() == old(Written()) + s[..i]
      {
        ok := Put(s[i]);
        if !ok {
          return;
        }
        assert s[..i + 1] == s[..i] + [s[i]];
      }
      assert s[..|s|] == s;
      ok := true;
    }
  }

  // ---- The encoder --------------------------------------------------------------------

  function Doubled(n: nat): (cap: nat)
    ensures cap >= FIRST
  {
    if n == 0 then FIRST else 2 * Doubled(n - 1)
  }

  lemma {:induction false} DoubledGrows(m: nat, n: nat)
    requires m <= n
    ensures Doubled(m) <= Doubled(n)
  {
    if m < n { DoubledGrows(m, n - 1); }
  }

  lemma DoubledLimit()
    ensures Doubled(24) == INT_LIMIT / 2
  {
    assert Doubled(6) == 0x1000;
    assert Doubled(12) == 0x4_0000;
    assert Doubled(18) == 0x100_0000;
  }

  /** How often the first capacity must be doubled to hold `size` bytes. */
  ghost predicate Least(n: nat, size: nat) {
    size <= Doubled(n) && forall m: nat :: m < n ==> Doubled(m) < size
  }

  /** One round of the loop: header and body into a fresh buffer, or it overflows. */
  method Attempt<V>(serialize: (V, int) -> seq<Byte>, value: V, version: int, cap: nat) returns (payload: Option<seq<Byte>>)
    ensures payload.Some? <==> |Encoded(serialize, value, version)| <= cap
    ensures payload.Some? ==> payload.value == Encoded(serialize, value, version)
  {
    var buffer := new ByteBuffer(cap);
    var ok := buffer.PutAll(Header(version));
    if ok {
      ok := buffer.PutAll(serialize(value, version));
    }
    payload := if ok then Some(buffer.Written()) else None;
  }

  /** Doubling a capacity an int can double stays within its largest power of two. */
  lemma DoubledFits(n: nat)
    requires n <= 24
    ensures Doubled(n) <= INT_LIMIT / 2
    ensures 2 * Doubled(n) < INT_LIMIT <==> n < 24
  {
    DoubledLimit();
    DoubledGrows(n, 24);
    if n < 24 { DoubledGrows(n + 1, 24); }
  }

  /** toPayload. The capacity is an int: when it would have to pass 2^30 it overflows,
      and no buffer of a negative capacity can be allocated. */
  method ToPayload<V>(serialize: (V, int) -> seq<Byte>, value: V, version: int)
      returns (payload: Option<seq<Byte>>, doublings: nat)
    ensures payload.Some? <==> |Encoded(serialize, value, version)| <= INT_LIMIT / 2
    ensures payload.Some? ==> payload.value == Encoded(serialize, value, version)
    ensures payload.Some? ==> Least(doublings, |Encoded(serialize, value, version)|)
  {
    var cap: int := FIRST;
    doublings := 0;
    ghost var size := |Encoded(serialize, value, version)|;
    while true
      invariant cap == Doubled(doublings) && doublings <= 24
      invariant forall m: nat :: m < doublings ==> Doubled(m) < size
      decreases 24 - doublings
    {
      DoubledFits(doublings);
      payload := Attempt(serialize, value, version, cap);
      if payload.Some? {
        return;
      }
      if 2 * cap >= INT_LIMIT {
        DoubledLimit();
        return;
      }
      cap, doublings := 2 * cap, doublings + 1;
    }
  }

  // ---- The decoder ---------------------------------------------------------------------

  datatype Decoded<V> = Value(version: int, value: V) | Unsupported | Malformed

  /** The listener's decoder; a payload with no room for its header cannot be read. */
  function Decode<V>(deserialize: (seq<Byte>, int) -> Option<V>, payload: seq<Byte>): Decoded<V> {
    if |payload| < 2 then Malformed
    else
      var id := 256 * Unsigned(payload[0]) + Unsigned(payload[1]);
      if id != 1 && id != 7 then Unsupported
      else if |payload| < 4 then Malformed
      else
        var version := if id == 1 then 1 else 2;
        match deserialize(payload[4..], version)
        case Some(v) => Value(version, v)
        case None => Malformed
  }

  /** Deserializing inverts serializing, in either version. */
  ghost predicate Inverse<V(!new)>(serialize: (V, int) -> seq<Byte>, deserialize: (seq<Byte>, int) -> Option<V>) {
    forall v, x :: x == 1 || x == 2 ==> deserialize(serialize(v, x), x) == Some(v)
  }

  /** What was published is what is received, value and version, for every value and
      either version. */
  lemma RoundTrip<V(!new)>(serialize: (V, int) -> seq<Byte>, deserialize: (seq<Byte>, int) -> Option<V>, value: V, version: int)
    requires Inverse(serialize, deserialize) && (version == 1 || version == 2)
    ensures Decode(deserialize, Encoded(serialize, value, version)) == Value(version, value)
  {
    assert Encoded(serialize, value, version)[4..] == serialize(value, version);
  }

  /** The encoder takes any other version for the second: its number is not recovered. */
  lemma OtherVersionsAreLost<V>(serialize: (V, int) -> seq<Byte>, deserialize: (seq<Byte>, int) -> Option<V>, value: V, version: int)
    requires version != 1 && version != 2
    ensures var d := Decode(deserialize, Encoded(serialize, value, version)); d.Value? ==> d.version == 2 != version
  {
  }

  /** A payload is accepted only with one of the two identifiers, whose bytes are compared
      unsigned. */
  lemma {:induction false} AcceptedIdentifiers<V>(deserialize: (seq<Byte>, int) -> Option<V>, payload: seq<Byte>)
    ensures var d := Decode(deserialize, payload);
            && (d.Unsupported? <==> |payload| >= 2 && payload[..2] != [0, 1] && payload[..2] != [0, 7])
            && (d.Value? ==> payload[..2] == Header(d.version)[..2])
  {
    if |payload| >= 2 {
      assert payload[..2] == [payload[0], payload[1]];
    }
  }
}
