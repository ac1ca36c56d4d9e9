/** The fixed-block pool allocator: one byte array, a free list whose links are
    stored inside the free blocks themselves, and client writes into held blocks. */

/** Little-endian encoding of a pointer-sized word. */
module Words {
  type byte = x: int | 0 <= x < 256

  /** sizeof(FreeNode*) on the 64-bit targets of the library. */
  const LINK_SIZE: nat := 8
  const ADDRESS_SPACE: nat := 0x1_0000_0000_0000_0000

  function Pow256(k: nat): (p: nat)
    ensures p > 0
  {
    if k == 0 then 1 else 256 * Pow256(k - 1)
  }

  function Encode(n: nat, k: nat): (bytes: seq<byte>)
    ensures |bytes| == k
  {
    if k == 0 then [] else [n % 256] + Encode(n / 256, k - 1)
  }

  function Decode(bytes: seq<byte>): nat {
    if bytes == [] then 0 else bytes[0] + 256 * Decode(bytes[1..])
  }

  lemma {:induction false} DecodeEncode(n: nat, k: nat)
    requires n < Pow256(k)
    ensures Decode(Encode(n, k)) == n
  {
    if k > 0 {
      assert n / 256 < Pow256(k - 1);
      DecodeEncode(n / 256, k - 1);
      assert Encode(n, k)[1..] == Encode(n / 256, k - 1);
    }
  }

  lemma LinkRange()
    ensures Pow256(LINK_SIZE) == ADDRESS_SPACE
  {
    assert Pow256(2) == 256 * Pow256(1);
    assert Pow256(4) == 256 * (256 * Pow256(2));
    assert Pow256(6) == 256 * (256 * Pow256(4));
    assert Pow256(8) == 256 * (256 * Pow256(6));
  }
}

/** The specification: a pool is an ordered stack of free blocks and a set of
    held ones. Nothing in it mentions memory, addresses or links. */
module PoolSpec {
  import opened Base

  datatype Pool = Pool(free: seq<nat>, held: set<nat>) {
    /** The fully free pool of `n` blocks, in the order a reset leaves it. */
    static function Fresh(n: nat): Pool {
      Pool(seq(n, i requires 0 <= i < n => n - 1 - i), {})
    }

    /** Every block is free once, or held, and never both. */
    ghost predicate Partition(n: nat) {
      && (forall i, j :: 0 <= i < j < |free| ==> free[i] != free[j])
      && (forall i :: 0 <= i < |free| ==> free[i] < n)
      && (forall b :: b in held ==> b < n && b !in free)
      && (forall b: nat :: b < n ==> b in free || b in held)
    }
  }

  /** One request of a client, or one byte it stores into a block it holds. */
  datatype Op =
    | Alloc(len: nat, alignment: nat)
    | Free(block: nat)
    | FreeNull
    | Resize(newLen: nat)
    | Write(block: nat, offset: nat, value: int)

  /** What a request answers: the block handed out (None is NULL), or whether an
      in-place resize is possible. */
  datatype Answer = Block(b: Option<nat>) | Fits(yes: bool) | Nothing

  const MAX_ALIGNMENT: nat := 16

  /** What a client may ask: it frees and writes only blocks it holds. */
  predicate Legal(p: Pool, op: Op, blockSize: nat) {
    match op
    case Free(b) => b in p.held
    case Write(b, o, v) => b in p.held && o < blockSize && 0 <= v < 256
    case _ => true
  }

  function Do(p: Pool, op: Op, blockSize: nat): (Pool, Answer) {
    match op
    case Alloc(len, alignment) =>
      if len > blockSize || alignment > MAX_ALIGNMENT || p.free == [] then (p, Block(None))
      else (Pool(p.free[1..], p.held + {p.free[0]}), Block(Some(p.free[0])))
    case Free(b) => (Pool([b] + p.free, p.held - {b}), Nothing)
    case FreeNull => (p, Nothing)
    case Resize(n) => (p, Fits(n <= blockSize))
    case Write(_, _, _) => (p, Nothing)
  }

  /** A whole run of requests: the pool it ends in and every answer. */
  function Run(p: Pool, ops: seq<Op>, blockSize: nat): (Pool, seq<Answer>) {
    if ops == [] then (p, [])
    else
      var before := Run(p, ops[..|ops| - 1], blockSize);
      var last := Do(before.0, ops[|ops| - 1], blockSize);
      (last.0, before.1 + [last.1])
  }

  ghost predicate LegalRun(p: Pool, ops: seq<Op>, blockSize: nat) {
    forall i :: 0 <= i < |ops| ==> Legal(Run(p, ops[..i], blockSize).0, ops[i], blockSize)
  }

  lemma FreshGrows(n: nat)
    ensures Pool.Fresh(n + 1).free == [n] + Pool.Fresh(n).free
    ensures n !in Pool.Fresh(n).free && forall i :: 0 <= i < n ==> Pool.Fresh(n).free[i] < n
  {
  }

  lemma FreshPartition(n: nat)
    ensures Pool.Fresh(n).Partition(n)
  {
    var p := Pool.Fresh(n);
    forall b: nat | b < n ensures b in p.free {
      assert p.free[n - 1 - b] == b;
    }
  }

  lemma DoKeepsPartition(p: Pool, op: Op, blockSize: nat, n: nat)
    requires p.Partition(n) && Legal(p, op, blockSize)
    ensures Do(p, op, blockSize).0.Partition(n)
  {
    var q := Do(p, op, blockSize).0;
    if op.Alloc? && q != p {
      assert p.free == [p.free[0]] + q.free;
      assert forall i :: 0 <= i < |q.free| ==> q.free[i] == p.free[i + 1];
    }
  }

  /** After any legal run every block is free exactly once or held, never both. */
  lemma {:induction false} RunKeepsPartition(p: Pool, ops: seq<Op>, blockSize: nat, n: nat)
    requires p.Partition(n) && LegalRun(p, ops, blockSize)
    ensures Run(p, ops, blockSize).0.Partition(n)
  {
    if ops != [] {
      var k := |ops| - 1;
      assert forall i :: 0 <= i < k ==> ops[..k][..i] == ops[..i];
      RunKeepsPartition(p, ops[..k], blockSize, n);
      DoKeepsPartition(Run(p, ops[..k], blockSize).0, ops[k], blockSize, n);
    }
  }

  lemma {:induction false} RunExtends(p: Pool, ops: seq<Op>, k: nat, blockSize: nat)
    requires k < |ops|
    ensures Run(p, ops[..k + 1], blockSize).0 == Do(Run(p, ops[..k], blockSize).0, ops[k], blockSize).0
    ensures Run(p, ops[..k + 1], blockSize).1 ==
            Run(p, ops[..k], blockSize).1 + [Do(Run(p, ops[..k], blockSize).0, ops[k], blockSize).1]
  {
    assert ops[..k + 1][..k] == ops[..k];
  }

  /** Seen as a set of free blocks the stack is the simplest allocator there is:
      an in-range request fails only when nothing is free, what it hands out was
      free, and exactly that block moves. */
  lemma AllocIsSetAlloc(p: Pool, len: nat, alignment: nat, blockSize: nat, n: nat)
    requires p.Partition(n)
    ensures var (q, a) := Do(p, Alloc(len, alignment), blockSize);
            && a.Block?
            && (a.b.None? <==> len > blockSize || alignment > MAX_ALIGNMENT || p.free == [])
            && (a.b.None? ==> q == p)
            && (a.b.Some? ==>
                  && a.b.value in p.free && a.b.value !in p.held
                  && q.held == p.held + {a.b.value}
                  && (forall b :: b in q.free <==> b in p.free && b != a.b.value))
  {
    var (q, a) := Do(p, Alloc(len, alignment), blockSize);
    if a.b.Some? {
      assert p.free == [p.free[0]] + q.free;
    }
  }

  /** Freeing a block and asking again hands the same block back and restores the pool. */
  lemma FreeThenAlloc(p: Pool, b: nat, len: nat, alignment: nat, blockSize: nat)
    requires b in p.held && len <= blockSize && alignment <= MAX_ALIGNMENT
    ensures var freed := Do(p, Free(b), blockSize).0;
            Do(freed, Alloc(len, alignment), blockSize) == (p, Block(Some(b)))
  {
    var freed := Do(p, Free(b), blockSize).0;
    assert freed.free[1..] == p.free;
    assert freed.held + {b} == p.held;
  }
}

module StaticPool {
  import opened Base
  import opened Words
  import PoolSpec

  /** g_pool, g_free_list and the operations on them. Addresses are integers and
      NULL is 0; `free` and `held` say which blocks the list and the clients have. */
  class Pool {
    const base: nat
    const blockSize: nat
    const blockCount: nat
    const memory: array<byte>
    var freeList: nat

    ghost var free: seq<nat>
    ghost var held: set<nat>

    ghost predicate Layout()
    {
      && base > 0 && base % PoolSpec.MAX_ALIGNMENT == 0
      && blockSize > 0 && blockSize % PoolSpec.MAX_ALIGNMENT == 0
      && memory.Length == blockCount * blockSize
      && base + blockCount * blockSize <= ADDRESS_SPACE
    }

    function Address(b: nat): (a: nat)
      ensures a == base + b * blockSize
    {
      base + b * blockSize
    }

    /** The address a free list denotes: its first block's, or NULL. */
    ghost function Head(list: seq<nat>): nat {
      if list == [] then 0 else Address(list[0])
    }

    /** The link stored in the first bytes of block `b`. */
    ghost function Link(bytes: seq<byte>, b: nat): nat
      requires b * blockSize + LINK_SIZE <= |bytes|
    {
      Decode(bytes[b * blockSize..b * blockSize + LINK_SIZE])
    }

    /** Following the links stored in memory from `head` visits exactly `list`. */
    ghost predicate Chain(bytes: seq<byte>, head: nat, list: seq<nat>)
      requires Layout() && |bytes| == memory.Length
      requires forall i :: 0 <= i < |list| ==> list[i] < blockCount
    {
      && head == Head(list)
      && forall i :: 0 <= i < |list| ==> (InBounds(list[i]); Link(bytes, list[i]) == Head(list[i + 1..]))
    }

    ghost function Abs(): PoolSpec.Pool
      reads this
    {
      PoolSpec.Pool(free, held)
    }

    ghost predicate Valid()
      reads this, memory
    {
      && Layout()
      && Abs().Partition(blockCount)
      && Chain(memory[..], freeList, free)
    }

    lemma InBounds(b: nat)
      requires Layout() && b < blockCount
      ensures b * blockSize + blockSize <= memory.Length
      ensures blockSize >= PoolSpec.MAX_ALIGNMENT
      ensures b * blockSize + LINK_SIZE <= memory.Length
      ensures 0 < Address(b) && Address(b) + blockSize <= ADDRESS_SPACE
    {
      assert (b + 1) * blockSize <= blockCount * blockSize;
    }

    /** Two blocks never share a byte. */
    lemma Disjoint(b: nat, c: nat)
      requires Layout() && b < c
      ensures b * blockSize + blockSize <= c * blockSize
    {
      assert (b + 1) * blockSize <= c * blockSize;
    }

    lemma Sixteens(b: nat, q: nat)
      ensures b * (16 * q) == 16 * (b * q)
    {
    }

    lemma Divides(n: nat, alignment: nat)
      requires alignment in {1, 2, 4, 8, 16}
      ensures (16 * n) % alignment == 0
    {
      if alignment == 1 {
        assert (16 * n) % 1 == 0;
      } else if alignment == 2 {
        assert (16 * n) % 2 == 0;
      } else if alignment == 4 {
        assert (16 * n) % 4 == 0;
      } else if alignment == 8 {
        assert (16 * n) % 8 == 0;
      } else {
        assert (16 * n) % 16 == 0;
      }
    }

    /** Every block handed out is aligned for any request the pool accepts. */
    lemma Aligned(b: nat, alignment: nat)
      requires Layout() && alignment in {1, 2, 4, 8, 16}
      ensures Address(b) % alignment == 0
    {
      var q, r := blockSize / 16, base / 16;
      Sixteens(b, q);
      assert Address(b) == 16 * (r + b * q);
      Divides(r + b * q, alignment);
    }

    /** The program starts here and resets the pool before its first request. */
    constructor (base: nat, blockSize: nat, blockCount: nat)
      requires base > 0 && base % PoolSpec.MAX_ALIGNMENT == 0
      requires blockSize > 0 && blockSize % PoolSpec.MAX_ALIGNMENT == 0
      requires base + blockCount * blockSize <= ADDRESS_SPACE
      ensures Valid() && fresh(memory)
      ensures this.base == base && this.blockSize == blockSize && this.blockCount == blockCount
      ensures Abs() == PoolSpec.Pool.Fresh(blockCount)
    {
      this.base, this.blockSize, this.blockCount := base, blockSize, blockCount;
      memory := new byte[blockCount * blockSize](_ => 0);
      freeList := 0;
      free, held := [], {};
      new;
      Reset();
    }

    /** static_pool_allocator_reset: rebuild the list from any contents of memory. */
    method Reset()
      requires Layout()
      modifies this, memory
      ensures Valid()
      ensures Abs() == PoolSpec.Pool.Fresh(blockCount)
    {
      freeList := 0;
      free, held := [], {};
      var i := 0;
      while i < blockCount
        invariant 0 <= i <= blockCount
        invariant free == PoolSpec.Pool.Fresh(i).free
        invariant held == {}
        invariant Chain(memory[..], freeList, free)
      {
        PoolSpec.FreshGrows(i);
        Push(Address(i), i);
        i := i + 1;
      }
      PoolSpec.FreshPartition(blockCount);
    }

    /** node->next = g_free_list; g_free_list = node. */
    method Push(node: nat, ghost b: nat)
      requires Layout() && b < blockCount && b !in free && node == Address(b)
      requires forall i :: 0 <= i < |free| ==> free[i] < blockCount
      requires Chain(memory[..], freeList, free)
      modifies this, memory
      ensures free == [b] + old(free) && held == old(held)
      ensures Chain(memory[..], freeList, free)
      ensures forall k :: 0 <= k < memory.Length && !(b * blockSize <= k < b * blockSize + LINK_SIZE) ==>
                memory[k] == old(memory[k])
    {
      InBounds(b);
      if free != [] { InBounds(free[0]); }
      StoreLink(node - base, freeList);
      freeList := node;
      free := [b] + free;
      ChainPush(old(memory[..]), memory[..], b, old(freeList), old(free));
    }

    lemma ChainPush(before: seq<byte>, after: seq<byte>, b: nat, head: nat, list: seq<nat>)
      requires Layout() && b < blockCount && b !in list && head < ADDRESS_SPACE
      requires |before| == |after| == memory.Length
      requires forall i :: 0 <= i < |list| ==> list[i] < blockCount
      requires Chain(before, head, list)
      requires (InBounds(b); after[b * blockSize..b * blockSize + LINK_SIZE] == Encode(head, LINK_SIZE))
      requires forall k :: 0 <= k < |before| && !(b * blockSize <= k < b * blockSize + LINK_SIZE) ==> before[k] == after[k]
      ensures Chain(after, Address(b), [b] + list)
    {
      InBounds(b);
      LinkRange();
      DecodeEncode(head, LINK_SIZE);
      LinksKept(before, after, b);
      var longer := [b] + list;
      assert longer[1..] == list;
      forall i | 0 <= i < |longer|
        ensures (InBounds(longer[i]); Link(after, longer[i]) == Head(longer[i + 1..]))
      {
        InBounds(longer[i]);
        if i > 0 {
          assert longer[i] == list[i - 1] && longer[i + 1..] == list[i..];
        }
      }
    }

    /** node->next = head: an eight-byte store. */
    method StoreLink(at: nat, value: nat)
      requires at + LINK_SIZE <= memory.Length && value < ADDRESS_SPACE
      modifies memory
      ensures memory[at..at + LINK_SIZE] == Encode(value, LINK_SIZE)
      ensures forall k :: 0 <= k < memory.Length && !(at <= k < at + LINK_SIZE) ==> memory[k] == old(memory[k])
    {
      var bytes := Encode(value, LINK_SIZE);
      forall k | 0 <= k < LINK_SIZE { memory[at + k] := bytes[k]; }
    }

    /** node->next: an eight-byte load. */
    method LoadLink(at: nat) returns (value: nat)
      requires at + LINK_SIZE <= memory.Length
      ensures value == Decode(memory[at..at + LINK_SIZE])
    {
      value := Decode(memory[at..at + LINK_SIZE]);
    }

    /** A store that stays inside block `b` leaves every other block's link alone. */
    lemma LinksKept(before: seq<byte>, after: seq<byte>, b: nat)
      requires Layout() && b < blockCount
      requires |before| == |after| == memory.Length
      requires forall k :: 0 <= k < |before| && !(b * blockSize <= k < b * blockSize + blockSize) ==> before[k] == after[k]
      ensures forall c: nat :: c < blockCount && c != b ==> (InBounds(c); Link(before, c) == Link(after, c))
    {
      forall c: nat | c < blockCount && c != b
        ensures (InBounds(c); Link(before, c) == Link(after, c))
      {
        InBounds(c);
        if c < b { Disjoint(c, b); } else { Disjoint(b, c); }
        assert before[c * blockSize..c * blockSize + LINK_SIZE] == after[c * blockSize..c * blockSize + LINK_SIZE];
      }
    }

    method Alloc(len: nat, alignment: nat) returns (ptr: nat)
      requires Valid()
      modifies this
      ensures Valid()
      ensures var (p, a) := PoolSpec.Do(old(Abs()), PoolSpec.Alloc(len, alignment), blockSize);
              Abs() == p && ptr == Pointer(a.b)
    {
      if len > blockSize || alignment > PoolSpec.MAX_ALIGNMENT {
        return 0;
      }
      ptr := freeList;
      if free != [] { InBounds(free[0]); }
      if ptr != 0 {
        assert ptr - base == free[0] * blockSize;
        freeList := LoadLink(ptr - base);
        ghost var b := free[0];
        PoolSpec.DoKeepsPartition(Abs(), PoolSpec.Alloc(len, alignment), blockSize, blockCount);
        free, held := free[1..], held + {b};
        assert forall i :: 0 <= i < |free| ==> free[i] == old(free)[i + 1] && free[i + 1..] == old(free)[i + 2..];
      }
    }

    ghost function Pointer(b: Option<nat>): nat {
      if b.None? then 0 else Address(b.value)
    }

    /** Freeing takes the address the block was handed out at; NULL is ignored. */
    method Free(ptr: nat, ghost b: nat)
      requires Valid()
      requires ptr != 0 ==> b in held && ptr == Address(b)
      modifies this, memory
      ensures Valid()
      ensures Abs() == if ptr == 0 then old(Abs()) else PoolSpec.Do(old(Abs()), PoolSpec.Free(b), blockSize).0
      ensures ptr != 0 ==> Abs() == PoolSpec.Pool([b] + old(Abs()).free, old(Abs()).held - {b})
      ensures forall k :: 0 <= k < memory.Length && (ptr == 0 || !(ptr - base <= k < ptr - base + LINK_SIZE)) ==>
                memory[k] == old(memory[k])
    {
      if ptr == 0 { return; }
      PoolSpec.DoKeepsPartition(Abs(), PoolSpec.Free(b), blockSize, blockCount);
      Push(ptr, b);
      held := held - {b};
    }

    /** Every block already has blockSize bytes, so a resize never moves anything. */
    method Resize(newLen: nat) returns (ok: bool)
      ensures ok <==> newLen <= blockSize
    {
      ok := newLen <= blockSize;
    }

    /** A client stores one byte anywhere in a block it holds, its first bytes included. */
    method ClientWrite(b: nat, offset: nat, value: byte)
      requires Valid() && b in held && offset < blockSize
      modifies memory
      ensures Valid() && Abs() == old(Abs())
      ensures forall k :: 0 <= k < memory.Length ==>
                memory[k] == if k == b * blockSize + offset then value else old(memory[k])
    {
      InBounds(b);
      memory[b * blockSize + offset] := value;
      LinksKept(old(memory[..]), memory[..], b);
      ChainKept(old(memory[..]), memory[..], b, freeList, free);
    }

    lemma ChainKept(before: seq<byte>, after: seq<byte>, b: nat, head: nat, list: seq<nat>)
      requires Layout() && b < blockCount && b !in list
      requires |before| == |after| == memory.Length
      requires forall i :: 0 <= i < |list| ==> list[i] < blockCount
      requires forall c: nat :: c < blockCount && c != b ==> (InBounds(c); Link(before, c) == Link(after, c))
      requires Chain(before, head, list)
      ensures Chain(after, head, list)
    {
    }
  }

  /** The answer the specification gives, with blocks replaced by addresses. */
  datatype Reply = Address(ptr: nat) | Fits(yes: bool) | Nothing

  ghost function ReplyOf(pool: Pool, a: PoolSpec.Answer): Reply {
    match a
    case Block(b) => Address(pool.Pointer(b))
    case Fits(yes) => Fits(yes)
    case Nothing => Nothing
  }

  /** One request, served from the bytes. */
  method Serve(pool: Pool, op: PoolSpec.Op) returns (reply: Reply)
    requires pool.Valid() && PoolSpec.Legal(pool.Abs(), op, pool.blockSize)
    modifies pool, pool.memory
    ensures pool.Valid()
    ensures var (p, a) := PoolSpec.Do(old(pool.Abs()), op, pool.blockSize);
            pool.Abs() == p && reply == ReplyOf(pool, a)
    ensures op.Resize? ==> reply == Fits(op.newLen <= pool.blockSize)
    ensures op.Resize? || op.FreeNull? || op.Write? ==> pool.Abs() == old(pool.Abs())
  {
    reply := Nothing;
    match op {
      case Alloc(len, alignment) =>
        var ptr := pool.Alloc(len, alignment);
        reply := Address(ptr);
      case Free(b) =>
        pool.InBounds(b);
        pool.Free(pool.Address(b), b);
      case FreeNull =>
        pool.Free(0, 0);
      case Resize(n) =>
        var ok := pool.Resize(n);
        reply := Fits(ok);
      case Write(b, offset, value) =>
        pool.ClientWrite(b, offset, value);
    }
  }

  /** Any legal sequence of requests and client writes, run against the bytes,
      gives address for address what the set-of-blocks specification gives. */
  method Drive(pool: Pool, ops: seq<PoolSpec.Op>) returns (replies: seq<Reply>)
    requires pool.Valid()
    requires PoolSpec.LegalRun(pool.Abs(), ops, pool.blockSize)
    modifies pool, pool.memory
    ensures pool.Valid()
    ensures pool.Abs() == PoolSpec.Run(old(pool.Abs()), ops, pool.blockSize).0
    ensures |replies| == |ops| == |PoolSpec.Run(old(pool.Abs()), ops, pool.blockSize).1|
    ensures forall i :: 0 <= i < |ops| ==>
              replies[i] == ReplyOf(pool, PoolSpec.Run(old(pool.Abs()), ops, pool.blockSize).1[i])
  {
    replies := [];
    ghost var start := pool.Abs();
    for i := 0 to |ops|
      invariant pool.Valid()
      invariant pool.Abs() == PoolSpec.Run(start, ops[..i], pool.blockSize).0
      invariant |replies| == i == |PoolSpec.Run(start, ops[..i], pool.blockSize).1|
      invariant forall j :: 0 <= j < i ==>
                  replies[j] == ReplyOf(pool, PoolSpec.Run(start, ops[..i], pool.blockSize).1[j])
    {
      PoolSpec.RunExtends(start, ops, i, pool.blockSize);
      var reply := Serve(pool, ops[i]);
      replies := replies + [reply];
    }
    assert ops[..|ops|] == ops;
  }
}
