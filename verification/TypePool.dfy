/**
 The pooled allocator of `typepool.c`: a linked list of slabs, each with a stack of its free blocks, and a hint at
 the slab to try first. Blocks are abstract identities that remember the slab they come from.
 */
module TypePool {
  import opened Wrappers

  /** A block; `owner` is the slab pointer stored in front of it. */
  datatype Block = Block(owner: Slab, index: nat)

  class Slab {
    const size: nat
    /** Indices of the free blocks, the top of the stack last. */
    var stack: seq<nat>
    var next: Slab?

    constructor (num: nat)
      ensures size == num && next == null && Distinct(stack) && forall i: nat :: i in stack <==> i < num
    {
      size := num;
      next := null;
      stack := [];
      new;
      for i := 0 to num
        invariant size == num && next == null && Distinct(stack) && forall j: nat :: j in stack <==> j < i
      {
        assert forall j | 0 <= j < |stack| :: stack[j] in stack;
        stack := stack + [i];
      }
    }

    method Pop() returns (r: Option<nat>)
      modifies this`stack
      ensures old(stack) == [] ==> r == None && stack == []
      ensures old(stack) != [] ==> r.Some? && old(stack) == stack + [r.value]
    {
      if stack == [] {
        return None;
      }
      r := Some(stack[|stack| - 1]);
      stack := stack[..|stack| - 1];
    }
  }

  // ----- counting blocks -----

  function Capacity(slabs: seq<Slab>): nat {
    if slabs == [] then 0 else slabs[|slabs| - 1].size + Capacity(slabs[..|slabs| - 1])
  }

  ghost function BlocksOf(s: Slab, n: nat): (r: set<Block>)
    ensures forall b | b in r :: b.owner == s && b.index < n
    ensures forall i: nat | i < n :: Block(s, i) in r
    ensures |r| == n
  {
    if n == 0 then {} else BlocksOf(s, n - 1) + {Block(s, n - 1)}
  }

  /** All blocks of distinct slabs are as many as their capacity. */
  ghost function AllBlocks(slabs: seq<Slab>): (r: set<Block>)
    requires DistinctSlabs(slabs)
    ensures forall b | b in r :: b.owner in slabs && b.index < b.owner.size
    ensures forall s, i: nat | s in slabs && i < s.size :: Block(s, i) in r
    ensures |r| == Capacity(slabs)
  {
    if slabs == [] then {}
    else
      var last := slabs[|slabs| - 1];
      assert slabs == slabs[..|slabs| - 1] + [last];
      var r, s := AllBlocks(slabs[..|slabs| - 1]), BlocksOf(last, last.size);
      assert r !! s;
      r + s
  }

  function Max(a: nat, b: nat): nat {
    if a < b then b else a
  }

  predicate DistinctSlabs(slabs: seq<Slab>) {
    forall i, j | 0 <= i < j < |slabs| :: slabs[i] != slabs[j]
  }

  predicate Distinct(s: seq<nat>) {
    forall i, j | 0 <= i < j < |s| :: s[i] != s[j]
  }

  lemma {:induction false} SubsetSize<T>(a: set<T>, b: set<T>)
    requires a <= b
    ensures |a| <= |b| && (|a| == |b| ==> a == b)
  {
    if a != {} {
      var x :| x in a;
      SubsetSize(a - {x}, b - {x});
    }
  }

  lemma {:induction false} CapacityUniform(slabs: seq<Slab>, base: nat)
    requires forall i | 0 <= i < |slabs| :: slabs[i].size == base
    ensures Capacity(slabs) == base * |slabs|
  {
    if slabs != [] {
      CapacityUniform(slabs[..|slabs| - 1], base);
      assert base * |slabs| == base * (|slabs| - 1) + base;
    }
  }

  /** The slabs hold the peak, and one slab less would not. */
  ghost predicate Frugal(base: nat, slabs: nat, peak: nat) {
    base > 0 ==> peak <= base * slabs && slabs >= 1 && (slabs == 1 || base * (slabs - 1) < peak)
  }

  lemma FrugalGrown(base: nat, slabs: nat, peak: nat)
    requires base > 0 && Frugal(base, slabs, peak)
    ensures Frugal(base, slabs + 1, Max(peak, base * slabs + 1))
  {
    assert base * (slabs + 1) == base * slabs + base;
  }

  lemma StaysFrugal(base: nat, slabs: nat, peak: nat, slabs': nat, live: nat)
    requires Frugal(base, slabs, peak)
    requires base > 0 ==> (slabs' == slabs && live <= base * slabs) || (slabs' == slabs + 1 && live == base * slabs + 1)
    ensures Frugal(base, slabs', Max(peak, live))
  {
    if base > 0 && slabs' == slabs + 1 {
      FrugalGrown(base, slabs, peak);
    }
  }

  lemma Scaled(base: nat, x: nat, d: nat)
    requires base > 0
    ensures base * (x + d) == base * x + base * d && base * d >= d && (d > 0 ==> base * d >= base)
  {
  }

  lemma RoundedUp(base: nat, peak: nat)
    requires base > 0
    ensures var q := (peak + base - 1) / base; peak <= base * q && base * q < peak + base
  {
  }

  /** In closed form: the peak divided by the slab size, rounded up, and at least one. */
  lemma FrugalCount(base: nat, slabs: nat, peak: nat)
    requires base > 0
    ensures Frugal(base, slabs, peak) <==> slabs == Max(1, (peak + base - 1) / base)
  {
    var q := (peak + base - 1) / base;
    RoundedUp(base, peak);
    Closed(base, slabs, peak, q);
  }

  lemma Closed(base: nat, slabs: nat, peak: nat, q: nat)
    requires base > 0 && peak <= base * q < peak + base
    ensures Frugal(base, slabs, peak) <==> slabs == Max(1, q)
  {
    if slabs < q {
      Scaled(base, slabs, q - slabs);
    } else if slabs > q {
      Scaled(base, q, slabs - 1 - q);
    }
    if slabs > 0 {
      Scaled(base, slabs - 1, 1);
    }
  }

  // ----- free and live blocks of one slab -----

  /** Each block of slab s is either live or on the stack, where it is once. */
  ghost predicate Apart(s: Slab, stack: seq<nat>, live: set<Block>) {
    Distinct(stack) && forall i: nat :: i in stack <==> i < s.size && Block(s, i) !in live
  }

  /** The free and the live blocks make up a slab. */
  lemma Divided(s: Slab, stack: seq<nat>, live: set<Block>)
    requires Apart(s, stack, live) && forall b | b in live && b.owner == s :: b.index < s.size
    ensures |stack| + |set b | b in live && b.owner == s| == s.size
  {
    StackSize(s, stack);
    hide Apart;
    var free := set i | i in stack :: Block(s, i);
    var used := set b | b in live && b.owner == s;
    Split(s, stack, live, free, used);
    assert |free + used| == |free| + |used|;
  }

  lemma Split(s: Slab, stack: seq<nat>, live: set<Block>, free: set<Block>, used: set<Block>)
    requires Apart(s, stack, live) && forall b | b in live && b.owner == s :: b.index < s.size
    requires free == (set i | i in stack :: Block(s, i)) && used == (set b | b in live && b.owner == s)
    ensures free !! used && free + used == BlocksOf(s, s.size)
  {
    forall b | b in BlocksOf(s, s.size)
      ensures b in free + used
    {
      assert b == Block(s, b.index);
    }
  }

  lemma ApartPop(s: Slab, rest: seq<nat>, top: nat, live: set<Block>)
    requires Apart(s, rest + [top], live)
    ensures top < s.size && Block(s, top) !in live && Apart(s, rest, live + {Block(s, top)})
  {
    var stack := rest + [top];
    assert stack[|rest|] == top && top in stack && forall i | 0 <= i < |rest| :: stack[i] == rest[i];
    assert forall i: nat :: i in stack <==> i in rest || i == top;
  }

  lemma ApartPush(b: Block, stack: seq<nat>, live: set<Block>)
    requires Apart(b.owner, stack, live) && b in live && b.index < b.owner.size
    ensures Apart(b.owner, stack + [b.index], live - {b})
  {
    assert b == Block(b.owner, b.index);
    assert forall i: nat :: i in stack + [b.index] <==> i in stack || i == b.index;
  }

  lemma ApartOther(s: Slab, stack: seq<nat>, live: set<Block>, b: Block)
    requires Apart(s, stack, live) && b.owner != s
    ensures Apart(s, stack, live + {b}) && Apart(s, stack, live - {b})
  {
  }

  // ----- the pool -----

  class Pool {
    const baseNum: nat
    const elementSize: int
    var freeNode: Slab?
    var head: Slab
    var tail: Slab
    var nodenum: nat

    /** The list from head to tail. */
    ghost var slabs: seq<Slab>
    /** Blocks claimed and not yet reclaimed, and the most there have been. */
    ghost var live: set<Block>
    ghost var peak: nat
    /** No caller has grown the pool itself. */
    ghost var plain: bool
    ghost var repr: set<object>

    ghost predicate Linked()
      reads this, slabs
    {
      && slabs != [] && head == slabs[0] && tail == slabs[|slabs| - 1] && tail.next == null
      && DistinctSlabs(slabs)
      && (forall i | 0 <= i < |slabs| - 1 :: slabs[i].next == slabs[i + 1])
      && (freeNode != null ==> freeNode in slabs)
    }

    /** Each block of each slab is either live or on its own slab's stack, where it is once. */
    ghost predicate Owned()
      reads this, slabs
    {
      && (forall b | b in live :: b.owner in slabs && b.index < b.owner.size)
      && (forall s | s in slabs :: Apart(s, s.stack, live))
    }

    /** The pool has grown no more than its peak required. */
    ghost predicate Thrifty()
      reads this
    {
      && |live| <= peak
      && (plain ==>
            && nodenum == |slabs| && (forall i | 0 <= i < |slabs| :: slabs[i].size == baseNum)
            && Frugal(baseNum, nodenum, peak))
    }

    ghost predicate Sound()
      reads this, repr
    {
      && this in repr && (forall s | s in slabs :: s in repr)
      && Linked() && Owned()
    }

    ghost predicate Valid()
      reads this, repr
    {
      Sound() && Thrifty()
    }

    constructor (num: nat, size: int)
      ensures Valid() && fresh(repr) && live == {} && peak == 0 && plain && nodenum == 1
      ensures baseNum == num && elementSize == size
    {
      var slab := new Slab(num);
      head := slab;
      tail := slab;
      freeNode := slab;
      nodenum := 1;
      baseNum := num;
      elementSize := size;
      slabs := [slab];
      live := {};
      peak := 0;
      plain := true;
      new;
      repr := {this, slab};
    }

    lemma LiveOwned()
      requires Valid()
      ensures this in repr && forall b | b in live :: b.owner in repr
    {
    }

    /** The live blocks are as many as the capacity exactly when every stack is empty. */
    lemma Exhausted()
      requires Sound()
      ensures |live| <= Capacity(slabs)
      ensures |live| == Capacity(slabs) <==> forall s | s in slabs :: s.stack == []
    {
      var all := AllBlocks(slabs);
      assert live <= all;
      SubsetSize(live, all);
      if exists s :: s in slabs && s.stack != [] {
        var s :| s in slabs && s.stack != [];
        assert s.stack[0] in s.stack;
        assert Block(s, s.stack[0]) in all && Block(s, s.stack[0]) !in live;
      }
      if forall s | s in slabs :: s.stack == [] {
        forall b | b in all
          ensures b in live
        {
          assert Block(b.owner, b.index) == b && b.index !in b.owner.stack;
        }
        assert live == all;
      }
    }

    /** In each slab the free and the live blocks make up its size. */
    lemma Conserved(s: Slab)
      requires Sound() && s in slabs
      ensures |s.stack| + |set b | b in live && b.owner == s| == s.size
    {
      Divided(s, s.stack, live);
    }

    /** A free block of slab s, if it has one, becomes live. */
    method PopFrom(s: Slab) returns (r: Option<Block>)
      requires Sound() && s in slabs
      modifies this`live, this`peak, s`stack
      ensures Sound()
      ensures r.None? <==> old(s.stack) == []
      ensures r.None? ==> s.stack == old(s.stack) && live == old(live) && peak == old(peak)
      ensures r.Some? ==> r.value == Block(s, old(s.stack)[|old(s.stack)| - 1]) && r.value !in old(live)
      ensures r.Some? ==> live == old(live) + {r.value} && peak == Max(old(peak), |live|)
    {
      hide Apart;
      var top := s.Pop();
      if top.None? {
        return None;
      }
      r := Some(Block(s, top.value));
      ApartPop(s, s.stack, top.value, live);
      forall t | t in slabs && t != s
        ensures Apart(t, t.stack, live + {r.value})
      {
        ApartOther(t, t.stack, live, r.value);
      }
      live := live + {r.value};
      peak := Max(peak, |live|);
    }

    /** b was the top of the first stack, from the head, that was not empty. */
    twostate predicate FirstFree(new b: Block)
      reads this, slabs
    {
      exists k :: 0 <= k < |old(slabs)| && b.owner == old(slabs)[k] && old(slabs[k].stack) != []
        && b.index == old(slabs[k].stack)[|old(slabs[k].stack)| - 1]
        && forall i | 0 <= i < k :: old(slabs[i].stack) == []
    }

    /** Pops the first slab from the head that has a free block; `node` is the slab after it, or none. */
    method Scan() returns (r: Option<Block>, node: Slab?)
      requires Sound()
      modifies this`live, this`peak, slabs`stack
      ensures Sound() && (node != null ==> node in slabs)
      ensures r.None? <==> forall s | s in slabs :: old(s.stack) == []
      ensures r.None? ==> live == old(live) && peak == old(peak) && forall s | s in slabs :: s.stack == []
      ensures r.Some? ==> r.value !in old(live) && live == old(live) + {r.value} && peak == Max(old(peak), |live|)
      ensures r.Some? ==> FirstFree(r.value) && node == r.value.owner.next
    {
      hide Owned, Max;
      r, node := None, head;
      ghost var k := 0;
      while r.None? && node != null
        invariant Sound() && k <= |slabs|
        invariant node == if k < |slabs| then slabs[k] else null
        invariant r.None? ==> live == old(live) && peak == old(peak)
        invariant r.None? ==> forall s | s in slabs :: s.stack == old(s.stack)
        invariant r.None? ==> forall i | 0 <= i < k :: old(slabs[i].stack) == []
        invariant r.Some? ==> r.value !in old(live) && live == old(live) + {r.value} && peak == Max(old(peak), |live|)
        invariant r.Some? ==> FirstFree(r.value) && node == r.value.owner.next
        decreases |slabs| - k
      {
        r := PopFrom(node);
        node := node.next;
        k := k + 1;
      }
    }

    method SetHint(node: Slab?)
      requires Sound() && (node != null ==> node in slabs)
      modifies this`freeNode
      ensures Sound() && freeNode == node
    {
      hide Apart;
      freeNode := node;
    }

    /**
     Tries the hint, then every slab from the head. After a hit by the scan the hint is the slab after the one that
     was popped, or none.
     */
    method ClaimHelp() returns (r: Option<Block>)
      requires Sound()
      modifies this`live, this`peak, this`freeNode, slabs`stack
      ensures Sound()
      ensures r.None? <==> forall s | s in slabs :: old(s.stack) == []
      ensures r.None? ==> live == old(live) && peak == old(peak) && forall s | s in slabs :: s.stack == []
      ensures r.Some? ==> r.value !in old(live) && live == old(live) + {r.value} && peak == Max(old(peak), |live|)
      ensures old(freeNode) != null && old(freeNode.stack) != [] ==>
        r == Some(Block(old(freeNode), old(freeNode.stack)[|old(freeNode.stack)| - 1])) && freeNode == old(freeNode)
      ensures r.Some? && (old(freeNode) == null || old(freeNode.stack) == []) ==>
        FirstFree(r.value) && freeNode == r.value.owner.next
    {
      hide Owned, Max;
      r := None;
      var node := freeNode;
      if node != null {
        r := PopFrom(node);
      }
      if r.None? {
        r, node := Scan();
      }
      if r.Some? {
        SetHint(node);
      }
    }

    /** Appends a slab and points the hint at it; the slab counter is left to the caller. */
    method Grow(num: nat)
      requires Sound()
      modifies this`tail, this`freeNode, this`slabs, this`repr, tail`next
      ensures Sound() && fresh(repr - old(repr))
      ensures slabs == old(slabs) + [tail]
      ensures fresh(tail) && tail.size == num && freeNode == tail && (num > 0 <==> tail.stack != [])
    {
      var slab := new Slab(num);
      tail.next := slab;
      tail := slab;
      freeNode := slab;
      slabs := slabs + [slab];
      repr := repr + {slab};
      assert num > 0 <==> 0 in slab.stack;
      assert slab.stack != [] ==> slab.stack[0] in slab.stack;
    }

    method Refill()
      requires Sound()
      modifies this`tail, this`freeNode, this`slabs, this`repr, this`nodenum, tail`next
      ensures Sound() && fresh(repr - old(repr)) && slabs == old(slabs) + [tail] && nodenum == old(nodenum) + 1
      ensures fresh(tail) && tail.size == baseNum && freeNode == tail && (baseNum > 0 <==> tail.stack != [])
    {
      hide Apart;
      Grow(baseNum);
      nodenum := nodenum + 1;
    }

    method ClaimBlock() returns (r: Option<Block>)
      requires Sound()
      modifies repr
      ensures Sound() && fresh(repr - old(repr)) && plain == old(plain)
      ensures r.None? ==> baseNum == 0 && |old(live)| == Capacity(old(slabs)) && live == old(live) && peak == old(peak)
      ensures r.Some? ==> baseNum > 0 || |old(live)| < Capacity(old(slabs))
      ensures r.Some? ==> r.value !in old(live) && live == old(live) + {r.value} && peak == Max(old(peak), |live|)
      ensures if |old(live)| == Capacity(old(slabs))
        then slabs == old(slabs) + [tail] && fresh(tail) && tail.size == baseNum && nodenum == old(nodenum) + 1
        else slabs == old(slabs) && nodenum == old(nodenum)
      ensures old(freeNode) != null && old(freeNode.stack) != [] ==>
        r == Some(Block(old(freeNode), old(freeNode.stack)[|old(freeNode.stack)| - 1]))
    {
      hide Owned, Max, Capacity;
      Exhausted();
      r := ClaimHelp();
      if r.None? {
        Refill();
        r := ClaimHelp();
      }
    }

    /**
     A block that was not live; the pool grows by one slab if and only if every block it has is live. A pool made
     with no blocks per slab grows and still has nothing to give.
     */
    method Claim() returns (r: Option<Block>)
      requires Valid()
      modifies repr
      ensures Valid() && fresh(repr - old(repr)) && plain == old(plain)
      ensures r.None? <==> baseNum == 0 && |old(live)| == Capacity(old(slabs))
      ensures r.None? ==> live == old(live) && peak == old(peak)
      ensures r.Some? ==> r.value !in old(live) && live == old(live) + {r.value} && peak == Max(old(peak), |live|)
      ensures if |old(live)| == Capacity(old(slabs))
        then slabs == old(slabs) + [tail] && fresh(tail) && tail.size == baseNum && nodenum == old(nodenum) + 1
        else slabs == old(slabs) && nodenum == old(nodenum)
      ensures old(freeNode) != null && old(freeNode.stack) != [] ==>
        r == Some(Block(old(freeNode), old(freeNode.stack)[|old(freeNode.stack)| - 1]))
    {
      hide Linked, Owned, Frugal, Capacity;
      r := ClaimBlock();
      Exhausted();
      if plain {
        CapacityUniform(old(slabs), baseNum);
        CapacityUniform(slabs, baseNum);
        StaysFrugal(baseNum, old(nodenum), old(peak), nodenum, |live|);
      }
    }

    /**
     A live block goes back on the stack of its own slab, wherever the hint points, and becomes the next to be
     claimed.
     */
    method Reclaim(b: Block)
      requires Valid() && b in live
      modifies this`freeNode, this`live, b.owner`stack
      ensures Valid() && live == old(live) - {b}
      ensures freeNode == b.owner && b.owner.stack == old(b.owner.stack) + [b.index]
    {
      hide Apart, Frugal;
      ApartPush(b, b.owner.stack, live);
      forall t | t in slabs && t != b.owner
        ensures Apart(t, t.stack, live - {b})
      {
        ApartOther(t, t.stack, live, b);
      }
      SubsetSize(live - {b}, live);
      b.owner.stack := b.owner.stack + [b.index];
      freeNode := b.owner;
      live := live - {b};
    }

    /** Growth by a caller, with slabs of any size, is not counted. */
    method Increase(num: nat)
      requires Valid()
      modifies this`tail, this`freeNode, this`slabs, this`repr, this`plain, tail`next
      ensures Valid() && fresh(repr - old(repr)) && slabs == old(slabs) + [tail] && fresh(tail) && tail.size == num
    {
      hide Apart;
      Grow(num);
      plain := false;
    }

    /** The number of slabs is the peak of the live blocks divided by the slab size, rounded up, and at least one. */
    method NodeNum() returns (n: nat)
      requires Valid()
      ensures plain && baseNum > 0 ==> n == |slabs| == Max(1, (peak + baseNum - 1) / baseNum)
    {
      n := nodenum;
      if baseNum > 0 {
        FrugalCount(baseNum, nodenum, peak);
      }
    }
  }

  lemma {:induction false} StackSize(s: Slab, stack: seq<nat>)
    requires Distinct(stack)
    ensures |set i | i in stack :: Block(s, i)| == |stack|
  {
    if stack != [] {
      var rest, top := stack[..|stack| - 1], stack[|stack| - 1];
      StackSize(s, rest);
      assert stack == rest + [top];
      assert (set i | i in stack :: Block(s, i)) == (set i | i in rest :: Block(s, i)) + {Block(s, top)};
    }
  }

  // ----- whole runs -----

  /** A caller's steps: claim a block, or reclaim the k-th of the blocks held. */
  datatype Op = Claim | Reclaim(k: nat)

  function Count(n: nat, op: Op): nat {
    if op.Claim? then n + 1 else if op.k < n then n - 1 else n
  }

  /** How many blocks are held after the steps, and the most that are ever held. */
  function Counts(ops: seq<Op>): (nat, nat) {
    if ops == [] then (0, 0)
    else
      var (n, peak) := Counts(ops[..|ops| - 1]);
      var m := Count(n, ops[|ops| - 1]);
      (m, Max(peak, m))
  }

  ghost predicate Holds(held: seq<Block>, live: set<Block>) {
    && |held| == |live| && (forall b | b in held :: b in live) && (forall b | b in live :: b in held)
    && forall i, j | 0 <= i < j < |held| :: held[i] != held[j]
  }

  lemma HeldCount(held: seq<Block>, live: set<Block>)
    requires Holds(held, live)
    ensures |held| == |live| && forall i | 0 <= i < |held| :: held[i] in live
  {
  }

  lemma Gain(held: seq<Block>, live: set<Block>, b: Block)
    requires Holds(held, live) && b !in live
    ensures Holds(held + [b], live + {b})
  {
    assert forall i | 0 <= i < |held| :: held[i] in held;
  }

  lemma Drop(held: seq<Block>, live: set<Block>, k: nat)
    requires Holds(held, live) && k < |held|
    ensures Holds(held[..k] + held[k + 1..], live - {held[k]})
  {
    var rest := held[..k] + held[k + 1..];
    forall b | b in live - {held[k]}
      ensures b in rest
    {
      var i :| 0 <= i < |held| && held[i] == b;
      assert rest[if i < k then i else i - 1] == b;
    }
    forall b | b in rest
      ensures b in live - {held[k]}
    {
      var i :| 0 <= i < |rest| && rest[i] == b;
      assert held[if i < k then i else i + 1] == b;
    }
  }

  lemma PeakCovers(pool: Pool)
    requires pool.Valid()
    ensures |pool.live| <= pool.peak
  {
  }

  method Perform(pool: Pool, held: seq<Block>, op: Op) returns (after: seq<Block>)
    requires pool.Valid() && pool.baseNum > 0 && Holds(held, pool.live)
    modifies pool.repr
    ensures pool.Valid() && fresh(pool.repr - old(pool.repr)) && pool.plain == old(pool.plain)
    ensures Holds(after, pool.live) && |after| == Count(|held|, op)
    ensures pool.peak == Max(old(pool.peak), |after|)
  {
    hide Holds, Pool.Thrifty, Pool.Linked, Apart;
    PeakCovers(pool);
    HeldCount(held, pool.live);
    after := held;
    if op.Claim? {
      ghost var live := pool.live;
      var r := pool.Claim();
      Gain(held, live, r.value);
      after := held + [r.value];
    } else if op.k < |held| {
      Drop(held, pool.live, op.k);
      pool.Reclaim(held[op.k]);
      after := held[..op.k] + held[op.k + 1..];
    }
  }

  /** Over every run the blocks held are distinct, and the slabs are as many as the run's peak requires. */
  method RunPool(base: nat, size: int, ops: seq<Op>) returns (pool: Pool, held: seq<Block>, n: nat)
    requires base > 0
    ensures pool.Valid() && Holds(held, pool.live) && |held| == Counts(ops).0
    ensures n == Max(1, (Counts(ops).1 + base - 1) / base)
  {
    pool := new Pool(base, size);
    held := [];
    for i := 0 to |ops|
      invariant pool.Valid() && pool.plain && fresh(pool.repr) && pool.baseNum == base
      invariant Holds(held, pool.live) && |held| == Counts(ops[..i]).0 && pool.peak == Counts(ops[..i]).1
    {
      assert ops[..i + 1][..i] == ops[..i];
      held := Perform(pool, held, ops[i]);
    }
    assert ops[..|ops|] == ops;
    n := pool.NodeNum();
  }
}
