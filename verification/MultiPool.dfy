/**
 The pool of pools of `multipool.c`: one type pool per block length. The first byte of a claimed block is a signed
 character naming the pool it came from, by which a reclaimed block finds its way back.
 */
module MultiPool {
  import opened Wrappers
  import opened TypePool

  /** Conversion to a C `char`. */
  function SignedChar(x: int): (c: int)
    ensures -128 <= c < 128 && (c == x <==> -128 <= x < 128)
  {
    (x + 128) % 256 - 128
  }

  class Pools {
    const pools: seq<Pool>
    const lens: seq<int>
    /** The first byte of each block handed out. */
    var header: map<Block, int>
    ghost var repr: set<object>

    /** The pools are intact, share nothing, and hold blocks of the lengths configured. */
    ghost predicate Framed()
      reads this, repr
    {
      && this in repr && |pools| == |lens|
      && (forall i | 0 <= i < |pools| ::
            && pools[i] in repr && pools[i] in pools[i].repr && pools[i].repr <= repr && this !in pools[i].repr
            && pools[i].Valid() && pools[i].elementSize == lens[i] + 1)
      && (forall i, j | 0 <= i < |pools| && 0 <= j < |pools| && i != j :: pools[i].repr !! pools[j].repr)
    }

    /** Every live block is marked with the number of its pool. */
    ghost predicate Marked()
      reads this, pools
    {
      forall i, b | 0 <= i < |pools| && b in pools[i].live :: b in header && header[b] == SignedChar(i)
    }

    /** The live blocks of each pool. */
    ghost function Lives(): seq<set<Block>>
      reads this, pools
    {
      seq(|pools|, i requires 0 <= i < |pools| reads pools => pools[i].live)
    }

    ghost predicate Valid()
      reads this, pools, repr
    {
      Framed() && Marked()
    }

    constructor (nums: seq<nat>, sizes: seq<int>, add: int)
      requires |nums| == |sizes|
      ensures Valid() && fresh(repr) && |pools| == |nums|
      ensures forall i | 0 <= i < |nums| ::
        pools[i].baseNum == nums[i] && lens[i] == sizes[i] + add && pools[i].live == {} && pools[i].plain
    {
      var all: seq<int> := [];
      for i := 0 to |sizes|
        invariant |all| == i && forall j | 0 <= j < i :: all[j] == sizes[j] + add
      {
        all := all + [sizes[i] + add];
      }
      var made: seq<Pool> := [];
      ghost var owned: set<object> := {};
      for i := 0 to |nums|
        invariant |made| == i && fresh(owned)
        invariant forall j | 0 <= j < i ::
          && made[j] in owned && made[j].repr <= owned && made[j].Valid() && fresh(made[j].repr)
          && made[j].baseNum == nums[j] && made[j].elementSize == all[j] + 1 && made[j].live == {} && made[j].plain
        invariant forall j, k | 0 <= j < k < i :: made[j].repr !! made[k].repr
      {
        var pool := new Pool(nums[i], all[i] + 1);
        owned := owned + pool.repr;
        made := made + [pool];
      }
      pools := made;
      lens := all;
      header := map[];
      repr := owned + {this};
    }

    /** A live block of pool i is not live in any other. */
    lemma Apart(i: nat, b: Block)
      requires Framed() && i < |pools| && b in pools[i].live
      ensures forall j | 0 <= j < |pools| && j != i :: b !in pools[j].live
    {
      hide Pool.Valid;
      pools[i].LiveOwned();
      forall j | 0 <= j < |pools| && j != i && b in pools[j].live
        ensures false
      {
        pools[j].LiveOwned();
      }
    }

    method Draw(i: nat) returns (r: Option<Block>)
      requires Framed() && i < |pools|
      modifies repr
      ensures Framed() && fresh(repr - old(repr)) && header == old(header)
      ensures forall j | 0 <= j < |pools| && j != i :: pools[j].live == old(pools[j].live)
      ensures r.None? ==> pools[i].live == old(pools[i].live)
      ensures r.None? <==> pools[i].baseNum == 0 && |old(pools[i].live)| == Capacity(old(pools[i].slabs))
      ensures r.Some? ==> r.value !in old(pools[i].live) && pools[i].live == old(pools[i].live) + {r.value}
    {
      hide Pool.Valid;
      r := pools[i].Claim();
      pools[i].LiveOwned();
      repr := repr + pools[i].repr;
    }

    /** Claims from pool i and marks the block; no other pool changes. */
    method ClaimFrom(i: nat) returns (r: Option<Block>)
      requires Valid() && i < |pools|
      modifies repr
      ensures Valid() && fresh(repr - old(repr))
      ensures forall j | 0 <= j < |pools| && j != i :: pools[j].live == old(pools[j].live)
      ensures r.None? ==> pools[i].live == old(pools[i].live)
      ensures r.None? <==> pools[i].baseNum == 0 && |old(pools[i].live)| == Capacity(old(pools[i].slabs))
      ensures r.Some? ==> r.value !in old(pools[i].live) && pools[i].live == old(pools[i].live) + {r.value}
    {
      hide Pool.Valid;
      r := Draw(i);
      if r.Some? {
        Apart(i, r.value);
        header := header[r.value := SignedChar(i)];
      }
    }

    /** Claims by pool number; a number out of range gets nothing. */
    method Claim(poolIndex: int) returns (r: Option<Block>)
      requires Valid()
      modifies repr
      ensures Valid() && fresh(repr - old(repr))
      ensures !(0 <= poolIndex < |pools|) ==> r.None?
      ensures forall j | 0 <= j < |pools| && j != poolIndex :: pools[j].live == old(pools[j].live)
      ensures 0 <= poolIndex < |pools| ==>
        && (r.None? <==>
             pools[poolIndex].baseNum == 0 && |old(pools[poolIndex].live)| == Capacity(old(pools[poolIndex].slabs)))
        && (r.None? ==> pools[poolIndex].live == old(pools[poolIndex].live))
        && (r.Some? ==>
             r.value !in old(pools[poolIndex].live) && pools[poolIndex].live == old(pools[poolIndex].live) + {r.value})
    {
      hide Framed, Marked;
      r := None;
      if 0 <= poolIndex < |pools| {
        r := ClaimFrom(poolIndex);
      }
    }

    /**
     Claims by length, from the first pool whose blocks are long enough; i is that pool. The number of pools is read
     as a `char`, so that only pools below that are tried: none at all when there are 128 to 255 of them.
     */
    method LenClaim(len: int) returns (r: Option<Block>, i: nat)
      requires Valid()
      modifies repr
      ensures Valid() && fresh(repr - old(repr))
      ensures forall j | 0 <= j < i && j < SignedChar(|pools|) :: lens[j] < len
      ensures i >= SignedChar(|pools|) ==> r.None? && forall j | 0 <= j < |pools| :: pools[j].live == old(pools[j].live)
      ensures i < SignedChar(|pools|) ==>
        && i < |pools| && pools[i].elementSize - 1 == lens[i] >= len
        && (r.None? <==> pools[i].baseNum == 0 && |old(pools[i].live)| == Capacity(old(pools[i].slabs)))
        && (r.None? ==> pools[i].live == old(pools[i].live))
        && (r.Some? ==> r.value !in old(pools[i].live) && pools[i].live == old(pools[i].live) + {r.value})
        && forall j | 0 <= j < |pools| && j != i :: pools[j].live == old(pools[j].live)
    {
      hide Pool.Valid, Marked;
      r, i := None, 0;
      var max := SignedChar(|pools|);
      CharBelow(|pools|);
      while i < max
        invariant forall j | 0 <= j < i && j < max :: lens[j] < len
      {
        if lens[i] >= len {
          break;
        }
        i := i + 1;
      }
      if i < max {
        r := ClaimFrom(i);
      }
    }

    /** A block of pool i goes back to pool i: its mark is i exactly when i is at most 127. */
    method Reclaim(b: Block, ghost i: nat)
      requires Valid() && i < |pools| && b in pools[i].live && i <= 127
      modifies repr
      ensures Valid() && repr == old(repr)
      ensures pools[i].live == old(pools[i].live) - {b}
      ensures forall j | 0 <= j < |pools| && j != i :: pools[j].live == old(pools[j].live)
    {
      var index := header[b];
      PutBack(index, b);
    }

    method PutBack(i: nat, b: Block)
      requires Valid() && i < |pools| && b in pools[i].live
      modifies pools[i].repr
      ensures Valid() && repr == old(repr)
      ensures pools[i].live == old(pools[i].live) - {b}
      ensures forall j | 0 <= j < |pools| && j != i :: pools[j].live == old(pools[j].live)
    {
      hide Pool.Valid;
      pools[i].LiveOwned();
      pools[i].Reclaim(b);
    }

    /** The configured length of a live block of pool i, if its mark is i. */
    method ConfigLen(b: Block, ghost i: nat) returns (len: int)
      requires Valid() && i < |pools| && b in pools[i].live
      ensures i <= 127 ==> len == lens[i]
      ensures 127 < i < 256 ==> len == -1
    {
      len := -1;
      var index := header[b];
      if 0 <= index < |pools| {
        len := lens[index];
      }
    }
  }

  lemma CharBelow(n: nat)
    ensures SignedChar(n) <= n
  {
  }

  // ----- whole runs -----

  datatype Op = ClaimAt(poolIndex: int) | ClaimLen(len: int) | Release(k: nat)

  /** A block held by the caller, the pool it came from and the length asked for. */
  datatype Held = Held(block: Block, origin: nat, asked: int)

  /** The live blocks of each pool are exactly those held from it; they are distinct and long enough. */
  ghost predicate Accounts(lives: seq<set<Block>>, lens: seq<int>, held: seq<Held>) {
    && |lens| == |lives|
    && (forall h | h in held :: h.origin < |lives| && h.block in lives[h.origin] && h.asked <= lens[h.origin])
    && (forall i, b | 0 <= i < |lives| && b in lives[i] :: exists h :: h in held && h.block == b && h.origin == i)
    && (forall j, k | 0 <= j < k < |held| :: held[j].block != held[k].block)
  }

  /** Claiming a block that no pool has handed out keeps the accounts. */
  lemma Gained(lives: seq<set<Block>>, lens: seq<int>, held: seq<Held>, h: Held)
    requires Accounts(lives, lens, held) && h.origin < |lives| && h.asked <= lens[h.origin]
    requires forall j | 0 <= j < |lives| :: h.block !in lives[j]
    ensures Accounts(lives[h.origin := lives[h.origin] + {h.block}], lens, held + [h])
  {
    var after := lives[h.origin := lives[h.origin] + {h.block}];
    assert h in held + [h];
    assert forall x | x in held :: x in held + [h];
    forall k | 0 <= k < |held|
      ensures held[k].block != h.block
    {
      assert held[k] in held;
    }
    forall i, b | 0 <= i < |after| && b in after[i]
      ensures exists x :: x in held + [h] && x.block == b && x.origin == i
    {
      if b in lives[i] {
        var x :| x in held && x.block == b && x.origin == i;
        assert x in held + [h];
      }
    }
  }

  lemma RestOf(held: seq<Held>, k: nat)
    requires k < |held| && forall i, j | 0 <= i < j < |held| :: held[i].block != held[j].block
    ensures var rest := held[..k] + held[k + 1..];
      && (forall h :: h in rest <==> h in held && h != held[k])
      && (forall h | h in rest :: h.block != held[k].block)
      && forall i, j | 0 <= i < j < |rest| :: rest[i].block != rest[j].block
  {
    var rest := held[..k] + held[k + 1..];
    forall h | h in held && h != held[k]
      ensures h in rest
    {
      var n :| 0 <= n < |held| && held[n] == h;
      assert rest[if n < k then n else n - 1] == h;
    }
    forall h | h in rest
      ensures h in held && h.block != held[k].block
    {
      var n :| 0 <= n < |rest| && rest[n] == h;
      assert held[if n < k then n else n + 1] == h;
    }
  }

  /** Releasing the k-th block held keeps the accounts. */
  lemma Lost(lives: seq<set<Block>>, lens: seq<int>, held: seq<Held>, k: nat)
    requires Accounts(lives, lens, held) && k < |held|
    ensures held[k].origin < |lives| && held[k].block in lives[held[k].origin]
    ensures var o := held[k].origin;
      Accounts(lives[o := lives[o] - {held[k].block}], lens, held[..k] + held[k + 1..])
  {
    assert held[k] in held;
    RestOf(held, k);
    var o := held[k].origin;
    var after := lives[o := lives[o] - {held[k].block}];
    var rest := held[..k] + held[k + 1..];
    forall i, b | 0 <= i < |after| && b in after[i]
      ensures exists h :: h in rest && h.block == b && h.origin == i
    {
      assert b in lives[i];
      var h :| h in held && h.block == b && h.origin == i;
    }
  }

  /** The first pool whose blocks are long enough. */
  function FirstFit(lens: seq<int>, len: int): (i: nat)
    ensures i <= |lens| && (forall j | 0 <= j < i :: lens[j] < len) && (i < |lens| ==> lens[i] >= len)
  {
    if lens == [] || lens[0] >= len then 0 else 1 + FirstFit(lens[1..], len)
  }

  /** What a caller is owed: the pool and the length asked for of each block it holds. */
  function Owed(lens: seq<int>, owed: seq<(nat, int)>, op: Op): seq<(nat, int)> {
    match op
    case ClaimAt(i) => if 0 <= i < |lens| then owed + [(i, lens[i])] else owed
    case ClaimLen(len) => if FirstFit(lens, len) < |lens| then owed + [(FirstFit(lens, len), len)] else owed
    case Release(k) => if k < |owed| then owed[..k] + owed[k + 1..] else owed
  }

  function OwedAfter(lens: seq<int>, ops: seq<Op>): seq<(nat, int)> {
    if ops == [] then [] else Owed(lens, OwedAfter(lens, ops[..|ops| - 1]), ops[|ops| - 1])
  }

  function Owing(held: seq<Held>): (r: seq<(nat, int)>)
    ensures |r| == |held| && forall k | 0 <= k < |held| :: r[k] == (held[k].origin, held[k].asked)
  {
    seq(|held|, k requires 0 <= k < |held| => (held[k].origin, held[k].asked))
  }

  /** No pool is made without blocks. */
  ghost predicate Stocked(p: Pools) {
    forall i | 0 <= i < |p.pools| :: p.pools[i].baseNum > 0
  }

  method Perform(p: Pools, held: seq<Held>, op: Op) returns (after: seq<Held>)
    requires p.Valid() && |p.pools| <= 127 && Accounts(p.Lives(), p.lens, held) && Stocked(p)
    modifies p.repr
    ensures p.Valid() && fresh(p.repr - old(p.repr)) && Accounts(p.Lives(), p.lens, after)
    ensures Owing(after) == Owed(p.lens, Owing(held), op)
  {
    hide Pools.Framed, Pools.Marked, Accounts;
    after := held;
    match op
    case ClaimAt(i) =>
      after := PerformClaimAt(p, held, i);
    case ClaimLen(len) =>
      after := PerformClaimLen(p, held, len);
    case Release(k) =>
      if k < |held| {
        Lost(p.Lives(), p.lens, held, k);
        p.Reclaim(held[k].block, held[k].origin);
        after := held[..k] + held[k + 1..];
        assert p.Lives() == old(p.Lives())[held[k].origin := old(p.Lives())[held[k].origin] - {held[k].block}];
      }
  }

  method PerformClaimAt(p: Pools, held: seq<Held>, i: int) returns (after: seq<Held>)
    requires p.Valid() && Accounts(p.Lives(), p.lens, held) && Stocked(p)
    modifies p.repr
    ensures p.Valid() && fresh(p.repr - old(p.repr)) && Accounts(p.Lives(), p.lens, after)
    ensures Owing(after) == Owed(p.lens, Owing(held), ClaimAt(i))
  {
    hide Pools.Framed, Pools.Marked;
    after := held;
    var r := p.Claim(i);
    if r.Some? {
      var h := Held(r.value, i, p.lens[i]);
      after := held + [h];
      p.Apart(i, r.value);
      Gained(old(p.Lives()), p.lens, held, h);
      assert p.Lives() == old(p.Lives())[i := old(p.Lives())[i] + {r.value}];
    } else {
      assert p.Lives() == old(p.Lives());
    }
  }

  method PerformClaimLen(p: Pools, held: seq<Held>, len: int) returns (after: seq<Held>)
    requires p.Valid() && |p.pools| <= 127 && Accounts(p.Lives(), p.lens, held) && Stocked(p)
    modifies p.repr
    ensures p.Valid() && fresh(p.repr - old(p.repr)) && Accounts(p.Lives(), p.lens, after)
    ensures Owing(after) == Owed(p.lens, Owing(held), ClaimLen(len))
  {
    hide Pools.Framed, Pools.Marked, Accounts, FirstFit;
    SameLength(p);
    after := held;
    var r, i := p.LenClaim(len);
    FitIs(p.lens, len, i);
    if r.Some? {
      var h := Held(r.value, i, len);
      after := held + [h];
      p.Apart(i, r.value);
      Gained(old(p.Lives()), p.lens, held, h);
      assert p.Lives() == old(p.Lives())[i := old(p.Lives())[i] + {r.value}];
    } else {
      assert p.Lives() == old(p.Lives());
    }
  }

  lemma SameLength(p: Pools)
    requires p.Valid()
    ensures |p.lens| == |p.pools|
  {
  }

  lemma FitIs(lens: seq<int>, len: int, i: nat)
    requires forall j | 0 <= j < i && j < |lens| :: lens[j] < len
    ensures i < |lens| && lens[i] >= len ==> FirstFit(lens, len) == i
    ensures i >= |lens| ==> FirstFit(lens, len) == |lens|
  {
  }

  /** Over every run of at most 127 pools, blocks go back where they came from and stay distinct and long enough. */
  method RunPools(nums: seq<nat>, sizes: seq<int>, add: int, ops: seq<Op>) returns (p: Pools, held: seq<Held>)
    requires |nums| == |sizes| <= 127 && forall i | 0 <= i < |nums| :: nums[i] > 0
    ensures p.Valid() && Accounts(p.Lives(), p.lens, held) && Owing(held) == OwedAfter(p.lens, ops)
    ensures |p.lens| == |sizes| && forall i | 0 <= i < |sizes| :: p.lens[i] == sizes[i] + add
  {
    p := new Pools(nums, sizes, add);
    held := [];
    for i := 0 to |ops|
      invariant p.Valid() && fresh(p.repr) && |p.pools| == |nums| && Stocked(p) && Accounts(p.Lives(), p.lens, held)
      invariant Owing(held) == OwedAfter(p.lens, ops[..i])
    {
      assert ops[..i + 1][..i] == ops[..i];
      held := Perform(p, held, ops[i]);
    }
    assert ops[..|ops|] == ops;
  }
}
