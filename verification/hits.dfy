/**
 * The pipeline every scanner plugin shares: the generic scanner keeps the pool hits whose
 * header passes the kind's check list, `IterObject` lists the object bodies inside each kept
 * block, and the plugin keeps the bodies its own filter admits.
 */
module Hits {
  import opened Pool
  import opened Sequences

  /**
   * A pool block the generic scanner located, with the object bodies `IterObject` finds in it
   * (one block may host several), already resolved into records of type `T`.
   */
  datatype PoolHit<T> = PoolHit(header: PoolHeader, objects: seq<T>)

  /** One object body together with the pool block it was found in: what a scanner yields. */
  datatype Found<T> = Found(pool: PoolHeader, obj: T)

  /** `f` is one of the bodies of some block in `hits`, paired with that block's header. */
  predicate FoundIn<T(==)>(f: Found<T>, hits: seq<PoolHit<T>>)
  {
    exists h :: h in hits && f.pool == h.header && f.obj in h.objects
  }

  /** Every body of one block, paired with the block's header, in `IterObject` order. */
  function Attach<T(==,!new)>(pool: PoolHeader, objects: seq<T>): (r: seq<Found<T>>)
    ensures |r| == |objects|
    ensures forall i :: 0 <= i < |r| ==> r[i] == Found(pool, objects[i])
    ensures forall f :: f in r <==> f.pool == pool && f.obj in objects
  {
    if |objects| == 0 then []
    else [Found(pool, objects[0])] + Attach(pool, objects[1..])
  }

  /** The nested loop "for each block, for each body in it", flattened. */
  function Pairs<T(==,!new)>(hits: seq<PoolHit<T>>): (r: seq<Found<T>>)
    ensures forall f :: f in r <==> FoundIn(f, hits)
  {
    if |hits| == 0 then []
    else
      assert forall h :: h in hits <==> h == hits[0] || h in hits[1..];
      Attach(hits[0].header, hits[0].objects) + Pairs(hits[1..])
  }

  /** Flattening respects deletion: dropping blocks drops exactly their bodies, order kept. */
  lemma {:induction false} PairsMonotone<T(!new)>(a: seq<PoolHit<T>>, b: seq<PoolHit<T>>)
    requires IsSubsequence(a, b)
    ensures IsSubsequence(Pairs(a), Pairs(b))
    decreases |b|
  {
    if |a| != 0 {
      if a[0] == b[0] && IsSubsequence(a[1..], b[1..]) {
        PairsMonotone(a[1..], b[1..]);
        SubsequencePrefix(Attach(a[0].header, a[0].objects), Pairs(a[1..]), Pairs(b[1..]));
      } else {
        PairsMonotone(a, b[1..]);
        SubsequenceExtend(Attach(b[0].header, b[0].objects), Pairs(a), Pairs(b[1..]));
      }
    }
  }

  /** The generic scanner: the pool hits whose header passes every check, in scan order. */
  function Scan<T(==,!new)>(checks: seq<Check>, hits: seq<PoolHit<T>>): (r: seq<PoolHit<T>>)
    ensures forall h :: h in r <==> h in hits && Accepts(checks, h.header)
    ensures IsSubsequence(r, hits)
  {
    Filter((h: PoolHit<T>) => Accepts(checks, h.header), hits)
  }

  /** Every body of every accepted block: `for pool_obj in scanner.scan(): for o in pool_obj.IterObject(...)`. */
  function Objects<T(==,!new)>(checks: seq<Check>, hits: seq<PoolHit<T>>): (r: seq<Found<T>>)
    ensures forall f :: f in r <==> Accepts(checks, f.pool) && FoundIn(f, hits)
    ensures IsSubsequence(r, Pairs(hits))
  {
    PairsMonotone(Scan(checks, hits), hits);
    Pairs(Scan(checks, hits))
  }

  /**
   * A scanner plugin's hits: the bodies of accepted blocks that its own filter `keep` admits.
   * Sound and complete with respect to the three conditions, in scan order, and so in ascending
   * block offset whenever the generic scanner yields blocks in ascending offset.
   */
  function ScanKind<T(==,!new)>(checks: seq<Check>, keep: T -> bool, hits: seq<PoolHit<T>>): (r: seq<Found<T>>)
    ensures forall f :: f in r <==> keep(f.obj) && Accepts(checks, f.pool) && FoundIn(f, hits)
    ensures IsSubsequence(r, Pairs(hits))
    ensures NondecreasingBy(HeaderOffset<T>, hits) ==> NondecreasingBy(PoolOffset<T>, r)
  {
    var objects := Objects(checks, hits);
    var kept := Filter((f: Found<T>) => keep(f.obj), objects);
    SubsequenceTransitive(kept, objects, Pairs(hits));
    assert NondecreasingBy(HeaderOffset<T>, hits) ==> NondecreasingBy(PoolOffset<T>, kept) by {
      if NondecreasingBy(HeaderOffset<T>, hits) {
        PairsKeepOffsetOrder(hits);
        SubsequenceKeepsOrder(PoolOffset<T>, kept, Pairs(hits));
      }
    }
    kept
  }

  /** The offset of a pool block, and of the block a body was found in: the scanners' ordering keys. */
  function HeaderOffset<T>(h: PoolHit<T>): int
  {
    h.header.offset
  }

  function PoolOffset<T>(f: Found<T>): int
  {
    f.pool.offset
  }

  /** Flattening blocks that arrive in offset order yields bodies in offset order of their blocks. */
  lemma {:induction false} PairsKeepOffsetOrder<T(!new)>(hits: seq<PoolHit<T>>)
    requires NondecreasingBy(HeaderOffset<T>, hits)
    ensures NondecreasingBy(PoolOffset<T>, Pairs(hits))
  {
    if |hits| != 0 {
      var tail := hits[1..];
      assert NondecreasingBy(HeaderOffset<T>, tail) by {
        forall i, j | 0 <= i < j < |tail|
          ensures HeaderOffset(tail[i]) <= HeaderOffset(tail[j])
        {
          assert tail[i] == hits[i + 1] && tail[j] == hits[j + 1];
        }
      }
      PairsKeepOffsetOrder(tail);
      var front := Attach(hits[0].header, hits[0].objects);
      var rest := Pairs(tail);
      var all := Pairs(hits);
      assert all == front + rest;
      forall i, j | 0 <= i < j < |all|
        ensures PoolOffset(all[i]) <= PoolOffset(all[j])
      {
        if j < |front| {
          assert all[i] == front[i] && all[j] == front[j];
        } else if i < |front| {
          assert all[i] == front[i];
          assert all[j] == rest[j - |front|];
          assert rest[j - |front|] in rest;
          var h :| h in tail && all[j].pool == h.header && all[j].obj in h.objects;
          var k :| 0 <= k < |tail| && tail[k] == h;
          assert hits[k + 1] == h;
        } else {
          assert all[i] == rest[i - |front|] && all[j] == rest[j - |front|];
        }
      }
    }
  }
}
