// The decorative butterflies spawned by clicks: the record, the random
// variant draw, and the filter that removes one butterfly when it expires.
module Butterflies {

  /** One spawned butterfly: its id, the click's viewport coordinates, and its image variant. */
  datatype Butterfly = Butterfly(id: nat, x: int, y: int, kind: nat)

  /** Number of butterfly image variants. */
  const KindCount: nat := 3

  /** `Math.floor(random * 3)` for a draw `random` of `Math.random()`, which lies in [0, 1). */
  function ButterflyKind(random: real): (k: nat)
    requires 0.0 <= random < 1.0
    ensures k < KindCount
  {
    (random * 3.0).Floor
  }

  /** In real arithmetic, variant k is drawn exactly on [k/3, (k+1)/3). */
  lemma ButterflyKindRange(random: real, k: nat)
    requires 0.0 <= random < 1.0
    ensures ButterflyKind(random) == k <==> k as real / 3.0 <= random < (k + 1) as real / 3.0
  {
  }

  /** Ids are strictly increasing along the list (so also pairwise distinct). */
  predicate IncreasingIds(bs: seq<Butterfly>)
  {
    forall i, j :: 0 <= i < j < |bs| ==> bs[i].id < bs[j].id
  }

  /** Every id in the list is below `bound` (the next id the counter will hand out). */
  predicate IdsBelow(bs: seq<Butterfly>, bound: nat)
  {
    forall b :: b in bs ==> b.id < bound
  }

  /** Some butterfly in the list carries `id`. */
  predicate HasId(bs: seq<Butterfly>, id: nat)
  {
    exists k :: 0 <= k < |bs| && bs[k].id == id
  }

  /** The ids of the list, in list order. */
  function Ids(bs: seq<Butterfly>): seq<nat>
  {
    seq(|bs|, k requires 0 <= k < |bs| => bs[k].id)
  }

  /** `bs.filter(b => b.id !== id)`. */
  function WithoutId(bs: seq<Butterfly>, id: nat): (r: seq<Butterfly>)
    ensures |r| <= |bs|
    ensures forall k :: 0 <= k < |r| ==> r[k].id != id
  {
    if bs == [] then []
    else (if bs[0].id == id then [] else [bs[0]]) + WithoutId(bs[1..], id)
  }

  /** The survivors of the filter are exactly the butterflies whose id differs from `id`. */
  lemma {:induction false} WithoutIdMembers(bs: seq<Butterfly>, id: nat, b: Butterfly)
    ensures b in WithoutId(bs, id) <==> b in bs && b.id != id
  {
    if bs != [] {
      assert bs == [bs[0]] + bs[1..];
      WithoutIdMembers(bs[1..], id, b);
    }
  }

  /** Filtering distributes over concatenation: it keeps the relative order of the survivors. */
  lemma {:induction false} WithoutIdAppend(bs: seq<Butterfly>, cs: seq<Butterfly>, id: nat)
    ensures WithoutId(bs + cs, id) == WithoutId(bs, id) + WithoutId(cs, id)
  {
    if bs == [] {
      assert bs + cs == cs;
    } else {
      assert (bs + cs)[0] == bs[0] && (bs + cs)[1..] == bs[1..] + cs;
      WithoutIdAppend(bs[1..], cs, id);
    }
  }

  /** Removing an id that is not in the list leaves the list unchanged. */
  lemma {:induction false} WithoutIdAbsent(bs: seq<Butterfly>, id: nat)
    requires !HasId(bs, id)
    ensures WithoutId(bs, id) == bs
  {
    if bs != [] {
      assert !HasId(bs[1..], id) by {
        forall k | 0 <= k < |bs| - 1 ensures bs[1..][k].id != id {
          assert bs[1..][k] == bs[k + 1];
        }
      }
      WithoutIdAbsent(bs[1..], id);
    }
  }

  /** Filtering out the id of the entry at position `i`, carried by no other entry, leaves the entries around it. */
  lemma {:induction false} WithoutIdSplice(bs: seq<Butterfly>, i: nat)
    requires i < |bs|
    requires !HasId(bs[..i], bs[i].id) && !HasId(bs[i + 1..], bs[i].id)
    ensures WithoutId(bs, bs[i].id) == bs[..i] + bs[i + 1..]
  {
    var id, tail := bs[i].id, bs[1..];
    if i == 0 {
      assert tail == bs[i + 1..];
      WithoutIdAbsent(tail, id);
    } else {
      assert bs[..i][0] == bs[0];
      assert tail[i - 1] == bs[i] && tail[i..] == bs[i + 1..];
      var before, shorter := bs[..i], tail[..i - 1];
      forall k | 0 <= k < |shorter| ensures shorter[k].id != id {
        assert shorter[k] == before[k + 1];
      }
      WithoutIdSplice(tail, i - 1);
      assert bs[..i] == [bs[0]] + tail[..i - 1];
    }
  }

  /** With distinct ids, expiring the butterfly at position `i` removes exactly that entry. */
  lemma WithoutIdAt(bs: seq<Butterfly>, i: nat)
    requires IncreasingIds(bs) && i < |bs|
    ensures WithoutId(bs, bs[i].id) == bs[..i] + bs[i + 1..]
  {
    IdAbsentBefore(bs, i);
    IdAbsentAfter(bs, i);
    WithoutIdSplice(bs, i);
  }

  lemma IdAbsentBefore(bs: seq<Butterfly>, i: nat)
    requires IncreasingIds(bs) && i < |bs|
    ensures !HasId(bs[..i], bs[i].id)
  {
  }

  lemma IdAbsentAfter(bs: seq<Butterfly>, i: nat)
    requires IncreasingIds(bs) && i < |bs|
    ensures !HasId(bs[i + 1..], bs[i].id)
  {
  }

  lemma TailIncreasing(bs: seq<Butterfly>)
    requires IncreasingIds(bs) && bs != []
    ensures IncreasingIds(bs[1..])
  {
  }

  lemma PrependKeepsIncreasing(b: Butterfly, bs: seq<Butterfly>)
    requires IncreasingIds(bs)
    requires forall k :: 0 <= k < |bs| ==> b.id < bs[k].id
    ensures IncreasingIds([b] + bs)
  {
  }

  /** Expiry keeps the ids of the remaining butterflies strictly increasing. */
  lemma {:induction false} WithoutIdKeepsIncreasing(bs: seq<Butterfly>, id: nat)
    requires IncreasingIds(bs)
    ensures IncreasingIds(WithoutId(bs, id))
  {
    if bs != [] {
      var tail := bs[1..];
      var rest := WithoutId(tail, id);
      TailIncreasing(bs);
      WithoutIdKeepsIncreasing(tail, id);
      if bs[0].id != id {
        forall k | 0 <= k < |rest| ensures bs[0].id < rest[k].id {
          WithoutIdMembers(tail, id, rest[k]);
          var m :| 0 <= m < |tail| && tail[m] == rest[k];
          assert tail[m] == bs[m + 1];
        }
        PrependKeepsIncreasing(bs[0], rest);
      }
    }
  }

  /** Appending a butterfly whose id is the counter keeps the ids increasing and below the new counter. */
  lemma AppendFreshKeepsIncreasing(bs: seq<Butterfly>, counter: nat, b: Butterfly)
    requires IncreasingIds(bs) && IdsBelow(bs, counter) && b.id == counter
    ensures IncreasingIds(bs + [b]) && IdsBelow(bs + [b], counter + 1)
  {
  }
}
