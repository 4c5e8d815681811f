/** The QoS profile that the bridge requests for a subscription. */
module Qos {
  import opened Common

  /** The largest `max_qos_depth` that the parameter accepts. */
  const MAX_QOS_DEPTH := 0x7fff_ffff

  datatype Reliability = Reliable | BestEffort | OtherReliability

  datatype Durability = TransientLocal | Volatile | OtherDurability

  datatype Offer = Offer(reliability: Reliability, durability: Durability, depth: nat)

  datatype Request = Request(reliable: bool, transientLocal: bool, depth: nat)

  /** Request and offer (OMG DDS 1.4, sections 2.2.3.4 and 2.2.3.14). */
  predicate Compatible(reliable: bool, transientLocal: bool, offer: Offer) {
    (reliable ==> offer.reliability.Reliable?) && (transientLocal ==> offer.durability.TransientLocal?)
  }

  ghost predicate CompatibleWithAll(reliable: bool, transientLocal: bool, offers: seq<Offer>) {
    forall o | o in offers :: Compatible(reliable, transientLocal, o)
  }

  function Min(a: nat, b: nat): nat {
    if a < b then a else b
  }

  function Max(a: nat, b: nat): nat {
    if a < b then b else a
  }

  function Sum(ds: seq<nat>): nat {
    if ds == [] then 0 else Sum(ds[..|ds| - 1]) + ds[|ds| - 1]
  }

  /** The running depth: each addition is one of `size_t`, then clamped. */
  function Clamped(maxDepth: nat, ds: seq<nat>): (d: nat)
    ensures d <= maxDepth
  {
    if ds == [] then 0
    else Min(maxDepth, (Clamped(maxDepth, ds[..|ds| - 1]) + ds[|ds| - 1]) % LONG_SPACE)
  }

  function Depths(offers: seq<Offer>): (ds: seq<nat>)
    ensures |ds| == |offers|
  {
    seq(|offers|, i requires 0 <= i < |offers| => offers[i].depth)
  }

  /** At least as strong as every profile that all publishers satisfy, and one of them. */
  ghost predicate Strongest(qos: Request, offers: seq<Offer>) {
    && CompatibleWithAll(qos.reliable, qos.transientLocal, offers)
    && forall r, t | CompatibleWithAll(r, t, offers) :: (r ==> qos.reliable) && (t ==> qos.transientLocal)
  }

  /**
   The strongest combination that every publisher's offer satisfies, and the clamped depth, at
   least 1.
   */
  method SelectQos(offers: seq<Offer>, maxDepth: nat) returns (qos: Request)
    ensures Strongest(qos, offers)
    ensures qos.reliable <==> forall o | o in offers :: o.reliability == Reliable
    ensures qos.transientLocal <==> forall o | o in offers :: o.durability == TransientLocal
    ensures qos.depth >= 1
    ensures qos.depth == Max(Clamped(maxDepth, Depths(offers)), 1)
  {
    var depth, reliableCount, transientLocalCount := 0, 0, 0;
    var i := 0;
    while i < |offers|
      invariant 0 <= i <= |offers|
      invariant depth == Clamped(maxDepth, Depths(offers)[..i])
      invariant 0 <= reliableCount <= i && 0 <= transientLocalCount <= i
      invariant reliableCount == i <==> forall k | 0 <= k < i :: offers[k].reliability.Reliable?
      invariant transientLocalCount == i
                <==> forall k | 0 <= k < i :: offers[k].durability.TransientLocal?
    {
      if offers[i].reliability == Reliable {
        reliableCount := reliableCount + 1;
      }
      if offers[i].durability == TransientLocal {
        transientLocalCount := transientLocalCount + 1;
      }
      assert Depths(offers)[..i + 1][..i] == Depths(offers)[..i];
      depth := Min(maxDepth, (depth + offers[i].depth) % LONG_SPACE);
      i := i + 1;
    }
    assert Depths(offers)[..i] == Depths(offers);
    qos := Request(reliableCount == |offers|, transientLocalCount == |offers|, Max(depth, 1));
    forall r, t | CompatibleWithAll(r, t, offers)
      ensures (r ==> qos.reliable) && (t ==> qos.transientLocal)
    {
      assert forall k | 0 <= k < |offers| :: offers[k] in offers;
    }
  }

  ghost predicate Bounded(ds: seq<nat>, bound: nat) {
    forall d | d in ds :: d <= bound
  }

  /** Without a wrap-around, clamping at every step is clamping the sum. */
  lemma {:induction false} ClampedIsSum(maxDepth: nat, ds: seq<nat>, bound: nat)
    requires Bounded(ds, bound) && maxDepth + bound < LONG_SPACE
    ensures Clamped(maxDepth, ds) == Min(maxDepth, Sum(ds))
    decreases |ds|
  {
    if ds != [] {
      var n := |ds| - 1;
      assert ds[n] in ds && forall d | d in ds[..n] :: d in ds;
      ClampedIsSum(maxDepth, ds[..n], bound);
      var c := Clamped(maxDepth, ds[..n]);
      NoWrap(c + ds[n]);
      assert Clamped(maxDepth, ds) == Min(maxDepth, c + ds[n]);
    }
  }

  lemma NoWrap(x: nat)
    requires x < LONG_SPACE
    ensures x % LONG_SPACE == x
  {}

  /**
   For publisher depths up to `bound`, the depth is the clamped sum for every list of publishers
   exactly when no addition can wrap around (or the maximum is at most 1).
   */
  lemma DepthExactIff(maxDepth: nat, bound: nat)
    requires maxDepth <= MAX_QOS_DEPTH && bound < LONG_SPACE
    ensures (forall ds: seq<nat> | Bounded(ds, bound) ::
               Max(Clamped(maxDepth, ds), 1) == Max(Min(maxDepth, Sum(ds)), 1))
            <==> maxDepth <= 1 || maxDepth + bound < LONG_SPACE
  {
    if maxDepth <= 1 {
    } else if maxDepth + bound < LONG_SPACE {
      forall ds: seq<nat> | Bounded(ds, bound)
        ensures Max(Clamped(maxDepth, ds), 1) == Max(Min(maxDepth, Sum(ds)), 1)
      {
        ClampedIsSum(maxDepth, ds, bound);
      }
    } else {
      WrapLosesDepth(maxDepth, bound);
    }
  }

  /** Two publishers whose depths wrap around. */
  lemma WrapLosesDepth(maxDepth: nat, bound: nat)
    requires 1 < maxDepth <= MAX_QOS_DEPTH && bound < LONG_SPACE && maxDepth + bound >= LONG_SPACE
    ensures var ds: seq<nat> := [maxDepth, bound];
      && Bounded(ds, bound)
      && Max(Clamped(maxDepth, ds), 1) != Max(Min(maxDepth, Sum(ds)), 1)
  {
    var ds: seq<nat> := [maxDepth, bound];
    assert ds[..1] == [maxDepth] && [maxDepth][..0] == [];
    assert Clamped(maxDepth, [maxDepth]) == maxDepth && Sum([maxDepth]) == maxDepth;
    assert (maxDepth + bound) % LONG_SPACE == maxDepth + bound - LONG_SPACE;
  }

  /** The clamped depth does not depend on the order of the publishers. */
  lemma DepthIgnoresOrder(maxDepth: nat, a: seq<nat>, b: seq<nat>, bound: nat)
    requires multiset(a) == multiset(b) && Bounded(a, bound) && maxDepth + bound < LONG_SPACE
    ensures Clamped(maxDepth, a) == Clamped(maxDepth, b)
  {
    assert forall d | d in b :: d in multiset(b);
    assert forall d | d in multiset(a) :: d in a;
    ClampedIsSum(maxDepth, a, bound);
    ClampedIsSum(maxDepth, b, bound);
    SumIgnoresOrder(a, b);
  }

  /** `Sum` is the sum. */
  lemma {:induction false} SumConcat(a: seq<nat>, b: seq<nat>)
    ensures Sum(a + b) == Sum(a) + Sum(b)
    ensures forall d: nat :: Sum([d]) == d
    decreases |b|
  {
    assert forall d: nat :: [d][..0] == [];
    if b == [] {
      assert a + b == a;
    } else {
      var n := |b| - 1;
      assert (a + b)[..|a + b| - 1] == a + b[..n];
      SumConcat(a, b[..n]);
    }
  }

  lemma {:induction false} SumIgnoresOrder(a: seq<nat>, b: seq<nat>)
    requires multiset(a) == multiset(b)
    ensures Sum(a) == Sum(b)
    decreases |a|
  {
    if a == [] {
      assert |multiset(b)| == |b|;
    } else {
      var x := a[|a| - 1];
      assert a == a[..|a| - 1] + [x];
      assert x in multiset(b);
      var i :| 0 <= i < |b| && b[i] == x;
      assert b == b[..i] + [x] + b[i + 1..];
      assert multiset(a[..|a| - 1]) == multiset(a) - multiset{x};
      assert multiset(b[..i] + b[i + 1..]) == multiset(b) - multiset{x};
      SumIgnoresOrder(a[..|a| - 1], b[..i] + b[i + 1..]);
      SumWithout(b, i);
    }
  }

  lemma {:induction false} SumWithout(s: seq<nat>, i: nat)
    requires i < |s|
    ensures Sum(s) == Sum(s[..i] + s[i + 1..]) + s[i]
    decreases |s|
  {
    var n := |s| - 1;
    if i == n {
      assert s[..i] + s[i + 1..] == s[..n];
    } else {
      var rest := s[..i] + s[i + 1..];
      SumWithout(s[..n], i);
      assert s[..n][..i] == s[..i] && s[..n][i + 1..] == s[i + 1..n];
      assert rest[..|rest| - 1] == s[..i] + s[i + 1..n] && rest[|rest| - 1] == s[n];
    }
  }
}
