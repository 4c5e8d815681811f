/** `split_string`, and the laws of splitting and joining at a delimiter. */
module Text {
  import opened Common

  predicate OccursAt<T(==)>(s: seq<T>, d: seq<T>, p: int) {
    0 <= p && p + |d| <= |s| && s[p..p + |d|] == d
  }

  predicate Occurs<T(==)>(s: seq<T>, d: seq<T>) {
    exists p | 0 <= p <= |s| :: OccursAt(s, d, p)
  }

  /** The first occurrence of `d` at or after `from`. */
  function Find<T(==)>(s: seq<T>, d: seq<T>, from: nat): (p: Option<nat>)
    requires from <= |s|
    ensures p.Some? ==> from <= p.value && p.value + |d| <= |s|
    decreases |s| - from
  {
    if OccursAt(s, d, from) then Some(from)
    else if from == |s| then None
    else Find(s, d, from + 1)
  }

  /** What is found is an occurrence, and nothing earlier is. */
  lemma {:induction false} FindFirst<T>(s: seq<T>, d: seq<T>, from: nat)
    requires from <= |s|
    ensures match Find(s, d, from)
            case None => forall q | from <= q :: !OccursAt(s, d, q)
            case Some(p) => OccursAt(s, d, p) && forall q | from <= q < p :: !OccursAt(s, d, q)
    decreases |s| - from
  {
    if !OccursAt(s, d, from) && from < |s| {
      FindFirst(s, d, from + 1);
    }
  }

  /** The pieces between consecutive occurrences of `d`, found from left to right. */
  function Pieces<T(==)>(s: seq<T>, d: seq<T>, from: nat): (pieces: seq<seq<T>>)
    requires from <= |s| && d != []
    ensures pieces != []
    decreases |s| - from
  {
    match Find(s, d, from)
    case None => [s[from..|s|]]
    case Some(p) => [s[from..p]] + Pieces(s, d, p + |d|)
  }

  function Split<T(==)>(s: seq<T>, d: seq<T>): (pieces: seq<seq<T>>)
    requires d != []
    ensures pieces != []
  {
    Pieces(s, d, 0)
  }

  function Join<T>(pieces: seq<seq<T>>, d: seq<T>): seq<T>
    requires pieces != []
  {
    if |pieces| == 1 then pieces[0] else pieces[0] + d + Join(pieces[1..], d)
  }

  function At<T>(s: seq<T>, i: nat): T
    requires i < |s|
  {
    s[i]
  }

  /** `t` is the part of `s` that starts at `n`. */
  ghost predicate Within<T>(t: seq<T>, s: seq<T>, n: nat) {
    n + |t| <= |s| && forall i: nat | i < |t| :: At(t, i) == s[n + i]
  }

  lemma SliceWithin<T>(t: seq<T>, s: seq<T>, n: nat, i: nat, j: nat)
    requires Within(t, s, n) && i <= j <= |t|
    ensures t[i..j] == s[n + i..n + j]
  {
    var u, v := t[i..j], s[n + i..n + j];
    assert |u| == |v|;
    assert forall k | 0 <= k < |u| :: u[k] == At(t, i + k) && v[k] == s[n + i + k];
  }

  lemma OccursWithin<T>(t: seq<T>, s: seq<T>, n: nat, d: seq<T>, q: nat)
    requires Within(t, s, n) && q + |d| <= |t|
    ensures OccursAt(t, d, q) <==> OccursAt(s, d, n + q)
  {
    SliceWithin(t, s, n, q, q + |d|);
  }

  function Shifted(p: Option<nat>, n: nat): Option<nat> {
    match p
    case None => None
    case Some(i) => Some(n + i)
  }

  lemma {:induction false} FindInSuffix<T>(t: seq<T>, s: seq<T>, n: nat, d: seq<T>, k: nat)
    requires Within(t, s, n) && n + |t| == |s| && k <= |t|
    ensures Find(s, d, n + k) == Shifted(Find(t, d, k), n)
    decreases |t| - k
  {
    if k + |d| <= |t| {
      OccursWithin(t, s, n, d, k);
    }
    if !OccursAt(t, d, k) && k < |t| {
      FindInSuffix(t, s, n, d, k + 1);
    }
  }

  lemma NextFound<T>(done: seq<seq<T>>, s: seq<T>, d: seq<T>, from: nat)
    requires from <= |s| && d != [] && Find(s, d, from).Some?
    ensures var p := Find(s, d, from).value;
      done + Pieces(s, d, from) == (done + [s[from..p]]) + Pieces(s, d, p + |d|)
  {}

  /** The search loop of the source computes `Split`. */
  method SplitString(str: string, delimiter: string) returns (strings: seq<string>)
    requires delimiter != ""
    ensures strings == Split(str, delimiter)
  {
    strings := [];
    var prev := 0;
    var pos := Find(str, delimiter, prev);
    while pos.Some?
      invariant 0 <= prev <= |str| && pos == Find(str, delimiter, prev)
      invariant strings + Pieces(str, delimiter, prev) == Split(str, delimiter)
      decreases |str| - prev
    {
      NextFound(strings, str, delimiter, prev);
      strings := strings + [str[prev..pos.value]];
      prev := pos.value + |delimiter|;
      pos := Find(str, delimiter, prev);
    }
    strings := strings + [str[prev..|str|]];
  }

  lemma JoinCons<T>(piece: seq<T>, pieces: seq<seq<T>>, d: seq<T>)
    requires pieces != []
    ensures Join([piece] + pieces, d) == piece + d + Join(pieces, d)
  {
    assert ([piece] + pieces)[1..] == pieces;
  }

  lemma InThree<T>(s: seq<T>, i: nat, j: nat, k: nat)
    requires i <= j <= k <= |s|
    ensures s[i..|s|] == s[i..j] + s[j..k] + s[k..|s|]
  {}

  lemma FoundText<T>(s: seq<T>, d: seq<T>, from: nat)
    requires from <= |s| && Find(s, d, from).Some?
    ensures var p := Find(s, d, from).value;
      s[p..p + |d|] == d
  {
    FindFirst(s, d, from);
  }

  lemma JoinNext<T>(head: seq<T>, rest: seq<seq<T>>, d: seq<T>, tail: seq<T>)
    requires rest != [] && Join(rest, d) == tail
    ensures Join([head] + rest, d) == head + d + tail
  {
    JoinCons(head, rest, d);
  }

  lemma ThreeParts<T>(s: seq<T>, d: seq<T>, from: nat, p: nat)
    requires from <= p && p + |d| <= |s| && s[p..p + |d|] == d
    ensures s[from..|s|] == s[from..p] + d + s[p + |d|..|s|]
  {
    InThree(s, from, p, p + |d|);
  }

  lemma {:induction false} JoinPieces<T>(s: seq<T>, d: seq<T>, from: nat)
    requires from <= |s| && d != []
    ensures Join(Pieces(s, d, from), d) == s[from..|s|]
    decreases |s| - from
  {
    if Find(s, d, from).Some? {
      var p := Find(s, d, from).value;
      FoundText(s, d, from);
      JoinPieces(s, d, p + |d|);
      JoinNext(s[from..p], Pieces(s, d, p + |d|), d, s[p + |d|..|s|]);
      ThreeParts(s, d, from, p);
    }
  }

  /** Joining the pieces gives back the input. */
  lemma JoinSplit<T>(s: seq<T>, d: seq<T>)
    requires d != []
    ensures Join(Split(s, d), d) == s
  {
    JoinPieces(s, d, 0);
    assert s[0..|s|] == s;
  }

  /** What occurs in a slice occurs in the whole. */
  lemma OccursInSlice<T>(s: seq<T>, d: seq<T>, from: nat, to: nat)
    requires from <= to <= |s| && Occurs(s[from..to], d)
    ensures exists q | from <= q && q + |d| <= to :: OccursAt(s, d, q)
  {
    var piece := s[from..to];
    var q :| 0 <= q <= |piece| && OccursAt(piece, d, q);
    OccursWithin(piece, s, from, d, q);
    assert OccursAt(s, d, from + q);
  }

  lemma {:induction false} PiecesAvoid<T>(s: seq<T>, d: seq<T>, from: nat)
    requires from <= |s| && d != []
    ensures forall piece | piece in Pieces(s, d, from) :: !Occurs(piece, d)
    decreases |s| - from
  {
    FindFirst(s, d, from);
    var to := match Find(s, d, from) case None => |s| case Some(p) => p;
    if Occurs(s[from..to], d) {
      OccursInSlice(s, d, from, to);
    }
    if Find(s, d, from).Some? {
      PiecesAvoid(s, d, to + |d|);
    }
  }

  /** No piece contains the delimiter. */
  lemma PiecesAvoidDelimiter<T>(s: seq<T>, d: seq<T>)
    requires d != []
    ensures forall piece | piece in Split(s, d) :: !Occurs(piece, d)
  {
    PiecesAvoid(s, d, 0);
  }

  lemma OccursSingle<T>(s: seq<T>, x: T)
    ensures forall q :: OccursAt(s, [x], q) <==> 0 <= q < |s| && s[q] == x
  {
    forall q ensures OccursAt(s, [x], q) <==> 0 <= q < |s| && s[q] == x {
      if 0 <= q < |s| {
        assert s[q..q + 1] == [s[q]];
      }
    }
  }

  /** `s` is `a`, then `x`, then `b`. */
  ghost predicate Around<T>(s: seq<T>, a: seq<T>, x: T, b: seq<T>) {
    |s| == |a| + 1 + |b| && Within(a, s, 0) && s[|a|] == x && Within(b, s, |a| + 1)
  }

  lemma {:induction false} FindAround<T>(s: seq<T>, a: seq<T>, x: T, b: seq<T>, from: nat)
    requires Around(s, a, x, b) && from <= |a|
    ensures Find(s, [x], from)
            == Some(match Find(a, [x], from) case None => |a| case Some(p) => p)
    decreases |a| - from
  {
    OccursSingle(a, x);
    OccursSingle(s, x);
    assert from < |a| ==> At(a, from) == s[0 + from];
    if from < |a| && a[from] != x {
      FindAround(s, a, x, b, from + 1);
    }
  }

  lemma ConsConcat<T>(x: T, a: seq<T>, b: seq<T>)
    ensures [x] + (a + b) == ([x] + a) + b
  {}

  lemma SameLast<T>(t: seq<T>, s: seq<T>, d: seq<T>, k: nat, m: nat)
    requires d != [] && k <= |t| && m <= |s| && t[k..|t|] == s[m..|s|]
    requires Find(t, d, k).None? && Find(s, d, m).None?
    ensures Pieces(s, d, m) == Pieces(t, d, k)
  {}

  lemma SameNext<T>(t: seq<T>, s: seq<T>, d: seq<T>, k: nat, m: nat, p: nat, q: nat)
    requires d != [] && k <= |t| && m <= |s|
    requires Find(t, d, k) == Some(p) && Find(s, d, m) == Some(q) && t[k..p] == s[m..q]
    requires Pieces(t, d, p + |d|) == Pieces(s, d, q + |d|)
    ensures Pieces(s, d, m) == Pieces(t, d, k)
  {}

  /** The pieces of the whole from a position in its suffix `t` are those of `t`. */
  lemma {:induction false} PiecesInSuffix<T>(t: seq<T>, s: seq<T>, n: nat, d: seq<T>, k: nat)
    requires d != [] && Within(t, s, n) && n + |t| == |s| && k <= |t|
    ensures Pieces(s, d, n + k) == Pieces(t, d, k)
    decreases |t| - k
  {
    FindInSuffix(t, s, n, d, k);
    if Find(t, d, k).Some? {
      var p := Find(t, d, k).value;
      PiecesInSuffix(t, s, n, d, p + |d|);
      SliceWithin(t, s, n, k, p);
      SameNext(t, s, d, k, n + k, p, n + p);
    } else {
      SliceWithin(t, s, n, k, |t|);
      SameLast(t, s, d, k, n + k);
    }
  }

  lemma LastPiece<T>(s: seq<T>, a: seq<T>, x: T, from: nat)
    requires from <= |a| < |s| && Find(a, [x], from).None? && Find(s, [x], from) == Some(|a|)
    requires a[from..|a|] == s[from..|a|]
    ensures Pieces(s, [x], from) == Pieces(a, [x], from) + Pieces(s, [x], |a| + 1)
  {}

  lemma NextPiece<T>(s: seq<T>, a: seq<T>, x: T, from: nat, p: nat, rest: seq<seq<T>>)
    requires from <= |a| <= |s| && Find(a, [x], from) == Find(s, [x], from) == Some(p)
    requires a[from..p] == s[from..p]
    requires Pieces(s, [x], p + 1) == Pieces(a, [x], p + 1) + rest
    ensures Pieces(s, [x], from) == Pieces(a, [x], from) + rest
  {
    ConsConcat(a[from..p], Pieces(a, [x], p + 1), rest);
  }

  lemma LastAround<T>(s: seq<T>, a: seq<T>, x: T, b: seq<T>, from: nat)
    requires Around(s, a, x, b)
    requires from <= |a| && Find(a, [x], from).None? && Find(s, [x], from) == Some(|a|)
    ensures Pieces(s, [x], from) == Pieces(a, [x], from) + Pieces(s, [x], |a| + 1)
  {
    SliceWithin(a, s, 0, from, |a|);
    LastPiece(s, a, x, from);
  }

  lemma NextAround<T>(s: seq<T>, a: seq<T>, x: T, b: seq<T>, from: nat, p: nat, rest: seq<seq<T>>)
    requires Around(s, a, x, b)
    requires from <= |a| && Find(a, [x], from) == Find(s, [x], from) == Some(p)
    requires Pieces(s, [x], p + 1) == Pieces(a, [x], p + 1) + rest
    ensures Pieces(s, [x], from) == Pieces(a, [x], from) + rest
  {
    SliceWithin(a, s, 0, from, p);
    NextPiece(s, a, x, from, p, rest);
  }

  lemma {:induction false} PiecesAround<T>(s: seq<T>, a: seq<T>, x: T, b: seq<T>, from: nat)
    requires Around(s, a, x, b) && from <= |a|
    ensures Pieces(s, [x], from) == Pieces(a, [x], from) + Split(b, [x])
    decreases |a| - from
  {
    FindAround(s, a, x, b, from);
    match Find(a, [x], from)
    case None =>
      LastAround(s, a, x, b, from);
      PiecesInSuffix(b, s, |a| + 1, [x], 0);
    case Some(p) =>
      PiecesAround(s, a, x, b, p + 1);
      NextAround(s, a, x, b, from, p, Split(b, [x]));
  }

  /** With a delimiter of one element, splitting distributes over it. */
  lemma SplitAppend<T>(a: seq<T>, x: T, b: seq<T>)
    ensures Split(a + [x] + b, [x]) == Split(a, [x]) + Split(b, [x])
  {
    PiecesAround(a + [x] + b, a, x, b, 0);
  }

  lemma SplitWhole<T>(s: seq<T>, x: T)
    ensures |Split(s, [x])| == 1 <==> x !in s
    ensures x !in s ==> Split(s, [x]) == [s]
  {
    OccursSingle(s, x);
    FindFirst(s, [x], 0);
    assert s[0..|s|] == s;
    if x in s {
      var i :| 0 <= i < |s| && s[i] == x;
      assert OccursAt(s, [x], i);
    }
  }
}
