/** The order of the walk, described without recursion, and what it reaches. */
module WalkOrder {
  import opened Common
  import opened Definitions

  function DependenciesOf(files: Files, f: Format, name: string): seq<string> {
    match Load(files, Id(f, name))
    case Ok(spec) => spec.dependencies
    case Err(_) => []
  }

  predicate Loads(files: Files, f: Format, name: string) {
    Load(files, Id(f, name)).Ok?
  }

  /** `d` is the first element of `deps` that is not in `seen`. */
  ghost predicate FirstUnseen(deps: seq<string>, seen: seq<string>, d: string) {
    exists i | 0 <= i < |deps| :: deps[i] == d && d !in seen && forall j | 0 <= j < i :: deps[j] in seen
  }

  ghost predicate AllSeen(deps: seq<string>, seen: seq<string>) {
    forall d | d in deps :: d in seen
  }

  /**
   Position `k` continues from position `a`: the latest earlier name with a dependency not yet
   listed, and `names[k]` is its first such dependency.
   */
  ghost predicate Continues(files: Files, f: Format, names: seq<string>, k: nat, a: nat)
    requires 1 <= k < |names|
  {
    && a < k
    && FirstUnseen(DependenciesOf(files, f, names[a]), names[1..k], names[k])
    && forall b | a < b < k :: AllSeen(DependenciesOf(files, f, names[b]), names[1..k])
  }

  ghost predicate HasParent(files: Files, f: Format, names: seq<string>, k: nat)
    requires 1 <= k < |names|
  {
    exists a: nat :: Continues(files, f, names, k, a)
  }

  /** `names[1..]` is listed in depth-first preorder below the root `names[0]`. */
  ghost predicate Preorder(files: Files, f: Format, names: seq<string>) {
    names != [] && forall k | 1 <= k < |names| :: HasParent(files, f, names, k)
  }

  /** Nothing is left to list. */
  ghost predicate Exhausted(files: Files, f: Format, names: seq<string>) {
    names != [] && forall n | n in names :: AllSeen(DependenciesOf(files, f, n), names[1..])
  }

  // ------------------------------------------------------------------ the order is determined

  lemma PreorderPrefix(files: Files, f: Format, names: seq<string>, d: string, a: nat)
    requires Preorder(files, f, names) && a < |names|
    requires FirstUnseen(DependenciesOf(files, f, names[a]), names[1..], d)
    requires forall b | a < b < |names| :: AllSeen(DependenciesOf(files, f, names[b]), names[1..])
    ensures Preorder(files, f, names + [d])
  {
    var more := names + [d];
    forall k | 1 <= k < |more| ensures HasParent(files, f, more, k) {
      assert more[1..k] == names[1..k];
      if k < |names| {
        assert HasParent(files, f, names, k);
        var a': nat :| Continues(files, f, names, k, a');
        assert Continues(files, f, more, k, a');
      } else {
        assert names[1..k] == names[1..];
        assert Continues(files, f, more, k, a);
      }
    }
  }

  /** Two preorders below the same root agree wherever both are defined. */
  lemma {:induction false} PreordersAgree(files: Files, f: Format, p: seq<string>, q: seq<string>,
                                          n: nat)
    requires Preorder(files, f, p) && Preorder(files, f, q) && p[0] == q[0]
    requires 1 <= n <= |p| && n <= |q|
    ensures p[..n] == q[..n]
    decreases n
  {
    if n == 1 {
    } else {
      var k := n - 1;
      PreordersAgree(files, f, p, q, k);
      NextAgrees(files, f, p, q, k);
      assert p[..n] == p[..k] + [p[k]] && q[..n] == q[..k] + [q[k]];
    }
  }

  lemma NextAgrees(files: Files, f: Format, p: seq<string>, q: seq<string>, k: nat)
    requires 1 <= k < |p| && k < |q| && p[..k] == q[..k]
    requires HasParent(files, f, p, k) && HasParent(files, f, q, k)
    ensures p[k] == q[k]
  {
    assert p[1..k] == p[..k][1..] && q[1..k] == q[..k][1..];
    var a: nat :| Continues(files, f, p, k, a);
    var b: nat :| Continues(files, f, q, k, b);
    assert p[a] == p[..k][a] == q[a] && p[b] == p[..k][b] == q[b];
    SameParent(files, f, p, q, k, a, b);
    FirstUnseenUnique(DependenciesOf(files, f, p[a]), p[1..k], p[k], q[k]);
  }

  lemma SameParent(files: Files, f: Format, p: seq<string>, q: seq<string>, k: nat, a: nat, b: nat)
    requires 1 <= k < |p| && k < |q| && p[1..k] == q[1..k]
    requires Continues(files, f, p, k, a) && Continues(files, f, q, k, b)
    requires p[a] == q[a] && p[b] == q[b]
    ensures a == b
  {}

  lemma FirstUnseenUnique(deps: seq<string>, seen: seq<string>, d: string, e: string)
    requires FirstUnseen(deps, seen, d) && FirstUnseen(deps, seen, e)
    ensures d == e
  {}

  /** There is exactly one exhausted preorder below a root. */
  lemma PreorderUnique(files: Files, f: Format, p: seq<string>, q: seq<string>)
    requires Preorder(files, f, p) && Exhausted(files, f, p)
    requires Preorder(files, f, q) && Exhausted(files, f, q)
    requires p[0] == q[0]
    ensures p == q
  {
    NotLonger(files, f, p, q);
    NotLonger(files, f, q, p);
    PreordersAgree(files, f, p, q, |p|);
    assert p[..|p|] == p && q[..|q|] == q;
  }

  lemma NothingContinues(files: Files, f: Format, p: seq<string>, q: seq<string>)
    requires Exhausted(files, f, p) && |q| > |p| && q[..|p|] == p
    ensures !HasParent(files, f, q, |p|)
  {
    forall a: nat ensures !Continues(files, f, q, |p|, a) {
      if a < |p| {
        assert q[a] == q[..|p|][a] && q[a] in p;
        assert q[1..|p|] == q[..|p|][1..];
      }
    }
  }

  lemma NotLonger(files: Files, f: Format, p: seq<string>, q: seq<string>)
    requires Preorder(files, f, p) && Exhausted(files, f, p) && Preorder(files, f, q)
    requires p[0] == q[0]
    ensures |q| <= |p|
  {
    if |q| > |p| {
      PreordersAgree(files, f, p, q, |p|);
      assert p[..|p|] == p;
      assert HasParent(files, f, q, |p|);
      NothingContinues(files, f, p, q);
    }
  }

  /** No name is listed twice below the root. */
  lemma PreorderDistinct(files: Files, f: Format, names: seq<string>)
    requires Preorder(files, f, names)
    ensures Distinct(names[1..])
  {
    forall k, j | 1 <= j < k < |names| ensures names[j] != names[k] {
      assert HasParent(files, f, names, k);
      var a: nat :| Continues(files, f, names, k, a);
      assert names[1..k][j - 1] == names[j];
    }
  }

  // ------------------------------------------------------------------ reachability

  ghost predicate IsPath(files: Files, f: Format, path: seq<string>) {
    forall i | 0 <= i < |path| - 1 :: path[i + 1] in DependenciesOf(files, f, path[i])
  }

  /** One or more dependency edges lead from `root` to `n`. */
  ghost predicate Reaches(files: Files, f: Format, root: string, n: string) {
    exists path: seq<string> ::
      |path| >= 2 && path[0] == root && path[|path| - 1] == n && IsPath(files, f, path)
  }

  /** The root, or a name the root reaches. */
  ghost predicate InClosure(files: Files, f: Format, root: string, n: string) {
    n == root || Reaches(files, f, root, n)
  }

  lemma ReachesStep(files: Files, f: Format, root: string, n: string, d: string)
    requires InClosure(files, f, root, n) && d in DependenciesOf(files, f, n)
    ensures Reaches(files, f, root, d)
  {
    var path: seq<string> := [root];
    if n != root {
      path :| |path| >= 2 && path[0] == root && path[|path| - 1] == n && IsPath(files, f, path);
    }
    var longer := path + [d];
    assert IsPath(files, f, longer);
    assert longer[0] == root && longer[|longer| - 1] == d;
  }

  /** A preorder lists only reachable names. */
  lemma {:induction false} ListedIsReachable(files: Files, f: Format, names: seq<string>, k: nat)
    requires Preorder(files, f, names) && 1 <= k < |names|
    ensures Reaches(files, f, names[0], names[k])
    decreases k
  {
    assert HasParent(files, f, names, k);
    var a: nat :| Continues(files, f, names, k, a);
    if a > 0 {
      ListedIsReachable(files, f, names, a);
    }
    ReachesStep(files, f, names[0], names[a], names[k]);
  }

  /** An exhausted list misses no name on any path from its root. */
  lemma {:induction false} PathIsListed(files: Files, f: Format, names: seq<string>,
                                        path: seq<string>, i: nat)
    requires Exhausted(files, f, names)
    requires IsPath(files, f, path) && 1 <= i < |path| && path[0] == names[0]
    ensures path[i] in names[1..]
    decreases i
  {
    if i > 1 {
      PathIsListed(files, f, names, path, i - 1);
    }
    assert path[i - 1] in names;
    assert path[(i - 1) + 1] in DependenciesOf(files, f, path[i - 1]);
  }

  /** An exhausted preorder lists exactly what the root reaches. */
  lemma ListedIffReachable(files: Files, f: Format, names: seq<string>, n: string)
    requires Preorder(files, f, names) && Exhausted(files, f, names)
    ensures n in names[1..] <==> Reaches(files, f, names[0], n)
  {
    if n in names[1..] {
      var i :| 0 <= i < |names[1..]| && names[1..][i] == n;
      ListedIsReachable(files, f, names, i + 1);
    }
    if Reaches(files, f, names[0], n) {
      var path :| |path| >= 2 && path[0] == names[0] && path[|path| - 1] == n
                  && IsPath(files, f, path);
      PathIsListed(files, f, names, path, |path| - 1);
    }
  }

  // ------------------------------------------------------------------ the walk is this order

  /** `seen` holds, of format `f`, exactly the names listed below the root. */
  ghost predicate Tracks(f: Format, names: seq<string>, seen: set<Id>) {
    names != [] && forall n: string :: Id(f, n) in seen <==> n in names[1..]
  }

  /** All names in `names[from..]` load and have nothing left to list. */
  ghost predicate Finished(files: Files, f: Format, names: seq<string>, from: nat) {
    forall b | from <= b < |names| ::
      Loads(files, f, names[b]) && AllSeen(DependenciesOf(files, f, names[b]), names[1..])
  }

  /** `after`, listed when a walk is over that started at position `from` or below it. */
  ghost predicate OverOk(files: Files, f: Format, after: seq<string>, from: nat, w: Walk)
    requires from < |after|
  {
    && Preorder(files, f, after)
    && Tracks(f, after, w.seen)
    && match w.error
       case None => Finished(files, f, after, from)
       case Some(e) =>
         && Load(files, Id(f, after[|after| - 1])) == Err(e)
         && forall n | n in after[from..|after| - 1] :: Loads(files, f, n)
  }

  /** What a walk started at the end of `names` (or below it) has done when it is over. */
  ghost predicate WalkOk(files: Files, f: Format, names: seq<string>, from: nat, w: Walk)
    requires from < |names|
  {
    OverOk(files, f, names + w.visited, from, w)
  }

  lemma {:induction false} VisitOk(files: Files, f: Format, names: seq<string>, seen: set<Id>)
    requires Preorder(files, f, names) && Tracks(f, names, seen)
    ensures WalkOk(files, f, names, |names| - 1, Visit(files, f, names[|names| - 1], seen))
    decreases Universe(files) - seen, 1, 0
  {
    var a := |names| - 1;
    var w := Visit(files, f, names[a], seen);
    match Load(files, Id(f, names[a]))
    case Err(_) =>
      assert names + w.visited == names;
    case Ok(spec) =>
      assert forall d | d in spec.dependencies :: Id(f, d) in Universe(files);
      assert spec.dependencies[0..] == spec.dependencies;
      VisitAllOk(files, f, names, a, 0, seen);
      assert names + [] == names;
      Prepend(files, f, names, [], a, VisitAll(files, f, spec.dependencies, seen), w);
  }

  /** The loop of the name at position `a` can start from its `i`-th dependency. */
  ghost predicate LoopOk(files: Files, f: Format, names: seq<string>, a: nat, i: nat, seen: set<Id>) {
    && Preorder(files, f, names) && Tracks(f, names, seen)
    && a < |names| && Loads(files, f, names[a])
    && i <= |DependenciesOf(files, f, names[a])|
    && (forall j | 0 <= j < i :: DependenciesOf(files, f, names[a])[j] in names[1..])
    && Finished(files, f, names, a + 1)
  }

  lemma {:induction false} VisitAllOk(files: Files, f: Format, names: seq<string>, a: nat, i: nat,
                                      seen: set<Id>)
    requires LoopOk(files, f, names, a, i, seen)
    requires forall d | d in DependenciesOf(files, f, names[a])[i..] :: Id(f, d) in Universe(files)
    ensures WalkOk(files, f, names, a,
                   VisitAll(files, f, DependenciesOf(files, f, names[a])[i..], seen))
    decreases Universe(files) - seen, 0, |DependenciesOf(files, f, names[a])| - i, 1
  {
    var deps := DependenciesOf(files, f, names[a]);
    if i == |deps| {
      assert names + VisitAll(files, f, deps[i..], seen).visited == names;
    } else {
      Remaining(deps, i);
      if Id(f, deps[i]) in seen {
        SkipOk(files, f, names, a, i, seen);
        VisitAllOk(files, f, names, a, i + 1, seen);
      } else {
        var w := Visit(files, f, deps[i], seen + {Id(f, deps[i])});
        VisitNextOk(files, f, names, a, i, seen, deps, deps[i], w);
        if w.error.None? {
          VisitRestOk(files, f, names, a, i, seen, deps, deps[i], w);
        }
        VisitAllUnseen(files, f, deps[i..], seen, w);
        var rest := if w.error.None? then VisitAll(files, f, deps[i + 1..], w.seen) else w;
        Combine(files, f, names, a, deps[i], w, rest, VisitAll(files, f, deps[i..], seen));
      }
    }
  }

  lemma Remaining(deps: seq<string>, i: nat)
    requires i < |deps|
    ensures deps[i..][0] == deps[i] && deps[i..][1..] == deps[i + 1..]
    ensures deps[i] in deps[i..] && forall d | d in deps[i + 1..] :: d in deps[i..]
  {
    assert deps[i..] == [deps[i]] + deps[i + 1..];
  }

  /** The loop passes over a dependency seen before. */
  lemma SkipOk(files: Files, f: Format, names: seq<string>, a: nat, i: nat, seen: set<Id>)
    requires LoopOk(files, f, names, a, i, seen) && i < |DependenciesOf(files, f, names[a])|
    requires forall d | d in DependenciesOf(files, f, names[a])[i..] :: Id(f, d) in Universe(files)
    requires Id(f, DependenciesOf(files, f, names[a])[i]) in seen
    ensures LoopOk(files, f, names, a, i + 1, seen)
    ensures forall d | d in DependenciesOf(files, f, names[a])[i + 1..] :: Id(f, d) in Universe(files)
    ensures VisitAll(files, f, DependenciesOf(files, f, names[a])[i..], seen)
            == VisitAll(files, f, DependenciesOf(files, f, names[a])[i + 1..], seen)
  {
    Remaining(DependenciesOf(files, f, names[a]), i);
  }

  /** One unfolding of the loop at a dependency not seen before. */
  lemma VisitAllUnseen(files: Files, f: Format, deps: seq<string>, seen: set<Id>, w: Walk)
    requires forall d | d in deps :: Id(f, d) in Universe(files)
    requires deps != [] && Id(f, deps[0]) !in seen
    requires w == Visit(files, f, deps[0], seen + {Id(f, deps[0])})
    ensures var whole := VisitAll(files, f, deps, seen);
      if w.error.Some? then
        whole.error == w.error && whole.seen == w.seen && whole.visited == [deps[0]] + w.visited
      else
        var rest := VisitAll(files, f, deps[1..], w.seen);
        && whole.error == rest.error && whole.seen == rest.seen
        && whole.visited == [deps[0]] + w.visited + rest.visited
        && whole.text == "\n" + Delimiter(f, deps[0]) + w.text + rest.text
  {}

  /** The outcome of the loop from those of its first walk and of its rest. */
  lemma Combine(files: Files, f: Format, names: seq<string>, a: nat, d: string,
                w: Walk, rest: Walk, whole: Walk)
    requires a < |names| && Loads(files, f, names[a]) && Finished(files, f, names, a + 1)
    requires WalkOk(files, f, names + [d], |names|, w)
    requires w.error.None? ==> WalkOk(files, f, names + [d] + w.visited, a, rest)
    requires if w.error.Some? then
               whole.error == w.error && whole.seen == w.seen && whole.visited == [d] + w.visited
             else
               && whole.error == rest.error && whole.seen == rest.seen
               && whole.visited == [d] + w.visited + rest.visited
    ensures WalkOk(files, f, names, a, whole)
  {
    if w.error.Some? {
      Fail(files, f, names, a, d, w, whole);
    } else {
      assert names + [d] + w.visited == names + ([d] + w.visited);
      Prepend(files, f, names, [d] + w.visited, a, rest, whole);
    }
  }

  /** The loop at a dependency not seen before: the walk below it, then the rest of the loop. */
  lemma {:induction false} VisitNextOk(files: Files, f: Format, names: seq<string>, a: nat, i: nat,
                                       seen: set<Id>, deps: seq<string>, d: string, w: Walk)
    requires LoopOk(files, f, names, a, i, seen) && deps == DependenciesOf(files, f, names[a])
    requires i < |deps| && d == deps[i] && Id(f, d) in Universe(files) - seen
    requires w == Visit(files, f, d, seen + {Id(f, d)})
    ensures WalkOk(files, f, names + [d], |names|, w)
    decreases Universe(files) - seen, 0, |DependenciesOf(files, f, names[a])| - i, 0
  {
    Enter(files, f, names, a, i, seen);
    VisitOk(files, f, names + [d], seen + {Id(f, d)});
  }

  lemma {:induction false} VisitRestOk(files: Files, f: Format, names: seq<string>, a: nat, i: nat,
                                       seen: set<Id>, deps: seq<string>, d: string, w: Walk)
    requires LoopOk(files, f, names, a, i, seen) && deps == DependenciesOf(files, f, names[a])
    requires i < |deps| && d == deps[i] && Id(f, d) in Universe(files) - seen
    requires seen + {Id(f, d)} <= w.seen && w.error.None? && WalkOk(files, f, names + [d], |names|, w)
    requires forall d' | d' in deps[i + 1..] :: Id(f, d') in Universe(files)
    ensures WalkOk(files, f, names + [d] + w.visited, a, VisitAll(files, f, deps[i + 1..], w.seen))
    decreases Universe(files) - seen, 0, |DependenciesOf(files, f, names[a])| - i, 0
  {
    Leave(files, f, names, a, i, seen, w);
    VisitAllOk(files, f, names + [d] + w.visited, a, i + 1, w.seen);
  }

  /** Listing the next dependency continues the preorder. */
  lemma Enter(files: Files, f: Format, names: seq<string>, a: nat, i: nat, seen: set<Id>)
    requires LoopOk(files, f, names, a, i, seen)
    requires i < |DependenciesOf(files, f, names[a])|
    requires Id(f, DependenciesOf(files, f, names[a])[i]) !in seen
    ensures var d := DependenciesOf(files, f, names[a])[i];
      Preorder(files, f, names + [d]) && Tracks(f, names + [d], seen + {Id(f, d)})
  {
    var d := DependenciesOf(files, f, names[a])[i];
    assert FirstUnseen(DependenciesOf(files, f, names[a]), names[1..], d);
    PreorderPrefix(files, f, names, d, a);
    assert (names + [d])[1..] == names[1..] + [d];
  }

  /** After a successful walk below a dependency the loop goes on. */
  lemma Leave(files: Files, f: Format, names: seq<string>, a: nat, i: nat, seen: set<Id>, w: Walk)
    requires LoopOk(files, f, names, a, i, seen)
    requires i < |DependenciesOf(files, f, names[a])|
    requires w.error == None
    requires WalkOk(files, f, names + [DependenciesOf(files, f, names[a])[i]], |names|, w)
    ensures var d := DependenciesOf(files, f, names[a])[i];
      && LoopOk(files, f, names + [d] + w.visited, a, i + 1, w.seen)
      && (names + [d] + w.visited)[a] == names[a]
  {
    var d := DependenciesOf(files, f, names[a])[i];
    FinishedBelow(files, f, names, a, d, w.visited);
    assert (names + [d] + w.visited)[a] == names[a];
  }

  /** A walk that went on after listing `more`, told from before it. */
  lemma Prepend(files: Files, f: Format, names: seq<string>, more: seq<string>, from: nat,
                w: Walk, whole: Walk)
    requires from < |names| && WalkOk(files, f, names + more, from, w)
    requires whole.error == w.error && whole.seen == w.seen && whole.visited == more + w.visited
    ensures WalkOk(files, f, names, from, whole)
  {
    assert names + whole.visited == names + more + w.visited;
  }

  /** All but the last of `after`, from `a` on: old names and newly listed ones. */
  lemma AllButLast(names: seq<string>, after: seq<string>, a: nat, n: string)
    requires a < |names| < |after| && after[..|names|] == names && n in after[a..|after| - 1]
    ensures n in names[a..] || n in after[|names|..|after| - 1]
  {
    var i :| a <= i < |after| - 1 && after[i] == n;
    if i < |names| {
      assert names[i] == n;
    }
  }

  lemma FailOver(files: Files, f: Format, names: seq<string>, a: nat, after: seq<string>,
                 w: Walk, whole: Walk)
    requires a < |names| < |after| && after[..|names|] == names
    requires Loads(files, f, names[a]) && Finished(files, f, names, a + 1)
    requires w.error.Some? && whole.error == w.error && whole.seen == w.seen
    requires OverOk(files, f, after, |names|, w)
    ensures OverOk(files, f, after, a, whole)
  {
    forall n | n in after[a..|after| - 1] ensures Loads(files, f, n) {
      AllButLast(names, after, a, n);
    }
  }

  /** A walk that failed below its first dependency. */
  lemma Fail(files: Files, f: Format, names: seq<string>, a: nat, d: string, w: Walk, whole: Walk)
    requires a < |names| && Loads(files, f, names[a]) && Finished(files, f, names, a + 1)
    requires WalkOk(files, f, names + [d], |names|, w) && w.error.Some?
    requires whole.error == w.error && whole.seen == w.seen && whole.visited == [d] + w.visited
    ensures WalkOk(files, f, names, a, whole)
  {
    var after := names + [d] + w.visited;
    assert names + whole.visited == after;
    FailOver(files, f, names, a, after, w, whole);
  }

  lemma FinishedBelow(files: Files, f: Format, names: seq<string>, a: nat, d: string,
                      visited: seq<string>)
    requires a < |names| && Finished(files, f, names, a + 1)
    requires Finished(files, f, names + [d] + visited, |names|)
    ensures Finished(files, f, names + [d] + visited, a + 1)
    ensures d in (names + [d] + visited)[1..]
    ensures forall n | n in names[1..] :: n in (names + [d] + visited)[1..]
  {
    var after := names + [d] + visited;
    assert after[1..] == names[1..] + [d] + visited;
    forall b | a + 1 <= b < |after|
      ensures Loads(files, f, after[b]) && AllSeen(DependenciesOf(files, f, after[b]), after[1..])
    {
      if b < |names| {
        assert after[b] == names[b];
      }
    }
  }
}
