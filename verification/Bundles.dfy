/** What `get_full_text` returns, and that its text can be taken apart again. */
module Bundles {
  import opened Common
  import opened Definitions
  import opened WalkOrder

  // ------------------------------------------------------------------ outcome of one walk

  /** The whole closure of `root` in preorder, every name loading. */
  ghost predicate Complete(files: Files, f: Format, root: string, names: seq<string>) {
    && Preorder(files, f, names) && Exhausted(files, f, names) && names[0] == root
    && forall n | n in names :: Loads(files, f, n)
  }

  /** A preorder that ends with the first name that does not load. */
  ghost predicate FailsWith(files: Files, f: Format, root: string, names: seq<string>, e: LoadError) {
    && Preorder(files, f, names) && names[0] == root
    && Load(files, Id(f, names[|names| - 1])) == Err(e)
    && forall n | n in names[..|names| - 1] :: Loads(files, f, n)
  }

  /** No identifier of format `f` has been seen. */
  ghost predicate FreshFor(f: Format, seen: set<Id>) {
    forall n: string :: Id(f, n) !in seen
  }

  /** A walk lists the complete preorder or stops at its first failure. */
  lemma WalkOutcome(files: Files, f: Format, root: string, seen: set<Id>)
    requires FreshFor(f, seen)
    ensures var w := Visit(files, f, root, seen);
      match w.error
      case None => Complete(files, f, root, [root] + w.visited)
      case Some(e) => FailsWith(files, f, root, [root] + w.visited, e)
  {
    var names := [root];
    var w := Visit(files, f, root, seen);
    VisitOk(files, f, names, seen);
    var after := names + w.visited;
    match w.error
    case None =>
      forall n | n in after
        ensures AllSeen(DependenciesOf(files, f, n), after[1..]) && Loads(files, f, n)
      {
        var b :| 0 <= b < |after| && after[b] == n;
      }
    case Some(e) =>
      assert after[0..|after| - 1] == after[..|after| - 1];
  }

  /** Two preorders that stop at their first failure stop at the same place. */
  lemma FirstFailureUnique(files: Files, f: Format, root: string, p: seq<string>, d: LoadError,
                           q: seq<string>, e: LoadError)
    requires FailsWith(files, f, root, p, d) && FailsWith(files, f, root, q, e)
    ensures p == q && d == e
  {
    NoEarlierFailure(files, f, root, p, d, q, e);
    NoEarlierFailure(files, f, root, q, e, p, d);
    PreordersAgree(files, f, p, q, |p|);
    assert p[..|p|] == p && q[..|q|] == q;
  }

  lemma FailureInPrefix(files: Files, f: Format, root: string, p: seq<string>, d: LoadError,
                        q: seq<string>)
    requires FailsWith(files, f, root, p, d)
    requires Preorder(files, f, q) && q[0] == root && |p| <= |q|
    ensures !Loads(files, f, q[|p| - 1])
  {
    PreordersAgree(files, f, p, q, |p|);
    assert q[|p| - 1] == q[..|p|][|p| - 1] == p[..|p|][|p| - 1] == p[|p| - 1];
  }

  lemma NoEarlierFailure(files: Files, f: Format, root: string, p: seq<string>, d: LoadError,
                         q: seq<string>, e: LoadError)
    requires FailsWith(files, f, root, p, d) && FailsWith(files, f, root, q, e)
    ensures |p| >= |q|
  {
    if |p| < |q| {
      assert q[..|q| - 1][|p| - 1] == q[|p| - 1];
      FailureInPrefix(files, f, root, p, d, q);
    }
  }

  /**
   A walk succeeds exactly when its root and all it reaches load.  It then lists below the root
   what the root reaches, each name once, in depth-first preorder, the root itself exactly when
   it lies on a cycle.
   */
  lemma WalkExact(files: Files, f: Format, root: string)
    ensures var w := Visit(files, f, root, {});
      && (w.error.None? <==> forall n | InClosure(files, f, root, n) :: Loads(files, f, n))
      && (w.error.None? ==> forall n :: n in w.visited <==> Reaches(files, f, root, n))
      && Distinct(w.visited)
      && Preorder(files, f, [root] + w.visited)
  {
    var w := Visit(files, f, root, {});
    var names := [root] + w.visited;
    WalkOutcome(files, f, root, {});
    assert names[1..] == w.visited;
    PreorderDistinct(files, f, names);
    match w.error
    case None =>
      forall n ensures n in w.visited <==> Reaches(files, f, root, n) {
        ListedIffReachable(files, f, names, n);
      }
    case Some(_) =>
      var last := names[|names| - 1];
      if |names| > 1 {
        ListedIsReachable(files, f, names, |names| - 1);
      }
      assert InClosure(files, f, root, last) && !Loads(files, f, last);
  }

  /** One attempt loads at most its root and each reachable name once. */
  lemma LoadsBounded(files: Files, f: Format, root: string, reachable: set<string>)
    requires forall n | Reaches(files, f, root, n) :: n in reachable
    ensures |Visit(files, f, root, {}).visited| <= |reachable|
  {
    var w := Visit(files, f, root, {});
    var names := [root] + w.visited;
    WalkExact(files, f, root);
    forall n | n in w.visited ensures n in reachable {
      var i :| 0 <= i < |w.visited| && w.visited[i] == n;
      ListedIsReachable(files, f, names, i + 1);
    }
    DistinctBound(w.visited, reachable);
  }

  lemma {:induction false} DistinctBound<T>(s: seq<T>, bound: set<T>)
    requires Distinct(s) && forall x | x in s :: x in bound
    ensures |s| <= |bound|
    decreases |s|
  {
    if s != [] {
      DistinctTail(s);
      assert forall x | x in s[1..] :: x in s;
      DistinctBound(s[1..], bound - {s[0]});
    }
  }

  // ------------------------------------------------------------------ the two formats

  ghost predicate SameFor(f: Format, a: set<Id>, b: set<Id>) {
    forall n: string :: Id(f, n) in a <==> Id(f, n) in b
  }

  ghost predicate SameWalk(f: Format, v: Walk, w: Walk) {
    v.error == w.error && v.visited == w.visited && v.text == w.text && SameFor(f, v.seen, w.seen)
  }

  /** A walk does not depend on identifiers of the other format. */
  lemma {:induction false} VisitSame(files: Files, f: Format, name: string, a: set<Id>, b: set<Id>)
    requires SameFor(f, a, b)
    ensures SameWalk(f, Visit(files, f, name, a), Visit(files, f, name, b))
    decreases Universe(files) - a, 1, 0
  {
    match Load(files, Id(f, name))
    case Err(_) =>
    case Ok(spec) =>
      assert forall d | d in spec.dependencies :: Id(f, d) in Universe(files);
      VisitAllSame(files, f, spec.dependencies, a, b);
  }

  lemma {:induction false} VisitAllSame(files: Files, f: Format, deps: seq<string>,
                                        a: set<Id>, b: set<Id>)
    requires SameFor(f, a, b)
    requires forall d | d in deps :: Id(f, d) in Universe(files)
    ensures SameWalk(f, VisitAll(files, f, deps, a), VisitAll(files, f, deps, b))
    decreases Universe(files) - a, 0, |deps|
  {
    if deps == [] {
    } else if Id(f, deps[0]) in a {
      VisitAllSame(files, f, deps[1..], a, b);
    } else {
      var id := Id(f, deps[0]);
      VisitSame(files, f, deps[0], a + {id}, b + {id});
      var v, w := Visit(files, f, deps[0], a + {id}), Visit(files, f, deps[0], b + {id});
      if v.error.None? {
        VisitAllSame(files, f, deps[1..], v.seen, w.seen);
      }
    }
  }

  /** A walk adds identifiers of its own format only. */
  lemma {:induction false} VisitFresh(files: Files, f: Format, g: Format, name: string, seen: set<Id>)
    requires FreshFor(g, seen) && f != g
    ensures FreshFor(g, Visit(files, f, name, seen).seen)
    decreases Universe(files) - seen, 1, 0
  {
    match Load(files, Id(f, name))
    case Err(_) =>
    case Ok(spec) =>
      assert forall d | d in spec.dependencies :: Id(f, d) in Universe(files);
      VisitAllFresh(files, f, g, spec.dependencies, seen);
  }

  lemma {:induction false} VisitAllFresh(files: Files, f: Format, g: Format, deps: seq<string>,
                                         seen: set<Id>)
    requires FreshFor(g, seen) && f != g
    requires forall d | d in deps :: Id(f, d) in Universe(files)
    ensures FreshFor(g, VisitAll(files, f, deps, seen).seen)
    decreases Universe(files) - seen, 0, |deps|
  {
    if deps == [] {
    } else if Id(f, deps[0]) in seen {
      VisitAllFresh(files, f, g, deps[1..], seen);
    } else {
      VisitFresh(files, f, g, deps[0], seen + {Id(f, deps[0])});
      var w := Visit(files, f, deps[0], seen + {Id(f, deps[0])});
      if w.error.None? {
        VisitAllFresh(files, f, g, deps[1..], w.seen);
      }
    }
  }

  /** The second attempt is a fresh one, although it inherits the names seen by the first. */
  lemma FallbackIsFresh(files: Files, name: string)
    ensures var msg, idl := Visit(files, MSG, name, {}), Visit(files, IDL, name, {});
      FullText(files, name)
      == match msg.error
         case None => Ok((MSG, msg.text))
         case Some(Other) => Err(Other)
         case Some(NotFound) =>
           match idl.error
           case None => Ok((IDL, Delimiter(IDL, name) + idl.text))
           case Some(e) => Err(e)
  {
    VisitFresh(files, MSG, IDL, name, {});
    VisitSame(files, IDL, name, Visit(files, MSG, name, {}).seen, {});
  }

  // ------------------------------------------------------------------ the text

  function TextOf(files: Files, f: Format, name: string): string {
    match Load(files, Id(f, name))
    case Ok(spec) => spec.text
    case Err(_) => ""
  }

  function SectionText(files: Files, f: Format, name: string): string {
    "\n" + Delimiter(f, name) + TextOf(files, f, name)
  }

  /** One section for each name. */
  function SectionsText(files: Files, f: Format, names: seq<string>): string {
    if names == [] then ""
    else SectionText(files, f, names[0]) + SectionsText(files, f, names[1..])
  }

  lemma SectionsAhead(files: Files, f: Format, a: seq<string>, b: seq<string>)
    requires a != []
    ensures SectionsText(files, f, a + b)
            == SectionText(files, f, a[0]) + SectionsText(files, f, a[1..] + b)
  {
    assert (a + b)[1..] == a[1..] + b;
  }

  lemma {:induction false} SectionsConcat(files: Files, f: Format, a: seq<string>, b: seq<string>)
    ensures SectionsText(files, f, a + b)
            == SectionsText(files, f, a) + SectionsText(files, f, b)
    decreases |a|
  {
    if a == [] {
      assert a + b == b;
    } else {
      SectionsConcat(files, f, a[1..], b);
      SectionsAhead(files, f, a, b);
      Associate(SectionText(files, f, a[0]), SectionsText(files, f, a[1..]), SectionsText(files, f, b));
    }
  }

  /** The nested appends of a successful walk are the root's text and its sections in order. */
  lemma {:induction false} VisitText(files: Files, f: Format, name: string, seen: set<Id>)
    requires Visit(files, f, name, seen).error.None?
    ensures var w := Visit(files, f, name, seen);
      w.text == TextOf(files, f, name) + SectionsText(files, f, w.visited)
    decreases Universe(files) - seen, 1, 0
  {
    var spec := Load(files, Id(f, name)).value;
    assert forall d | d in spec.dependencies :: Id(f, d) in Universe(files);
    VisitAllText(files, f, spec.dependencies, seen);
  }

  lemma {:induction false} VisitAllText(files: Files, f: Format, deps: seq<string>, seen: set<Id>)
    requires forall d | d in deps :: Id(f, d) in Universe(files)
    requires VisitAll(files, f, deps, seen).error.None?
    ensures var w := VisitAll(files, f, deps, seen);
      w.text == SectionsText(files, f, w.visited)
    decreases Universe(files) - seen, 0, |deps|
  {
    if deps == [] {
    } else if Id(f, deps[0]) in seen {
      VisitAllText(files, f, deps[1..], seen);
    } else {
      var seen1 := seen + {Id(f, deps[0])};
      var w := Visit(files, f, deps[0], seen1);
      VisitText(files, f, deps[0], seen1);
      VisitAllText(files, f, deps[1..], w.seen);
      var rest := VisitAll(files, f, deps[1..], w.seen);
      VisitAllUnseen(files, f, deps, seen, w);
      OneSection(files, f, deps[0], w, rest);
    }
  }

  lemma OneSection(files: Files, f: Format, d: string, w: Walk, rest: Walk)
    requires w.text == TextOf(files, f, d) + SectionsText(files, f, w.visited)
    requires rest.text == SectionsText(files, f, rest.visited)
    ensures "\n" + Delimiter(f, d) + w.text + rest.text
            == SectionsText(files, f, [d] + w.visited + rest.visited)
  {
    SectionsConcat(files, f, [d] + w.visited, rest.visited);
    SectionsHead(files, f, d, w.visited);
    Associate("\n" + Delimiter(f, d), TextOf(files, f, d), SectionsText(files, f, w.visited));
  }

  lemma SectionsHead(files: Files, f: Format, d: string, names: seq<string>)
    ensures SectionsText(files, f, [d] + names)
            == SectionText(files, f, d) + SectionsText(files, f, names)
  {
    assert ([d] + names)[1..] == names;
  }
}
