/** `MessageDefinitionCache`: the memoising, exception-prone walk computes the specified one. */
module DefinitionCache {
  import opened Common
  import opened Definitions
  import opened WalkOrder

  /** The identifiers of `names` whose definition loads. */
  function LoadedIds(files: Files, f: Format, names: seq<string>): set<Id> {
    set n | n in names && Loads(files, f, n) :: Id(f, n)
  }

  function ResultOf(w: Walk): Result<string, LoadError> {
    match w.error
    case None => Ok(w.text)
    case Some(e) => Err(e)
  }

  lemma LoadedConcat(files: Files, f: Format, a: seq<string>, b: seq<string>)
    ensures LoadedIds(files, f, a + b) == LoadedIds(files, f, a) + LoadedIds(files, f, b)
  {
    forall id ensures id in LoadedIds(files, f, a + b)
                      <==> id in LoadedIds(files, f, a) + LoadedIds(files, f, b)
    {
      assert id.name in a + b <==> id.name in a || id.name in b;
    }
  }

  /** The walk of the loop after one more dependency, `w` being the walk below it. */
  function Extend(f: Format, done: Walk, dep: string, w: Walk): Walk {
    Walk(w.error, w.seen, done.visited + ([dep] + w.visited),
         done.text + ("\n" + Delimiter(f, dep) + w.text))
  }

  /** The loop from its `i`-th dependency on, after `done`; an exception ends it. */
  ghost function LoopWalk(files: Files, f: Format, deps: seq<string>, i: nat, done: Walk): Walk
    requires i <= |deps| && forall d | d in deps :: Id(f, d) in Universe(files)
    decreases |deps| - i
  {
    if i == |deps| || done.error.Some? then done
    else if Id(f, deps[i]) in done.seen then LoopWalk(files, f, deps, i + 1, done)
    else
      var w := Visit(files, f, deps[i], done.seen + {Id(f, deps[i])});
      LoopWalk(files, f, deps, i + 1, Extend(f, done, deps[i], w))
  }

  /** `whole` is what `done` and then `rest` amount to. */
  ghost predicate Adds(whole: Walk, done: Walk, rest: Walk) {
    && whole.error == rest.error && whole.seen == rest.seen
    && whole.visited == done.visited + rest.visited
    && (rest.error.None? ==> whole.text == done.text + rest.text)
  }

  lemma ExtendAdds(files: Files, f: Format, deps: seq<string>, done: Walk, w: Walk, whole: Walk)
    requires deps != [] && forall d | d in deps :: Id(f, d) in Universe(files)
    requires Id(f, deps[0]) !in done.seen
    requires w == Visit(files, f, deps[0], done.seen + {Id(f, deps[0])})
    requires if w.error.Some? then whole == Extend(f, done, deps[0], w)
             else Adds(whole, Extend(f, done, deps[0], w), VisitAll(files, f, deps[1..], w.seen))
    ensures Adds(whole, done, VisitAll(files, f, deps, done.seen))
  {
    VisitAllUnseen(files, f, deps, done.seen, w);
    if w.error.None? {
      var rest := VisitAll(files, f, deps[1..], w.seen);
      Associate(done.visited, [deps[0]] + w.visited, rest.visited);
      Associate(done.text, "\n" + Delimiter(f, deps[0]) + w.text, rest.text);
    }
  }

  lemma NothingAdds(done: Walk)
    requires done.error.None?
    ensures Adds(done, done, Walk(None, done.seen, [], ""))
  {}

  /** Appending in the loop is the walk over the remaining dependencies. */
  lemma {:induction false} LoopWalkAdds(files: Files, f: Format, deps: seq<string>, i: nat, done: Walk)
    requires i <= |deps| && (forall d | d in deps :: Id(f, d) in Universe(files)) && done.error.None?
    ensures forall d | d in deps[i..] :: d in deps
    ensures Adds(LoopWalk(files, f, deps, i, done), done, VisitAll(files, f, deps[i..], done.seen))
    decreases |deps| - i
  {
    if i == |deps| {
      NothingAdds(done);
    } else {
      assert deps[i..][0] == deps[i] && deps[i..][1..] == deps[i + 1..];
      if Id(f, deps[i]) in done.seen {
        LoopWalkAdds(files, f, deps, i + 1, done);
      } else {
        var w := Visit(files, f, deps[i], done.seen + {Id(f, deps[i])});
        var done' := Extend(f, done, deps[i], w);
        if w.error.None? {
          LoopWalkAdds(files, f, deps, i + 1, done');
        }
        ExtendAdds(files, f, deps[i..], done, w, LoopWalk(files, f, deps, i + 1, done'));
      }
    }
  }

  /** The whole loop. */
  lemma LoopWalkIsVisitAll(files: Files, f: Format, deps: seq<string>, seen: set<Id>)
    requires forall d | d in deps :: Id(f, d) in Universe(files)
    ensures var whole := LoopWalk(files, f, deps, 0, Walk(None, seen, [], ""));
      var w := VisitAll(files, f, deps, seen);
      ResultOf(whole) == ResultOf(w) && whole.seen == w.seen && whole.visited == w.visited
  {
    LoopWalkAdds(files, f, deps, 0, Walk(None, seen, [], ""));
    var w := VisitAll(files, f, deps, seen);
    assert deps[0..] == deps && "" + w.text == w.text && [] + w.visited == w.visited;
  }

  /** The loop has loaded what `done` visited, on top of `loads` loads and the cached `keys`. */
  ghost predicate Counted(files: Files, f: Format, done: Walk, loads: nat, keys: set<Id>,
                          loads': nat, keys': set<Id>)
  {
    loads' == loads + |done.visited| && keys' == keys + LoadedIds(files, f, done.visited)
  }

  lemma CountedNext(files: Files, f: Format, done: Walk, dep: string, w: Walk, loads: nat, keys: set<Id>,
                    loads1: nat, keys1: set<Id>)
    requires Counted(files, f, done, loads, keys, loads1, keys1)
    ensures Counted(files, f, Extend(f, done, dep, w), loads, keys, loads1 + 1 + |w.visited|,
                    keys1 + LoadedIds(files, f, [dep] + w.visited))
  {
    LoadedConcat(files, f, done.visited, [dep] + w.visited);
  }

  class MessageDefinitionCache {
    var specs: map<Id, MessageSpec>
    /** How often `LoadMessageSpec` was called. */
    ghost var loads: nat

    /** The cache holds what loading would give. */
    ghost predicate Valid(files: Files)
      reads this
    {
      forall id | id in specs :: Load(files, id) == Ok(specs[id])
    }

    constructor ()
      ensures specs == map[] && loads == 0
    {
      specs := map[];
      loads := 0;
    }

    method LoadMessageSpec(files: Files, id: Id) returns (r: Result<MessageSpec, LoadError>)
      requires Valid(files)
      modifies this
      ensures Valid(files)
      ensures r == Load(files, id)
      ensures r.Ok? <==> ValidName(id.name) && id !in files.noPackage && id in files.specs
      ensures r.Ok? ==> r.value == files.specs[id]
      ensures r == Err(Other) <==> !ValidName(id.name) || id in files.noPackage
      ensures r == Err(NotFound) <==> ValidName(id.name) && id !in files.noPackage && id !in files.specs
      ensures loads == old(loads) + 1
      ensures specs.Keys == old(specs.Keys) + (if r.Ok? then {id} else {})
    {
      loads := loads + 1;
      if id in specs {
        return Ok(specs[id]);
      }
      r := Load(files, id);
      if r.Ok? {
        specs := specs[id := r.value];
      }
    }

    /** `append_recursive`; the set captured by reference is passed in and out. */
    method AppendRecursive(files: Files, id: Id, seen: set<Id>)
      returns (r: Result<string, LoadError>, seenDeps: set<Id>)
      requires Valid(files)
      modifies this
      ensures Valid(files)
      ensures var w := Visit(files, id.format, id.name, seen);
        && r == ResultOf(w) && seenDeps == w.seen
        && loads == old(loads) + 1 + |w.visited|
        && specs.Keys == old(specs.Keys) + LoadedIds(files, id.format, [id.name] + w.visited)
      decreases Universe(files) - seen, 2
    {
      var loaded := LoadMessageSpec(files, id);
      assert LoadedIds(files, id.format, [id.name]) == if loaded.Ok? then {id} else {};
      if loaded.Err? {
        assert [id.name] + [] == [id.name];
        return Err(loaded.error), seen;
      }
      var spec := loaded.value;
      assert forall d | d in spec.dependencies :: Id(id.format, d) in Universe(files);
      LoadedConcat(files, id.format, [id.name],
                   VisitAll(files, id.format, spec.dependencies, seen).visited);
      LoopWalkIsVisitAll(files, id.format, spec.dependencies, seen);
      r, seenDeps := AppendDependencies(files, id.format, spec.dependencies, seen);
      if r.Ok? {
        r := Ok(spec.text + r.value);
      }
    }

    /** The loop's body for a dependency not seen before. */
    method AppendDependency(files: Files, f: Format, deps: seq<string>, i: nat, seen: set<Id>,
                            text: string, ghost done: Walk, ghost loads0: nat, ghost keys0: set<Id>)
      returns (r: Result<string, LoadError>, seenDeps: set<Id>, ghost done': Walk)
      requires Valid(files) && i < |deps| && forall d | d in deps :: Id(f, d) in Universe(files)
      requires done.error.None? && seen == done.seen && text == done.text && Id(f, deps[i]) !in seen
      requires Counted(files, f, done, loads0, keys0, loads, specs.Keys)
      modifies this
      ensures Valid(files) && seen <= seenDeps
      ensures LoopWalk(files, f, deps, i + 1, done') == LoopWalk(files, f, deps, i, done)
      ensures r == ResultOf(done') && seenDeps == done'.seen
      ensures Counted(files, f, done', loads0, keys0, loads, specs.Keys)
      decreases Universe(files) - seen, 0
    {
      var dep := Id(f, deps[i]);
      ghost var w := Visit(files, f, dep.name, seen + {dep});
      done' := Extend(f, done, dep.name, w);
      CountedNext(files, f, done, dep.name, w, loads0, keys0, loads, specs.Keys);
      r, seenDeps := AppendRecursive(files, dep, seen + {dep});
      if r.Ok? {
        r := Ok(text + ("\n" + Delimiter(f, dep.name) + r.value));
      }
    }

    /** The loop of `append_recursive` over the dependencies. */
    method AppendDependencies(files: Files, f: Format, deps: seq<string>, seen: set<Id>)
      returns (r: Result<string, LoadError>, seenDeps: set<Id>)
      requires Valid(files)
      requires forall d | d in deps :: Id(f, d) in Universe(files)
      modifies this
      ensures Valid(files)
      ensures var w := LoopWalk(files, f, deps, 0, Walk(None, seen, [], ""));
        && r == ResultOf(w) && seenDeps == w.seen
        && Counted(files, f, w, old(loads), old(specs.Keys), loads, specs.Keys)
      decreases Universe(files) - seen, 1
    {
      r, seenDeps := Ok(""), seen;
      ghost var done := Walk(None, seen, [], "");
      ghost var whole := LoopWalk(files, f, deps, 0, done);
      assert LoadedIds(files, f, []) == {};
      assert Counted(files, f, done, loads, specs.Keys, loads, specs.Keys);
      var i := 0;
      while i < |deps|
        invariant 0 <= i <= |deps| && Valid(files)
        invariant done.error.None? && r == Ok(done.text) && seenDeps == done.seen && seen <= seenDeps
        invariant LoopWalk(files, f, deps, i, done) == whole
        invariant Counted(files, f, done, old(loads), old(specs.Keys), loads, specs.Keys)
      {
        if Id(f, deps[i]) !in seenDeps {
          r, seenDeps, done := AppendDependency(files, f, deps, i, seenDeps, r.value, done,
                                                old(loads), old(specs.Keys));
          if r.Err? {
            return;
          }
        }
        i := i + 1;
      }
    }

    /** The same result from every valid cache, so from every history of earlier calls. */
    method GetFullText(files: Files, name: string)
      returns (r: Result<(Format, string), LoadError>)
      requires Valid(files)
      modifies this
      ensures Valid(files)
      ensures r == FullText(files, name)
      ensures var w := Visit(files, MSG, name, {});
        if w.error == Some(NotFound) then
          var w' := Visit(files, IDL, name, w.seen);
          && loads == old(loads) + 2 + |w.visited| + |w'.visited|
          && specs.Keys == old(specs.Keys) + LoadedIds(files, MSG, [name] + w.visited)
                           + LoadedIds(files, IDL, [name] + w'.visited)
        else
          && loads == old(loads) + 1 + |w.visited|
          && specs.Keys == old(specs.Keys) + LoadedIds(files, MSG, [name] + w.visited)
    {
      var result, seenDeps := AppendRecursive(files, Id(MSG, name), {});
      match result
      case Ok(text) =>
        return Ok((MSG, text));
      case Err(Other) =>
        return Err(Other);
      case Err(NotFound) =>
        result, seenDeps := AppendRecursive(files, Id(IDL, name), seenDeps);
        if result.Err? {
          return Err(result.error);
        }
        return Ok((IDL, Delimiter(IDL, name) + result.value));
    }
  }
}
