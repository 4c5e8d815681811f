/** Message definitions, their dependency graph, and the recursive walk of `get_full_text`. */
module Definitions {
  import opened Common

  datatype Format = IDL | MSG

  /** `DefinitionIdentifier`: the same name in two formats is two definitions. */
  datatype Id = Id(format: Format, name: string)

  /** The text of a definition and the names it depends on, in the order of the set. */
  datatype MessageSpec = MessageSpec(dependencies: seq<string>, text: string)

  /** `DefinitionNotFoundError`, or any other exception. */
  datatype LoadError = NotFound | Other

  /**
   What is installed: the parsed definition files, and the identifiers whose package has no share
   directory.  Fixed during a run.
   */
  datatype Files = Files(specs: map<Id, MessageSpec>, noPackage: set<Id>)

  predicate IsWord(s: string) {
    s != "" && forall c | c in s :: 'a' <= c <= 'z' || 'A' <= c <= 'Z' || '0' <= c <= '9' || c == '_'
  }

  /** The regular expression for `pkg/Type` and `pkg/msg/Type`. */
  predicate ValidName(name: string) {
    exists i | 0 <= i < |name| ::
      && name[i] == '/' && IsWord(name[..i])
      && (IsWord(name[i + 1..])
          || (i + 5 <= |name| && name[i + 1..i + 5] == "msg/" && IsWord(name[i + 5..])))
  }

  /** What `load_message_spec` does for an identifier that is not in the cache. */
  function Load(files: Files, id: Id): Result<MessageSpec, LoadError> {
    if !ValidName(id.name) || id in files.noPackage then Err(Other)
    else if id in files.specs then Ok(files.specs[id])
    else Err(NotFound)
  }

  /** Every identifier that some definition depends on. */
  ghost function Universe(files: Files): set<Id> {
    set id, d | id in files.specs && d in files.specs[id].dependencies :: Id(id.format, d)
  }

  /** The line of 80 equals signs between two sections. */
  const RULE: string := Repeat('=', 80)

  function Repeat(c: char, n: nat): (s: string)
    ensures |s| == n && forall d | d in s :: d == c
  {
    if n == 0 then "" else [c] + Repeat(c, n - 1)
  }

  function Header(f: Format, name: string): string {
    (if f.MSG? then "MSG: " else "IDL: ") + name
  }

  function Delimiter(f: Format, name: string): string {
    RULE + "\n" + (Header(f, name) + "\n")
  }

  /**
   The outcome of a walk: the exception that ended it, `seen_deps` afterwards, the names whose
   loading it attempted below its root, in order, and the text it returns when it succeeds.
   */
  datatype Walk = Walk(error: Option<LoadError>, seen: set<Id>, visited: seq<string>, text: string)

  /** `append_recursive`.  Identifiers not yet seen decrease, on cyclic graphs too. */
  ghost function Visit(files: Files, f: Format, name: string, seen: set<Id>): (w: Walk)
    ensures seen <= w.seen
    decreases Universe(files) - seen, 1, 0
  {
    match Load(files, Id(f, name))
    case Err(e) => Walk(Some(e), seen, [], "")
    case Ok(spec) =>
      assert forall d | d in spec.dependencies :: Id(f, d) in Universe(files);
      var w := VisitAll(files, f, spec.dependencies, seen);
      w.(text := spec.text + w.text)
  }

  /** Its loop over dependencies. */
  ghost function VisitAll(files: Files, f: Format, deps: seq<string>, seen: set<Id>): (w: Walk)
    requires forall d | d in deps :: Id(f, d) in Universe(files)
    ensures seen <= w.seen
    decreases Universe(files) - seen, 0, |deps|
  {
    if deps == [] then Walk(None, seen, [], "")
    else if Id(f, deps[0]) in seen then VisitAll(files, f, deps[1..], seen)
    else
      var w := Visit(files, f, deps[0], seen + {Id(f, deps[0])});
      if w.error.Some? then Walk(w.error, w.seen, [deps[0]] + w.visited, "")
      else
        var rest := VisitAll(files, f, deps[1..], w.seen);
        Walk(rest.error, rest.seen, [deps[0]] + w.visited + rest.visited,
             "\n" + Delimiter(f, deps[0]) + w.text + rest.text)
  }

  /** The format and text of a definition and all its dependencies, or the exception. */
  ghost function FullText(files: Files, name: string): Result<(Format, string), LoadError> {
    var w := Visit(files, MSG, name, {});
    match w.error
    case None => Ok((MSG, w.text))
    case Some(Other) => Err(Other)
    case Some(NotFound) =>
      var w' := Visit(files, IDL, name, w.seen);
      match w'.error
      case None => Ok((IDL, Delimiter(IDL, name) + w'.text))
      case Some(e) => Err(e)
  }
}
