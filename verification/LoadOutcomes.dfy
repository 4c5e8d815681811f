/** When a definition loads, when not and why, and what `get_full_text` makes of it. */
module LoadOutcomes {
  import opened Common
  import opened Definitions
  import opened Bundles
  import opened WalkOrder

  // ------------------------------------------------------------------ names

  /** One or more ASCII letters, digits and underscores. */
  predicate Word(s: string) {
    |s| > 0 && forall i | 0 <= i < |s| ::
      ('a' <= s[i] <= 'z') || ('A' <= s[i] <= 'Z') || ('0' <= s[i] <= '9') || s[i] == '_'
  }

  lemma WordIff(s: string)
    ensures Word(s) <==> IsWord(s)
  {
    assert forall i | 0 <= i < |s| :: s[i] in s;
  }

  /** Exactly the names `pkg/Type` and `pkg/msg/Type` are valid. */
  lemma ValidNameIff(name: string)
    ensures ValidName(name)
            <==> exists pkg, t :: Word(pkg) && Word(t) && (name == pkg + "/" + t || name == pkg + "/msg/" + t)
  {
    if ValidName(name) {
      var pkg, t := ValidNameParts(name);
      assert Word(pkg) && Word(t) && (name == pkg + "/" + t || name == pkg + "/msg/" + t);
    }
    forall pkg: string, t: string
      | Word(pkg) && Word(t) && (name == pkg + "/" + t || name == pkg + "/msg/" + t)
      ensures ValidName(name)
    {
      PartsValid(pkg, t);
    }
  }

  lemma ValidNameParts(name: string) returns (pkg: string, t: string)
    requires ValidName(name)
    ensures Word(pkg) && Word(t) && (name == pkg + "/" + t || name == pkg + "/msg/" + t)
  {
    var i :| 0 <= i < |name| && name[i] == '/' && IsWord(name[..i])
             && (IsWord(name[i + 1..])
                 || (i + 5 <= |name| && name[i + 1..i + 5] == "msg/" && IsWord(name[i + 5..])));
    pkg, t := name[..i], if IsWord(name[i + 1..]) then name[i + 1..] else name[i + 5..];
    WordIff(pkg);
    WordIff(t);
    if IsWord(name[i + 1..]) {
      ShortParts(name, i);
    } else {
      LongParts(name, i);
    }
  }

  lemma ShortParts(name: string, i: nat)
    requires i < |name| && name[i] == '/'
    ensures name == name[..i] + "/" + name[i + 1..]
  {}

  lemma LongParts(name: string, i: nat)
    requires i + 5 <= |name| && name[i] == '/' && name[i + 1..i + 5] == "msg/"
    ensures name == name[..i] + "/msg/" + name[i + 5..]
  {
    var tag := name[i + 1..i + 5];
    assert name[i + 1] == tag[0] && name[i + 2] == tag[1] && name[i + 3] == tag[2] && name[i + 4] == tag[3];
  }

  lemma PartsValid(pkg: string, t: string)
    requires Word(pkg) && Word(t)
    ensures ValidName(pkg + "/" + t) && ValidName(pkg + "/msg/" + t)
  {
    var i, short, long := |pkg|, pkg + "/" + t, pkg + "/msg/" + t;
    WordIff(pkg);
    WordIff(t);
    assert short[i] == '/' && short[..i] == pkg && short[i + 1..] == t;
    assert long[i] == '/' && long[..i] == pkg && long[i + 1..i + 5] == "msg/" && long[i + 5..] == t;
  }

  // ------------------------------------------------------------------ one file

  /** The definition is installed, or what keeps it from loading. */
  predicate Installed(files: Files, id: Id) {
    ValidName(id.name) && id !in files.noPackage && id in files.specs
  }

  predicate Undefined(files: Files, id: Id) {
    ValidName(id.name) && id !in files.noPackage && id !in files.specs
  }

  predicate Unknown(files: Files, id: Id) {
    !ValidName(id.name) || id in files.noPackage
  }

  /** `RULE`, the header for the format, and nothing between. */
  function Headed(f: Format, name: string, text: string): string {
    RULE + "\n" + (match f case MSG => "MSG: " case IDL => "IDL: ") + name + "\n" + text
  }

  lemma Heads(f: Format, name: string, text: string)
    ensures Delimiter(f, name) + text == Headed(f, name, text)
  {
    var tag := match f case MSG => "MSG: " case IDL => "IDL: ";
    Associate(RULE + "\n", tag + name, "\n");
    Associate(RULE + "\n", tag, name);
  }

  lemma LeafVisit(files: Files, f: Format, name: string, seen: set<Id>)
    requires Installed(files, Id(f, name)) && files.specs[Id(f, name)].dependencies == []
    ensures Visit(files, f, name, seen) == Walk(None, seen, [], files.specs[Id(f, name)].text)
  {
    var text := files.specs[Id(f, name)].text;
    assert text + "" == text;
  }

  /** A definition without dependencies is delivered as it is. */
  lemma LeafText(files: Files, name: string)
    requires Installed(files, Id(MSG, name)) && files.specs[Id(MSG, name)].dependencies == []
    ensures FullText(files, name) == Ok((MSG, files.specs[Id(MSG, name)].text))
  {
    LeafVisit(files, MSG, name, {});
  }

  /** A dependency follows behind a rule and its header. */
  lemma OneDependency(files: Files, name: string, d: string)
    requires Installed(files, Id(MSG, name)) && files.specs[Id(MSG, name)].dependencies == [d]
    requires Installed(files, Id(MSG, d)) && files.specs[Id(MSG, d)].dependencies == []
    ensures FullText(files, name)
            == Ok((MSG, files.specs[Id(MSG, name)].text + "\n"
                        + Headed(MSG, d, files.specs[Id(MSG, d)].text)))
  {
    var text, below := files.specs[Id(MSG, name)].text, files.specs[Id(MSG, d)].text;
    assert Id(MSG, d) in Universe(files);
    LeafVisit(files, MSG, d, {Id(MSG, d)});
    var seen := {} + {Id(MSG, d)};
    assert seen == {Id(MSG, d)} && [d][1..] == [];
    VisitAllUnseen(files, MSG, [d], {}, Visit(files, MSG, d, seen));
    OneDependencyText(text, Delimiter(MSG, d), below);
    Heads(MSG, d, below);
  }

  lemma OneDependencyText(text: string, delimiter: string, below: string)
    ensures text + ("\n" + delimiter + below + "") == text + "\n" + (delimiter + below)
  {}

  /** Without a definition in MSG, one in IDL is delivered behind its own header. */
  lemma FallsBack(files: Files, name: string)
    requires Undefined(files, Id(MSG, name)) && Installed(files, Id(IDL, name))
    requires files.specs[Id(IDL, name)].dependencies == []
    ensures FullText(files, name)
            == Ok((IDL, Headed(IDL, name, files.specs[Id(IDL, name)].text)))
  {
    LeafVisit(files, IDL, name, {});
    Heads(IDL, name, files.specs[Id(IDL, name)].text);
  }

  /** Without any definition the exception says so. */
  lemma NeitherDefined(files: Files, name: string)
    requires Undefined(files, Id(MSG, name))
    ensures Undefined(files, Id(IDL, name)) ==> FullText(files, name) == Err(NotFound)
    ensures Unknown(files, Id(IDL, name)) ==> FullText(files, name) == Err(Other)
  {}

  /** For an invalid name or a missing package another exception escapes, whatever there is in IDL. */
  lemma UnknownEscapes(files: Files, name: string)
    requires Unknown(files, Id(MSG, name))
    ensures FullText(files, name) == Err(Other)
  {}

  /** What counts as loading in the walk. */
  lemma LoadsIff(files: Files, f: Format, name: string)
    ensures Loads(files, f, name) <==> Installed(files, Id(f, name))
  {}
}
