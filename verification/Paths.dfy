/** Go's `filepath.Join` on absolute paths, and the file names plugins may use (options.go). */
module Paths {
  import opened Prelude

  // The parts of a path between slashes.
  function Parts(path: string): seq<string> {
    SplitOn(path, '/')
  }

  // The lexical rules of filepath.Clean for a rooted path: drop "" and ".", and let ".." drop its parent.
  function Clean(parts: seq<string>): seq<string> {
    if parts == [] then [] else
      var before := Clean(parts[..|parts| - 1]);
      var last := parts[|parts| - 1];
      if last == "" || last == "." then before
      else if last == ".." then (if before == [] then [] else before[..|before| - 1])
      else before + [last]
  }

  function Render(parts: seq<string>): string {
    if parts == [] then "" else Render(parts[..|parts| - 1]) + "/" + parts[|parts| - 1]
  }

  predicate IsAbs(path: string) {
    path != "" && path[0] == '/'
  }

  // The cleaned parts of dir joined with name, and the path they spell.
  function JoinParts(dir: string, name: string): seq<string> {
    Clean(Parts(dir + "/" + name))
  }

  function Join(dir: string, name: string): string {
    var parts := JoinParts(dir, name);
    if parts == [] then "/" else Render(parts)
  }

  // A name that validateFileName accepts.
  predicate ValidFileName(name: string) {
    name != "" && name != "." && name != ".." && '/' !in name && '\\' !in name
  }

  /** An accepted file name stays directly inside its directory. */
  lemma JoinIsInside(dir: string, name: string)
    requires ValidFileName(name)
    ensures JoinParts(dir, name) == Clean(Parts(dir)) + [name]
    ensures Join(dir, name) == Render(Clean(Parts(dir))) + "/" + name
  {
    SplitOneMore(dir, name, '/');
    var parts := Parts(dir) + [name];
    assert parts[..|parts| - 1] == Parts(dir);
    var cleaned := Clean(Parts(dir)) + [name];
    assert cleaned[..|cleaned| - 1] == Clean(Parts(dir));
  }

  lemma {:induction false} CleanHolds(parts: seq<string>, part: string)
    requires part in Clean(parts)
    ensures part in parts
  {
    if part != parts[|parts| - 1] {
      CleanHolds(parts[..|parts| - 1], part);
    }
  }

  /** The accepted names are those that stand for one entry of the directory, without the other separator. */
  lemma ValidIsOneEntry(dir: string, name: string)
    ensures ValidFileName(name) <==> '\\' !in name && JoinParts(dir, name) == Clean(Parts(dir)) + [name]
  {
    if ValidFileName(name) {
      JoinIsInside(dir, name);
    } else if '/' !in name {
      SplitOneMore(dir, name, '/');
      assert (Parts(dir) + [name])[..|Parts(dir)|] == Parts(dir);
    } else if name in JoinParts(dir, name) {
      CleanHolds(Parts(dir + "/" + name), name);
      PartsAreFree(dir + "/" + name, '/');
    }
  }

  lemma {:induction false} CleanIsKept(parts: seq<string>)
    requires forall i :: 0 <= i < |parts| ==> ValidFileName(parts[i])
    ensures Clean([""] + parts) == parts
    ensures Parts(Render(parts)) == [""] + parts
  {
    if parts != [] {
      var front, last := parts[..|parts| - 1], parts[|parts| - 1];
      CleanIsKept(front);
      LastOfSum([""], parts);
      assert (([""] + front) + [last])[..|parts|] == [""] + front;
      assert ValidFileName(last);
      SplitOneMore(Render(front), last, '/');
    } else {
      assert [""][..0] == [];
    }
  }

  /** A directory that is clean already is left as it is. */
  lemma JoinOfClean(parts: seq<string>, name: string)
    requires (forall i :: 0 <= i < |parts| ==> ValidFileName(parts[i])) && ValidFileName(name)
    ensures Join(Render(parts), name) == Render(parts) + "/" + name
  {
    CleanIsKept(parts);
    JoinIsInside(Render(parts), name);
  }

  // One more part at the end of a directory.
  lemma CleanOneMore(dir: string, part: string)
    requires '/' !in part
    ensures var before, after := Clean(Parts(dir)), Clean(Parts(dir + "/" + part));
      if part == "" || part == "." then after == before
      else if part == ".." then after == if before == [] then [] else before[..|before| - 1]
      else after == before + [part]
  {
    SplitOneMore(dir, part, '/');
    assert (Parts(dir) + [part])[..|Parts(dir)|] == Parts(dir);
  }

  lemma JoinOfSame(one: string, two: string, name: string)
    requires ValidFileName(name) && Clean(Parts(one)) == Clean(Parts(two))
    ensures Join(one, name) == Join(two, name)
  {
    JoinIsInside(one, name);
    JoinIsInside(two, name);
  }

  lemma JoinAboveRoot(name: string)
    requires ValidFileName(name)
    ensures Join("/..", name) == "/" + name
  {
    CleanIsKept([]);
    CleanOneMore("", "..");
    assert "" + "/" + ".." == "/.." && Render([]) == "" && [""] + [] == [""];
    JoinIsInside("/..", name);
  }

  /** An empty part or a dot changes nothing, and two dots take back the part before. */
  lemma DotsVanish(dir: string, part: string, name: string)
    requires ValidFileName(part) && ValidFileName(name)
    ensures Join(dir + "/" + "", name) == Join(dir, name)
    ensures Join(dir + "/" + ".", name) == Join(dir, name)
    ensures Join(dir + "/" + part + "/" + "..", name) == Join(dir, name)
    ensures Join("/..", name) == "/" + name
  {
    CleanOneMore(dir, "");
    CleanOneMore(dir, ".");
    CleanOneMore(dir, part);
    CleanOneMore(dir + "/" + part, "..");
    JoinOfSame(dir + "/" + "", dir, name);
    JoinOfSame(dir + "/" + ".", dir, name);
    JoinOfSame(dir + "/" + part + "/" + "..", dir, name);
    JoinAboveRoot(name);
  }

  /** Different accepted names in one directory are different paths. */
  lemma JoinIsInjective(dir: string, one: string, two: string)
    requires ValidFileName(one) && ValidFileName(two) && Join(dir, one) == Join(dir, two)
    ensures one == two
  {
    JoinIsInside(dir, one);
    JoinIsInside(dir, two);
    var prefix := Render(Clean(Parts(dir))) + "/";
    assert (prefix + one)[|prefix|..] == one && (prefix + two)[|prefix|..] == two;
  }
}
