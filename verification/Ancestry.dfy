/** Whether a peer of the protect socket descends from the core (protect.go). */
module Ancestry {
  import opened Prelude

  const MAX_ANCESTRY: nat := 32

  // The k-th ancestor; the walk ends at init and at a process whose parent cannot be read.
  function Ancestor(parent: int -> Option<int>, pid: int, k: nat): Option<int> {
    if k == 0 then Some(pid)
    else match Ancestor(parent, pid, k - 1)
      case None => None
      case Some(p) => if p <= 1 then None else parent(p)
  }

  // Each process is the child of the next one, and the walk does not pass init.
  predicate ChildOfNext(parent: int -> Option<int>, path: seq<int>, i: nat)
    requires i + 1 < |path|
  {
    path[i] > 1 && parent(path[i]) == Some(path[i + 1])
  }

  predicate Lineage(parent: int -> Option<int>, path: seq<int>, from: int, to: int) {
    && path != [] && path[0] == from && path[|path| - 1] == to
    && forall i: nat :: i + 1 < |path| ==> ChildOfNext(parent, path, i)
  }

  lemma {:induction false} AncestorHasLineage(parent: int -> Option<int>, pid: int, k: nat) returns (path: seq<int>)
    requires Ancestor(parent, pid, k).Some?
    ensures |path| == k + 1 && Lineage(parent, path, pid, Ancestor(parent, pid, k).value)
  {
    if k == 0 {
      path := [pid];
    } else {
      var front := AncestorHasLineage(parent, pid, k - 1);
      path := front + [Ancestor(parent, pid, k).value];
      forall i: nat | i + 1 < |path| ensures ChildOfNext(parent, path, i) {
        assert i + 1 < |front| ==> ChildOfNext(parent, front, i);
      }
    }
  }

  lemma {:induction false} LineageIsAncestor(parent: int -> Option<int>, path: seq<int>, from: int, to: int)
    requires Lineage(parent, path, from, to)
    ensures Ancestor(parent, from, |path| - 1) == Some(to)
  {
    if |path| > 1 {
      var front := path[..|path| - 1];
      assert forall i: nat :: i + 1 < |front| && ChildOfNext(parent, path, i) ==> ChildOfNext(parent, front, i);
      LineageIsAncestor(parent, front, from, front[|front| - 1]);
      assert ChildOfNext(parent, path, |path| - 2);
    }
  }

  /** The walk reaches a process exactly along a line of parents. */
  lemma AncestorsAreLineages(parent: int -> Option<int>, start: int, ancestor: int)
    ensures (exists k: nat :: k < MAX_ANCESTRY && Ancestor(parent, start, k) == Some(ancestor)) <==>
      exists path :: |path| <= 32 && Lineage(parent, path, start, ancestor)
  {
    if k: nat :| k < MAX_ANCESTRY && Ancestor(parent, start, k) == Some(ancestor) {
      var path := AncestorHasLineage(parent, start, k);
      assert |path| <= 32;
    }
    forall path | |path| <= 32 && Lineage(parent, path, start, ancestor)
      ensures Ancestor(parent, start, |path| - 1) == Some(ancestor)
    {
      LineageIsAncestor(parent, path, start, ancestor);
    }
  }

  /** True exactly when the ancestor is at most 31 parent steps away. */
  method Descends(parent: int -> Option<int>, start: int, ancestor: int) returns (yes: bool)
    ensures yes <==> exists k: nat :: k < MAX_ANCESTRY && Ancestor(parent, start, k) == Some(ancestor)
    ensures yes <==> exists path :: |path| <= 32 && Lineage(parent, path, start, ancestor)
  {
    AncestorsAreLineages(parent, start, ancestor);
    var pid := start;
    for step := 0 to MAX_ANCESTRY
      invariant Ancestor(parent, start, step) == Some(pid)
      invariant forall k: nat :: k < step ==> Ancestor(parent, start, k) != Some(ancestor)
    {
      if pid == ancestor {
        return true;
      }
      var next := if pid <= 1 then None else parent(pid);
      assert Ancestor(parent, start, step + 1) == next;
      if next.None? {
        WalkHasEnded(parent, start, step + 1);
        return false;
      }
      pid := next.value;
    }
    return false;
  }

  lemma WalkHasEnded(parent: int -> Option<int>, pid: int, from: nat)
    requires Ancestor(parent, pid, from).None?
    ensures forall k: nat :: k >= from ==> Ancestor(parent, pid, k).None?
  {
    forall k: nat | k >= from ensures Ancestor(parent, pid, k).None? {
      for i := from to k
        invariant Ancestor(parent, pid, i).None?
      {
      }
    }
  }

  // ---- /proc/<pid>/stat ----

  predicate IsSpace(c: char) {
    c == ' ' || c == '\t' || c == '\n' || c == '\r' || c as int == 11 || c as int == 12
  }

  // What follows the last closing parenthesis.
  function AfterComm(stat: string): Option<string> {
    if stat == "" then None
    else if stat[|stat| - 1] == ')' then Some("")
    else match AfterComm(stat[..|stat| - 1])
      case None => None
      case Some(rest) => Some(rest + [stat[|stat| - 1]])
  }

  // The text of the first field and what follows it.
  function Blank(s: string): nat {
    if s == "" || !IsSpace(s[0]) then 0 else 1 + Blank(s[1..])
  }

  function Word(s: string): (n: nat)
    ensures n <= |s|
  {
    if s == "" || IsSpace(s[0]) then 0 else 1 + Word(s[1..])
  }

  lemma {:induction false} BlankFits(s: string)
    ensures Blank(s) <= |s| && (Blank(s) < |s| ==> !IsSpace(s[Blank(s)]) && Word(s[Blank(s)..]) > 0)
  {
    if s != "" && IsSpace(s[0]) {
      BlankFits(s[1..]);
      assert s[1..][Blank(s[1..])..] == s[Blank(s)..];
    }
  }

  // bytes.Fields
  function Fields(s: string): seq<string>
    decreases |s|
  {
    BlankFits(s);
    var start := Blank(s);
    if start == |s| then [] else
      var word := Word(s[start..]);
      [s[start..start + word]] + Fields(s[start + word..])
  }

  // strconv.Atoi on what the kernel prints: digits.
  function ParentField(stat: string): Option<int> {
    match AfterComm(stat)
    case None => None
    case Some(rest) =>
      var fields := Fields(rest);
      if |fields| < 2 || !IsDigits(fields[1]) then None else Some(Value(fields[1]))
  }

  lemma {:induction false} AfterLastParenthesis(before: string, rest: string)
    requires ')' !in rest
    ensures AfterComm(before + ")" + rest) == Some(rest)
  {
    var stat := before + ")" + rest;
    if rest != "" {
      var front := rest[..|rest| - 1];
      assert stat[..|stat| - 1] == before + ")" + front;
      AfterLastParenthesis(before, front);
      assert rest == front + [rest[|rest| - 1]];
    }
  }

  predicate IsWord(s: string) {
    s != "" && forall i :: 0 <= i < |s| ==> !IsSpace(s[i])
  }

  lemma {:induction false} WordEnds(word: string, rest: string)
    requires forall i :: 0 <= i < |word| ==> !IsSpace(word[i])
    requires rest == "" || IsSpace(rest[0])
    ensures Word(word + rest) == |word|
  {
    if word != "" {
      assert (word + rest)[1..] == word[1..] + rest;
      WordEnds(word[1..], rest);
    } else {
      assert word + rest == rest;
    }
  }

  lemma FirstField(word: string, rest: string)
    requires IsWord(word) && (rest == "" || IsSpace(rest[0]))
    ensures Fields(" " + word + rest) == [word] + Fields(rest)
  {
    var s := " " + word + rest;
    assert s[1..] == word + rest;
    assert Blank(word + rest) == 0;
    WordEnds(word, rest);
    assert s[1..1 + |word|] == word && s[1 + |word|..] == rest;
  }

  lemma DecimalIsWord(n: nat)
    ensures IsWord(Decimal(n))
  {
  }

  /** The parent is found whatever bytes the command name holds, parentheses and spaces included. */
  lemma ParentOfAnyComm(pid: nat, comm: string, state: string, parent: nat, tail: string)
    requires IsWord(state) && ')' !in state && ')' !in tail && (tail == "" || IsSpace(tail[0]))
    ensures ParentField(Decimal(pid) + " (" + comm + ")" + (" " + state
      + (" " + Decimal(parent) + tail))) == Some(parent)
  {
    var second := " " + Decimal(parent) + tail;
    assert ')' !in Decimal(parent) by {
      assert IsDigits(Decimal(parent));
    }
    AfterLastParenthesis(Decimal(pid) + " (" + comm, " " + state + second);
    FirstField(state, second);
    DecimalIsWord(parent);
    FirstField(Decimal(parent), tail);
    ValueOfDecimal(parent);
    assert Fields(" " + state + second)[1] == Decimal(parent);
  }
}
