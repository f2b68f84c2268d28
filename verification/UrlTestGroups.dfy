/**
 Which urltest groups select again after a measurement: the depth-first search of
 url_test_options.go over a group graph that may have cycles, with one visited map
 shared by all branches.
 */
module UrlTestGroups {
  type Tag = string

  datatype Outbound =
    | Plain
    | Group(members: seq<Tag>)
    | UrlTestGroup(members: seq<Tag>)
  {
    predicate IsGroup() { !Plain? }
  }

  // The outbounds by tag, and the order in which they are listed.
  datatype Manager = Manager(byTag: map<Tag, Outbound>, order: seq<Tag>)

  predicate Listed(m: Manager) {
    forall t :: t in m.order ==> t in m.byTag
  }

  // `to` can be stepped to from the members of a loaded group.
  predicate NestedGroup(m: Manager, t: Tag) {
    t in m.byTag && m.byTag[t].IsGroup()
  }

  // A chain of members: each element is a member of the group named before it.
  predicate Chain(m: Manager, members: seq<Tag>, path: seq<Tag>)
    decreases |path|
  {
    path != [] && path[0] in members
    && (|path| > 1 ==> NestedGroup(m, path[0]) && Chain(m, m.byTag[path[0]].members, path[1..]))
  }

  /** The tag is a member, or a member of loaded nested groups, at any depth. */
  ghost predicate Contains(m: Manager, members: seq<Tag>, tag: Tag) {
    exists path :: Chain(m, members, path) && path[|path| - 1] == tag
  }

  /** The map that every branch of one search shares. */
  class Visited {
    var tags: set<Tag>

    constructor (tags: set<Tag>)
      ensures this.tags == tags
    {
      this.tags := tags;
    }
  }

  // Everything reachable in one step from `members` is known: not the tag, and visited when it is a group.
  predicate Explored(m: Manager, members: seq<Tag>, tag: Tag, visited: set<Tag>) {
    forall t :: t in members ==> t != tag && (NestedGroup(m, t) ==> t in visited)
  }

  function Groups(m: Manager): set<Tag> {
    set t | t in m.byTag && m.byTag[t].IsGroup()
  }

  method GroupContains(m: Manager, members: seq<Tag>, tag: Tag, visited: Visited) returns (found: bool)
    modifies visited
    ensures old(visited.tags) <= visited.tags <= old(visited.tags) + Groups(m)
    ensures found ==> Contains(m, members, tag)
    ensures !found ==> Explored(m, members, tag, visited.tags)
    ensures !found ==> forall t :: t in visited.tags - old(visited.tags) ==>
      Explored(m, m.byTag[t].members, tag, visited.tags)
    decreases |Groups(m) - visited.tags|
  {
    for i := 0 to |members|
      invariant old(visited.tags) <= visited.tags <= old(visited.tags) + Groups(m)
      invariant Explored(m, members[..i], tag, visited.tags)
      invariant forall t :: t in visited.tags - old(visited.tags) ==> Explored(m, m.byTag[t].members, tag, visited.tags)
    {
      var member := members[i];
      assert members[..i + 1] == members[..i] + [member];
      if member == tag {
        assert Chain(m, members, [member]);
        return true;
      }
      if member in visited.tags || member !in m.byTag || !m.byTag[member].IsGroup() {
        continue;
      }
      ghost var before := visited.tags;
      visited.tags := visited.tags + {member};
      assert Groups(m) - visited.tags < Groups(m) - old(visited.tags) by {
        assert member in Groups(m) - old(visited.tags);
      }
      SmallerSet(Groups(m) - visited.tags, Groups(m) - old(visited.tags));
      var nested := GroupContains(m, m.byTag[member].members, tag, visited);
      if nested {
        ContainsThrough(m, members, member, tag);
        return true;
      }
    }
    assert members[..|members|] == members;
    return false;
  }

  lemma SmallerSet<T>(a: set<T>, b: set<T>)
    requires a < b
    ensures |a| < |b|
  {
    assert b == a + (b - a);
    assert b - a != {};
  }

  lemma ContainsThrough(m: Manager, members: seq<Tag>, member: Tag, tag: Tag)
    requires member in members && NestedGroup(m, member) && Contains(m, m.byTag[member].members, tag)
    ensures Contains(m, members, tag)
  {
    var path :| Chain(m, m.byTag[member].members, path) && path[|path| - 1] == tag;
    assert ([member] + path)[1..] == path;
    assert Chain(m, members, [member] + path);
  }

  // A visited set that is explored everywhere holds every group a chain passes, so no chain ends in the tag.
  lemma {:induction false} NoChainOut(m: Manager, members: seq<Tag>, tag: Tag, visited: set<Tag>, path: seq<Tag>)
    requires Explored(m, members, tag, visited)
    requires forall t :: t in visited && NestedGroup(m, t) ==> Explored(m, m.byTag[t].members, tag, visited)
    requires Chain(m, members, path)
    ensures path[|path| - 1] != tag
    decreases |path|
  {
    if |path| > 1 {
      NoChainOut(m, m.byTag[path[0]].members, tag, visited, path[1..]);
    }
  }

  /** The search of one group answers exactly whether it transitively contains the tag. */
  method Search(m: Manager, group: Tag, tag: Tag) returns (found: bool)
    requires NestedGroup(m, group)
    ensures found <==> Contains(m, m.byTag[group].members, tag)
  {
    var visited := new Visited({group});
    found := GroupContains(m, m.byTag[group].members, tag, visited);
    if !found {
      forall path | Chain(m, m.byTag[group].members, path) ensures path[|path| - 1] != tag {
        NoChainOut(m, m.byTag[group].members, tag, visited.tags, path);
      }
    }
  }

  // The tag of a urltest group that contains the tag.
  ghost predicate Rechecked(m: Manager, t: Tag, tag: Tag) {
    t in m.byTag && m.byTag[t].UrlTestGroup? && Contains(m, m.byTag[t].members, tag)
  }

  // The groups that must select again, in listing order.
  ghost function Affected(m: Manager, tags: seq<Tag>, tag: Tag): seq<Tag> {
    if tags == [] then [] else
      var t := tags[|tags| - 1];
      Affected(m, tags[..|tags| - 1], tag)
      + if Rechecked(m, t, tag) then [t] else []
  }

  lemma AffectedStep(m: Manager, i: nat, tag: Tag)
    requires Listed(m) && i < |m.order|
    ensures var t := m.order[i];
      Affected(m, m.order[..i + 1], tag) ==
      if Rechecked(m, t, tag) then Affected(m, m.order[..i], tag) + [t]
      else Affected(m, m.order[..i], tag)
  {
    assert m.order[..i + 1][..i] == m.order[..i];
  }

  lemma {:induction false} AffectedHolds(m: Manager, tags: seq<Tag>, tag: Tag)
    ensures forall t :: t in Affected(m, tags, tag) <==> t in tags && Rechecked(m, t, tag)
  {
    if tags != [] {
      AffectedHolds(m, tags[..|tags| - 1], tag);
      assert forall t :: t in tags <==> t in tags[..|tags| - 1] || t == tags[|tags| - 1];
    }
  }

  /** The checks follow the list: those of its front come first, and each place of the list counts by itself. */
  lemma {:induction false} AffectedOfSum(m: Manager, front: seq<Tag>, back: seq<Tag>, tag: Tag)
    ensures Affected(m, front + back, tag) == Affected(m, front, tag) + Affected(m, back, tag)
  {
    if back == [] {
      assert front + back == front && Affected(m, front, tag) + [] == Affected(m, front, tag);
    } else {
      AffectedOfSum(m, front, back[..|back| - 1], tag);
      assert (front + back)[..|front + back| - 1] == front + back[..|back| - 1];
    }
  }

  lemma AffectedOfOne(m: Manager, t: Tag, tag: Tag)
    requires t in m.byTag
    ensures Affected(m, [t], tag) ==
      if m.byTag[t].UrlTestGroup? && Contains(m, m.byTag[t].members, tag) then [t] else []
  {
    assert Affected(m, [], tag) == [] && [t][..0] == [];
  }

  /** PerformUpdateCheck runs once for each listed urltest group that contains the tag, and for no other. */
  method UpdateGroups(m: Manager, tag: Tag) returns (checked: seq<Tag>)
    requires Listed(m)
    ensures checked == Affected(m, m.order, tag)
    ensures forall t :: t in checked <==>
      t in m.order && m.byTag[t].UrlTestGroup? && Contains(m, m.byTag[t].members, tag)
  {
    checked := [];
    for i := 0 to |m.order|
      invariant checked == Affected(m, m.order[..i], tag)
    {
      AffectedStep(m, i, tag);
      var detour := m.order[i];
      if !m.byTag[detour].UrlTestGroup? {
        continue;
      }
      var contains := Search(m, detour, tag);
      if contains {
        checked := checked + [detour];
      }
    }
    assert m.order[..|m.order|] == m.order;
    AffectedHolds(m, m.order, tag);
  }

  // ---- What containment means ----

  /** Containment is the least relation closed under membership and nesting. */
  lemma ContainsUnfolds(m: Manager, members: seq<Tag>, tag: Tag)
    ensures Contains(m, members, tag) <==>
      tag in members
      || exists t :: t in members && t in m.byTag && !m.byTag[t].Plain? && Contains(m, m.byTag[t].members, tag)
  {
    if Contains(m, members, tag) {
      var path :| Chain(m, members, path) && path[|path| - 1] == tag;
      if |path| > 1 {
        assert path[1..][|path[1..]| - 1] == tag;
        assert Contains(m, m.byTag[path[0]].members, tag);
      }
    }
    if tag in members {
      assert Chain(m, members, [tag]);
    }
    forall t | t in members && NestedGroup(m, t) && Contains(m, m.byTag[t].members, tag)
      ensures Contains(m, members, tag)
    {
      ContainsThrough(m, members, t, tag);
    }
  }

  /** Any set that holds the members and is closed under nesting holds every contained tag. */
  lemma ContainsIsLeast(m: Manager, members: seq<Tag>, tag: Tag, closed: set<Tag>)
    requires Contains(m, members, tag) && (forall t :: t in members ==> t in closed)
    requires forall t, u :: t in closed && NestedGroup(m, t) && u in m.byTag[t].members ==> u in closed
    ensures tag in closed
  {
    var path :| Chain(m, members, path) && path[|path| - 1] == tag;
    ChainStaysIn(m, members, closed, path);
  }

  lemma {:induction false} ChainStaysIn(m: Manager, members: seq<Tag>, closed: set<Tag>, path: seq<Tag>)
    requires Chain(m, members, path) && (forall t :: t in members ==> t in closed)
    requires forall t, u :: t in closed && NestedGroup(m, t) && u in m.byTag[t].members ==> u in closed
    ensures path[|path| - 1] in closed
    decreases |path|
  {
    if |path| > 1 {
      ChainStaysIn(m, m.byTag[path[0]].members, closed, path[1..]);
    }
  }
}
