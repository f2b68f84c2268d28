/**
 Installing the helper's dex file (helper.go) on a file system of names and inodes.
 Every system call that changes something leaves one more state behind, so a crash
 "after any step" is one of those states. Which calls fail is arbitrary.
 */
module HelperFile {
  import opened Prelude

  type Inode = nat

  datatype Node =
    | Regular(content: Bytes, mode: nat, owner: nat, synced: bool)
    | Symlink
    | Special // a directory, device, socket or pipe

  // The helper's directory, and every inode it can reach.
  datatype Disk = Disk(names: map<string, Inode>, nodes: map<Inode, Node>)

  const FILENAME := "system-dns-helper.dex"
  const TEMP_PREFIX := ".system-dns-helper-"
  const TEMP_SUFFIX := ".dex"
  const TEMP_MODE: nat := 384 // 0600
  const FINAL_MODE: nat := 256 // 0400

  const MINUTE: nat := 60 * 1000

  // Names that the pattern of temporaries matches.
  predicate IsTemporary(name: string) {
    |TEMP_PREFIX| + |TEMP_SUFFIX| <= |name|
    && TEMP_PREFIX <= name && name[|name| - |TEMP_SUFFIX|..] == TEMP_SUFFIX
  }

  // Which calls succeed; write says how many bytes get through.
  datatype Luck = Luck(
    opens: bool, stats: bool, readable: bool, fixesMode: bool,
    creates: bool, writes: nat, chmods: bool, syncs: bool, closes: bool, renames: bool, removes: bool,
    ages: map<string, nat>,         // milliseconds since the last change of each file that Lstat can see
    stuck: set<string>,             // files that cannot be removed
    pick: set<string> -> string)    // the random name of os.CreateTemp

  // The helper path names an inode.
  predicate Present(d: Disk) {
    FILENAME in d.names && d.names[FILENAME] in d.nodes
  }

  function Helper(d: Disk): Node
    requires Present(d)
  {
    d.nodes[d.names[FILENAME]]
  }

  // The helper can be kept: it holds the payload and is the caller's, with the right mode or one that can be set.
  predicate Kept(d: Disk, payload: Bytes, euid: nat, luck: Luck) {
    && Present(d) && IsPayload(Helper(d), payload, euid)
    && luck.opens && luck.stats && luck.readable && (Helper(d).mode != FINAL_MODE ==> luck.fixesMode)
  }

  // There is no helper, or it is seen to be another file: of another owner, length or content, or a symlink.
  predicate Replaceable(d: Disk, payload: Bytes, euid: nat, luck: Luck) {
    Present(d) && !Helper(d).Symlink? ==>
      && luck.opens && luck.stats && Helper(d).Regular?
      && (Helper(d).owner != euid || |Helper(d).content| != |payload|
        || (luck.readable && Helper(d).content != payload))
  }

  // Every call that fills a temporary and puts it in place succeeds.
  predicate Fills(payload: Bytes, luck: Luck) {
    luck.writes >= |payload| && luck.chmods && luck.syncs && luck.closes
  }

  predicate CanReplace(payload: Bytes, luck: Luck) {
    luck.creates && Fills(payload, luck) && luck.renames
  }

  // Last changed more than a minute ago, and can be removed.
  predicate Old(name: string, luck: Luck) {
    name in luck.ages && luck.ages[name] > MINUTE && name !in luck.stuck
  }

  // A temporary that removeStaleTemporaries removes.
  predicate Swept(d: Disk, name: string, luck: Luck) {
    && name in d.names && IsTemporary(name) && Old(name, luck)
    && d.names[name] in d.nodes && d.nodes[d.names[name]].Regular?
  }

  // The names that are left once the stale temporaries are removed.
  function Unswept(d: Disk, luck: Luck): map<string, Inode> {
    map name | name in d.names && !Swept(d, name, luck) :: d.names[name]
  }

  ghost predicate PicksTemporaries(luck: Luck) {
    forall names :: luck.pick(names) !in names && IsTemporary(luck.pick(names))
  }

  // ---- What a crash may leave ----

  ghost predicate Consistent(d: Disk) {
    forall name :: name in d.names ==> d.names[name] in d.nodes
  }

  predicate IsPayload(node: Node, payload: Bytes, euid: nat) {
    node.Regular? && node.content == payload && node.owner == euid
  }

  // The installed file: the whole payload, on disk, readable by its owner only.
  function Installed(payload: Bytes, euid: nat): Node {
    Regular(payload, FINAL_MODE, euid, true)
  }

  // Inode i is as before, except that the mode of an already matching helper may have been corrected.
  ghost predicate InodeKept(before: Disk, now: Disk, i: Inode, payload: Bytes, euid: nat) {
    i in before.nodes && i in now.nodes &&
    (now.nodes[i] == before.nodes[i]
     || (FILENAME in before.names && before.names[FILENAME] == i && IsPayload(before.nodes[i], payload, euid)
         && now.nodes[i] == before.nodes[i].(mode := FINAL_MODE)))
  }

  // The helper path holds what it held before, or the installed file.
  ghost predicate PathSafe(before: Disk, now: Disk, payload: Bytes, euid: nat) {
    || (FILENAME !in before.names && FILENAME !in now.names)
    || (FILENAME in before.names && FILENAME in now.names && now.names[FILENAME] == before.names[FILENAME])
    || (FILENAME in now.names && now.names[FILENAME] !in before.nodes && now.names[FILENAME] in now.nodes
        && now.nodes[now.names[FILENAME]] == Installed(payload, euid))
  }

  ghost predicate Safe(before: Disk, now: Disk, payload: Bytes, euid: nat) {
    && PathSafe(before, now, payload, euid)
    && forall i :: i in before.nodes ==> InodeKept(before, now, i, payload, euid)
  }

  class FileSystem {
    const euid: nat
    var names: map<string, Inode>
    var nodes: map<Inode, Node>
    var next: Inode
    var past: seq<Disk>

    function Now(): Disk
      reads this
    {
      Disk(names, nodes)
    }

    ghost predicate Valid()
      reads this
    {
      && Consistent(Now())
      && (forall i :: i in nodes ==> i < next)
      && past != [] && past[|past| - 1] == Now()
    }

    // Every state from index `from` on is one a crash may safely leave.
    ghost predicate AllSafe(before: Disk, from: nat, payload: Bytes)
      reads this
    {
      from <= |past| && forall k :: from <= k < |past| ==> Safe(before, past[k], payload, euid)
    }

    method Record()
      modifies this`past
      ensures past == old(past) + [Now()]
    {
      past := past + [Disk(names, nodes)];
    }

    method Remove(name: string)
      requires Valid()
      modifies this`names, this`past
      ensures Valid() && names == old(names) - {name} && past == old(past) + [Now()]
    {
      names := names - {name};
      Record();
    }

    // O_CREATE|O_EXCL: a new empty file.
    method Create(name: string) returns (file: Inode)
      requires Valid() && name !in names
      modifies this
      ensures Valid() && file == old(next) && next == old(next) + 1
      ensures names == old(names)[name := file]
      ensures nodes == old(nodes)[file := Regular([], TEMP_MODE, euid, false)]
      ensures past == old(past) + [Now()]
    {
      file := next;
      next := next + 1;
      names := names[name := file];
      nodes := nodes[file := Regular([], TEMP_MODE, euid, false)];
      Record();
    }

    method Update(file: Inode, node: Node)
      requires Valid() && file in nodes
      modifies this`nodes, this`past
      ensures Valid() && nodes == old(nodes)[file := node] && past == old(past) + [Now()]
    {
      nodes := nodes[file := node];
      Record();
    }

    // Writing may stop after any byte.
    method Write(file: Inode, payload: Bytes, limit: nat, ghost before: Disk, ghost from: nat)
      requires Valid() && file in nodes && nodes[file].Regular? && nodes[file].content == []
      requires file !in before.nodes && (FILENAME in names ==> names[FILENAME] != file)
      requires AllSafe(before, from, payload) && from < |past|
      modifies this`nodes, this`past
      ensures Valid() && old(past) <= past && AllSafe(before, from, payload)
      ensures var count := if limit < |payload| then limit else |payload|;
        nodes == old(nodes)[file := old(nodes)[file].(content := payload[..count])]
    {
      var count := if limit < |payload| then limit else |payload|;
      for k := 0 to count
        invariant Valid() && old(past) <= past && AllSafe(before, from, payload)
        invariant nodes == old(nodes)[file := old(nodes)[file].(content := payload[..k])]
      {
        assert Safe(before, past[|past| - 1], payload, euid);
        Update(file, nodes[file].(content := payload[..k + 1]));
        OwnFileIsSafe(before, old(Now()), Now(), file, payload, euid);
      }
    }

    // helperMatches: no match for a missing file or a symlink; anything but a regular file is an error.
    method HelperMatches(payload: Bytes, luck: Luck) returns (r: Result<bool, ()>)
      requires Valid()
      modifies this`nodes, this`past
      ensures Valid() && old(past) <= past && |past| <= |old(past)| + 1
      ensures |past| == |old(past)| ==> nodes == old(nodes)
      ensures r == Ok(true) <==> Kept(old(Now()), payload, euid, luck)
      ensures r == Ok(false) <==> Replaceable(old(Now()), payload, euid, luck)
      ensures r == Ok(true) ==> nodes == old(nodes)[names[FILENAME] := old(nodes)[names[FILENAME]].(mode := FINAL_MODE)]
      ensures r != Ok(true) ==> nodes == old(nodes)
    {
      if FILENAME !in names || nodes[names[FILENAME]].Symlink? {
        return Ok(false);
      }
      if !luck.opens || !luck.stats {
        return Err(());
      }
      var file := names[FILENAME];
      var node := nodes[file];
      if !node.Regular? {
        return Err(());
      }
      if node.owner != euid || |node.content| != |payload| {
        return Ok(false);
      }
      if !luck.readable {
        return Err(());
      }
      if node.content != payload {
        return Ok(false);
      }
      if node.mode != FINAL_MODE {
        if !luck.fixesMode {
          return Err(());
        }
        Update(file, node.(mode := FINAL_MODE));
      }
      assert nodes[file] == node.(mode := FINAL_MODE);
      return Ok(true);
    }

    // Temporaries of dead processes; recent ones may still be in use.
    method RemoveStaleTemporaries(luck: Luck, payload: Bytes, ghost before: Disk, ghost from: nat)
      requires Valid() && before == Now() && AllSafe(before, from, payload) && from < |past|
      modifies this`names, this`past
      ensures Valid() && old(past) <= past && AllSafe(before, from, payload)
      ensures names == Unswept(before, luck)
    {
      var left := names.Keys;
      while left != {}
        invariant Valid() && old(past) <= past && AllSafe(before, from, payload)
        invariant left <= old(names).Keys
        invariant names ==
          map name | name in old(names) && (name in left || !Swept(before, name, luck)) :: old(names)[name]
        decreases |left|
      {
        var name :| name in left;
        left := left - {name};
        if name in names && IsTemporary(name) && Old(name, luck) && nodes[names[name]].Regular? {
          assert name[0] == '.' && FILENAME[0] == 's';
          Remove(name);
          assert Safe(before, Now(), payload, euid);
        }
      }
    }

    /**
     Installs the payload. Whatever fails, and wherever a crash stops it, the helper path
     holds its earlier file or the whole payload, and no other inode has changed.
     */
    method EnsureHelper(payload: Bytes, luck: Luck) returns (r: Result<(), ()>)
      requires Valid() && PicksTemporaries(luck)
      modifies this
      ensures Valid() && old(past) <= past
      ensures AllSafe(old(Now()), |old(past)| - 1, payload)
      ensures r.Ok? <==>
        || Kept(old(Now()), payload, euid, luck)
        || (Replaceable(old(Now()), payload, euid, luck) && CanReplace(payload, luck))
      ensures r.Ok? ==> Present(Now()) && exists synced :: Helper(Now()) == Regular(payload, 256, euid, synced)
      ensures r.Ok? && !Kept(old(Now()), payload, euid, luck) ==>
        luck.creates && luck.writes >= |payload| && luck.chmods && luck.syncs && luck.closes && luck.renames
      ensures !Replaceable(old(Now()), payload, euid, luck) ==> names == old(names)
      ensures !Kept(old(Now()), payload, euid, luck) && r.Ok? ==> Helper(Now()).synced
      ensures r.Ok? ==> names.Keys <= old(names).Keys + {FILENAME}
      ensures r.Err? && luck.removes ==> names.Keys <= old(names).Keys
      ensures forall name :: name in old(names) && !Swept(old(Now()), name, luck) ==>
        name in names && (name != FILENAME ==> names[name] == old(names)[name])
      ensures r.Ok? && !Kept(old(Now()), payload, euid, luck) ==>
        forall name :: name in old(names) && Swept(old(Now()), name, luck) ==> name !in names
    {
      ghost var before, from := Now(), |past| - 1;
      assert Safe(before, Now(), payload, euid);
      var matches := HelperMatches(payload, luck);
      assert Safe(before, Now(), payload, euid);
      if matches.Err? || matches.value {
        return if matches.Err? then Err(()) else Ok(());
      }
      r := Replace(payload, luck, before, from);
      NamesAfter(before, names, payload, luck, r.Ok?);
    }

    // The file does not match: a temporary takes its place.
    method Replace(payload: Bytes, luck: Luck, ghost before: Disk, ghost from: nat) returns (r: Result<(), ()>)
      requires Valid() && PicksTemporaries(luck) && before == Now() && AllSafe(before, from, payload) && from < |past|
      modifies this
      ensures Valid() && old(past) <= past && AllSafe(before, from, payload)
      ensures r.Ok? <==> CanReplace(payload, luck)
      ensures r.Ok? ==> Present(Now()) && Helper(Now()) == Installed(payload, euid)
      ensures r.Ok? ==> names == Unswept(before, luck)[FILENAME := names[FILENAME]]
      ensures r.Err? && luck.removes ==> names == Unswept(before, luck)
      ensures r.Err? ==> var left := Unswept(before, luck); names - {luck.pick(left.Keys)} == left
    {
      RemoveStaleTemporaries(luck, payload, before, from);
      if !luck.creates {
        return Err(());
      }
      var temp := luck.pick(names.Keys);
      var file := CreateTemp(temp, payload, before, from);
      r := PutInPlace(temp, file, payload, luck, before, from);
    }

    // Fills the temporary and renames it, or removes it when something failed.
    method PutInPlace(temp: string, file: Inode, payload: Bytes, luck: Luck, ghost before: Disk, ghost from: nat)
      returns (r: Result<(), ()>)
      requires Valid() && temp in names && names[temp] == file && temp != FILENAME
      requires nodes[file] == Regular([], TEMP_MODE, euid, false)
      requires file !in before.nodes && (FILENAME in names ==> names[FILENAME] != file)
      requires AllSafe(before, from, payload) && from < |past|
      modifies this
      ensures Valid() && old(past) <= past && AllSafe(before, from, payload)
      ensures r.Ok? ==>
        names == old(names)[FILENAME := file] - {temp} && file in nodes && nodes[file] == Installed(payload, euid)
      ensures r.Ok? <==> Fills(payload, luck) && luck.renames
      ensures r.Err? ==> names == if luck.removes then old(names) - {temp} else old(names)
    {
      var written := FillTemporary(file, payload, luck, before, from);
      ghost var last := Now();
      assert Safe(before, past[|past| - 1], payload, euid);
      if written && luck.renames {
        Rename(temp, file);
        RenameIsSafe(before, last, Now(), file, payload, euid);
        return Ok(());
      }
      if luck.removes {
        Remove(temp);
        RemoveIsSafe(before, last, Now(), payload, euid);
      }
      return Err(());
    }

    method CreateTemp(temp: string, payload: Bytes, ghost before: Disk, ghost from: nat) returns (file: Inode)
      requires Valid() && temp !in names && IsTemporary(temp)
      requires AllSafe(before, from, payload) && from < |past| && before.nodes == nodes
      modifies this
      ensures Valid() && old(past) <= past && AllSafe(before, from, payload)
      ensures file !in before.nodes && names == old(names)[temp := file]
      ensures nodes == old(nodes)[file := Regular([], TEMP_MODE, euid, false)]
      ensures temp != FILENAME && (FILENAME in names ==> names[FILENAME] != file)
    {
      TemporaryIsNotHelper(temp);
      ghost var last := Now();
      assert Safe(before, past[|past| - 1], payload, euid);
      file := Create(temp);
      OwnFileIsSafe(before, last, Now(), file, payload, euid);
    }

    method Rename(temp: string, file: Inode)
      requires Valid() && temp in names && names[temp] == file && temp != FILENAME
      modifies this`names, this`past
      ensures Valid() && names == old(names)[FILENAME := file] - {temp} && past == old(past) + [Now()]
    {
      names := names[FILENAME := file] - {temp};
      Record();
    }

    // Write, chmod, sync and close, in this order.
    method FillTemporary(file: Inode, payload: Bytes, luck: Luck, ghost before: Disk, ghost from: nat)
      returns (ok: bool)
      requires Valid() && file in nodes && nodes[file] == Regular([], TEMP_MODE, euid, false)
      requires file !in before.nodes && (FILENAME in names ==> names[FILENAME] != file)
      requires AllSafe(before, from, payload) && from < |past|
      modifies this`nodes, this`past
      ensures Valid() && old(past) <= past && AllSafe(before, from, payload)
      ensures nodes.Keys == old(nodes).Keys && forall i :: i in nodes && i != file ==> nodes[i] == old(nodes)[i]
      ensures ok ==> nodes[file] == Installed(payload, euid)
      ensures ok <==> Fills(payload, luck)
    {
      Write(file, payload, luck.writes, before, from);
      if luck.writes < |payload| || !luck.chmods {
        return false;
      }
      assert payload[..|payload|] == payload;
      ghost var last := Now();
      assert Safe(before, past[|past| - 1], payload, euid);
      Update(file, nodes[file].(mode := FINAL_MODE));
      OwnFileIsSafe(before, last, Now(), file, payload, euid);
      if !luck.syncs {
        return false;
      }
      last := Now();
      Update(file, nodes[file].(synced := true));
      OwnFileIsSafe(before, last, Now(), file, payload, euid);
      return luck.closes;
    }
  }

  lemma NamesAfter(before: Disk, names: map<string, Inode>, payload: Bytes, luck: Luck, installed: bool)
    requires PicksTemporaries(luck)
    requires var left := Unswept(before, luck);
      if installed then FILENAME in names && names == left[FILENAME := names[FILENAME]]
      else names - {luck.pick(left.Keys)} == left
    ensures installed ==> names.Keys <= before.names.Keys + {FILENAME}
    ensures forall name :: name in before.names && !Swept(before, name, luck) ==>
      name in names && (name != FILENAME ==> names[name] == before.names[name])
    ensures installed ==> forall name :: name in before.names && Swept(before, name, luck) ==> name !in names
  {
    var left := Unswept(before, luck);
    forall name | name in before.names && !Swept(before, name, luck)
      ensures name in names && (name != FILENAME ==> names[name] == before.names[name])
    {
      assert name in left && left[name] == before.names[name];
      assert !installed ==> name in names - {luck.pick(left.Keys)};
    }
    forall name | installed && Swept(before, name, luck) ensures name !in names {
      TemporaryIsNotHelper(name);
    }
  }

  ghost predicate SpelledTemporary(name: string, middle: string) {
    name == ".system-dns-helper-" + middle + ".dex"
  }

  /** What is swept: the regular files named as temporaries that last changed more than a minute ago. */
  lemma SweptMeans(d: Disk, name: string, luck: Luck)
    requires Consistent(d)
    ensures Swept(d, name, luck) <==>
      && name in d.names && d.nodes[d.names[name]].Regular? && (exists middle :: SpelledTemporary(name, middle))
      && name in luck.ages && luck.ages[name] > 60000 && name !in luck.stuck
  {
    if IsTemporary(name) {
      assert SpelledTemporary(name, name[|TEMP_PREFIX|..|name| - |TEMP_SUFFIX|]);
    }
  }

  ghost predicate OnlyModeSet(was: Node, now: Node, payload: Bytes, euid: nat) {
    exists mode, synced :: was == Regular(payload, mode, euid, synced) && now == Regular(payload, 256, euid, synced)
  }

  /** What a crash may leave: nothing new but the whole file at the path, and no other file changed. */
  lemma SafeMeans(before: Disk, now: Disk, payload: Bytes, euid: nat)
    requires Safe(before, now, payload, euid)
    ensures FILENAME in before.names ==> FILENAME in now.names
    ensures FILENAME in now.names ==>
      || (FILENAME in before.names && now.names[FILENAME] == before.names[FILENAME])
      || (now.names[FILENAME] in now.nodes && now.nodes[now.names[FILENAME]] == Regular(payload, 256, euid, true))
    ensures forall i :: i in before.nodes ==> i in now.nodes
    ensures forall i :: i in before.nodes && now.nodes[i] != before.nodes[i] ==>
      && FILENAME in before.names && before.names[FILENAME] == i
      && OnlyModeSet(before.nodes[i], now.nodes[i], payload, euid)
  {
    forall i | i in before.nodes ensures i in now.nodes {
      assert InodeKept(before, now, i, payload, euid);
    }
    forall i | i in before.nodes && now.nodes[i] != before.nodes[i]
      ensures FILENAME in before.names && before.names[FILENAME] == i
      ensures OnlyModeSet(before.nodes[i], now.nodes[i], payload, euid)
    {
      assert InodeKept(before, now, i, payload, euid);
      var node := before.nodes[i];
      assert node == Regular(payload, node.mode, euid, node.synced);
    }
  }

  /** A helper is kept exactly when it is seen to be the caller's own payload, and replaced when seen not to be. */
  lemma KeptWhenOwn(d: Disk, payload: Bytes, euid: nat, luck: Luck)
    requires Consistent(d)
    ensures Kept(d, payload, euid, luck) <==>
      && luck.opens && luck.stats && luck.readable && FILENAME in d.names
      && exists mode, synced :: Helper(d) == Regular(payload, mode, euid, synced) && (mode == 256 || luck.fixesMode)
    ensures luck.opens && luck.stats && luck.readable && luck.fixesMode ==>
      (Replaceable(d, payload, euid, luck) <==>
        !Kept(d, payload, euid, luck) && (FILENAME in d.names ==> !Helper(d).Special?))
  {
    if Present(d) && Helper(d).Regular? {
      var node := Helper(d);
      assert node == Regular(node.content, node.mode, node.owner, node.synced);
    }
  }

  // A change of one's own new file, away from the helper path, is safe.
  lemma OwnFileIsSafe(before: Disk, last: Disk, now: Disk, file: Inode, payload: Bytes, euid: nat)
    requires Safe(before, last, payload, euid) && file !in before.nodes
    requires FILENAME in now.names <==> FILENAME in last.names
    requires FILENAME in now.names ==> now.names[FILENAME] == last.names[FILENAME] != file
    requires forall i :: i != file && i in last.nodes ==> i in now.nodes && now.nodes[i] == last.nodes[i]
    ensures Safe(before, now, payload, euid)
  {
    forall i | i in before.nodes ensures InodeKept(before, now, i, payload, euid) {
      assert InodeKept(before, last, i, payload, euid);
    }
  }

  lemma TemporaryIsNotHelper(name: string)
    requires IsTemporary(name)
    ensures name != FILENAME
  {
    assert name[0] == '.' && FILENAME[0] == 's';
  }

  // The rename puts the finished file in place in one step.
  lemma RenameIsSafe(before: Disk, last: Disk, now: Disk, file: Inode, payload: Bytes, euid: nat)
    requires Safe(before, last, payload, euid) && file !in before.nodes
    requires now.nodes == last.nodes && file in now.nodes && now.nodes[file] == Installed(payload, euid)
    requires FILENAME in now.names && now.names[FILENAME] == file
    ensures Safe(before, now, payload, euid)
  {
    forall i | i in before.nodes ensures InodeKept(before, now, i, payload, euid) {
      assert InodeKept(before, last, i, payload, euid);
    }
  }

  lemma RemoveIsSafe(before: Disk, last: Disk, now: Disk, payload: Bytes, euid: nat)
    requires Safe(before, last, payload, euid) && now.nodes == last.nodes
    requires FILENAME in now.names <==> FILENAME in last.names
    requires FILENAME in now.names ==> now.names[FILENAME] == last.names[FILENAME]
    ensures Safe(before, now, payload, euid)
  {
    forall i | i in before.nodes ensures InodeKept(before, now, i, payload, euid) {
      assert InodeKept(before, last, i, payload, euid);
    }
  }
}
