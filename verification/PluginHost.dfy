/**
 The pool of one service (`Host` in host.go): reconciling the running plugins with an
 envelope, and the files they share one directory for. The kernel and the library
 enter through `World`: which guards have exited and which calls fail.
 */
module PluginHost {
  import opened Prelude
  import opened Paths
  import opened PluginOptions

  // specKey: everything that reaches the process. Its JSON text is taken to be injective.
  datatype Key = Key(dir: string, spec: Spec)

  // How far the start of one plugin gets.
  datatype Luck = Luck(writes: nat, leavesPartial: bool, starts: bool)

  datatype World = World(
    exited: set<Key>, listens: bool, makesDir: bool, environ: map<string, string>, luck: nat -> Luck)

  datatype ApplyError =
    | HostClosed | NoProtector | ListenFailed | NoWorkingDir | WriteFailed | BadReference | CommandFailed

  class Guard {
    const key: Key
    const command: seq<string>
    const environment: map<string, string>
    // The variables of the core when the plugin was started.
    const inherited: map<string, string>

    constructor (key: Key, command: seq<string>, environment: map<string, string>, inherited: map<string, string>)
      ensures this.key == key && this.command == command && this.environment == environment
      ensures this.inherited == inherited
    {
      this.key, this.command, this.environment, this.inherited := key, command, environment, inherited;
    }

    // It executes what its plugin asks for.
    predicate Runs() {
      Executes(command, environment, key, inherited)
    }
  }

  class Server {
    const path: string
    var verify: bool

    constructor (path: string, verify: bool)
      ensures this.path == path && this.verify == verify
    {
      this.path, this.verify := path, verify;
    }
  }

  datatype Event = Asked(guard: Guard) | Waited(guard: Guard) | Started(guard: Guard)

  // ---- The files of a plugin ----

  datatype Planned = Planned(path: string, content: string)

  function Plan(key: Key): seq<Planned> {
    seq(|key.spec.files|, i requires 0 <= i < |key.spec.files| =>
      Planned(Join(key.dir, key.spec.files[i].name), key.spec.files[i].content))
  }

  // What is on disk once these files are written in order.
  function Content(plan: seq<Planned>): map<string, string> {
    if plan == [] then map[] else Content(plan[..|plan| - 1])[plan[|plan| - 1].path := plan[|plan| - 1].content]
  }

  function FilesOf(key: Key): map<string, string> {
    Content(Plan(key))
  }

  function KeyAt(o: Options, i: nat): Key
    requires i < |o.plugins|
  {
    Key(o.workingDir, o.plugins[i])
  }

  function WantedUpTo(o: Options, n: nat): set<Key>
    requires n <= |o.plugins|
  {
    set i | 0 <= i < n :: KeyAt(o, i)
  }

  function Wanted(o: Option<Options>): set<Key> {
    if o.None? then {} else WantedUpTo(o.value, |o.value.plugins|)
  }

  ghost predicate Holds(disk: map<string, string>, part: map<string, string>) {
    forall p :: p in part ==> p in disk && disk[p] == part[p]
  }

  ghost predicate Apart(one: map<string, string>, two: map<string, string>) {
    forall p :: p in one ==> p !in two
  }

  ghost predicate Owned(files: Key -> map<string, string>, keys: set<Key>, p: string) {
    exists k :: k in keys && p in files(k)
  }

  // `disk` is exactly the disjoint union of what `files` gives for `keys`.
  ghost predicate IsUnion(files: Key -> map<string, string>, keys: set<Key>, disk: map<string, string>) {
    && (forall a, b :: a in keys && b in keys && a != b ==> Apart(files(a), files(b)))
    && (forall k :: k in keys ==> Holds(disk, files(k)))
    && (forall p :: p in disk ==> Owned(files, keys, p))
  }

  /** The pool's files on disk are exactly the disjoint union of the files of the plugins `keys`. */
  ghost predicate Conserved(keys: set<Key>, disk: map<string, string>) {
    IsUnion(FilesOf, keys, disk)
  }

  lemma {:induction false} PathsOfContent(plan: seq<Planned>, p: string)
    ensures p in Content(plan) <==> exists i :: 0 <= i < |plan| && plan[i].path == p
  {
    if plan != [] {
      var front := plan[..|plan| - 1];
      PathsOfContent(front, p);
      if p in Content(front) {
        var i :| 0 <= i < |front| && front[i].path == p;
        assert plan[i].path == p;
      }
      if i :| 0 <= i < |plan| && plan[i].path == p {
        assert i < |front| ==> front[i].path == p;
      }
    }
  }

  lemma ContentGrows(plan: seq<Planned>, i: nat)
    requires i < |plan|
    ensures Content(plan[..i + 1]) == Content(plan[..i])[plan[i].path := plan[i].content]
  {
    assert plan[..i + 1][..i] == plan[..i];
  }

  lemma {:induction false} NameIndex(specs: seq<Spec>, i: nat, j: nat) returns (at: nat)
    requires i < |specs| && j < |specs[i].files|
    ensures |FileNames(specs[..i])| <= at < |FileNames(specs[..i + 1])| <= |FileNames(specs)|
    ensures FileNames(specs)[at] == specs[i].files[j].name
  {
    NamesArePrefix(specs, i, |specs[i].files|);
    assert specs[i].files[..|specs[i].files|] == specs[i].files;
    at := |FileNames(specs[..i])| + j;
    assert (FileNames(specs[..i]) + NamesOf(specs[i].files))[at] == NamesOf(specs[i].files)[j];
  }

  lemma LaterNames(specs: seq<Spec>, i: nat, j: nat)
    requires i < j <= |specs|
    ensures |FileNames(specs[..i + 1])| <= |FileNames(specs[..j])|
  {
    if i + 1 < j {
      LaterNames(specs, i, j - 1);
      assert specs[..j][..j - 1] == specs[..j - 1];
    }
  }

  lemma PathsDiffer(o: Options, a: nat, b: nat, i: nat, j: nat)
    requires Accepted(o) && a < b < |o.plugins| && i < |o.plugins[a].files| && j < |o.plugins[b].files|
    ensures Join(o.workingDir, o.plugins[a].files[i].name) != Join(o.workingDir, o.plugins[b].files[j].name)
  {
    assert PluginAccepted(o.plugins[a]) && PluginAccepted(o.plugins[b]);
    var x := NameIndex(o.plugins, a, i);
    var y := NameIndex(o.plugins, b, j);
    LaterNames(o.plugins, a, b);
    assert FileNames(o.plugins)[x] != FileNames(o.plugins)[y];
    if Join(o.workingDir, o.plugins[a].files[i].name) == Join(o.workingDir, o.plugins[b].files[j].name) {
      JoinIsInjective(o.workingDir, o.plugins[a].files[i].name, o.plugins[b].files[j].name);
    }
  }

  /** In an accepted envelope no two plugins have a file path in common. */
  lemma WantedAreDisjoint(o: Options, a: nat, b: nat)
    requires Accepted(o) && a < b < |o.plugins|
    ensures Apart(FilesOf(KeyAt(o, a)), FilesOf(KeyAt(o, b)))
  {
    forall p | p in FilesOf(KeyAt(o, a)) ensures p !in FilesOf(KeyAt(o, b)) {
      if p in FilesOf(KeyAt(o, b)) {
        var i := FileAt(KeyAt(o, a), p);
        var j := FileAt(KeyAt(o, b), p);
        PathsDiffer(o, a, b, i, j);
      }
    }
  }

  lemma FileAt(key: Key, p: string) returns (i: nat)
    requires p in FilesOf(key)
    ensures i < |key.spec.files| && Join(key.dir, key.spec.files[i].name) == p
  {
    PathsOfContent(Plan(key), p);
    i :| 0 <= i < |Plan(key)| && Plan(key)[i].path == p;
  }

  lemma AllWantedAreDisjoint(o: Options)
    requires Accepted(o)
    ensures forall x, y :: x in Wanted(Some(o)) && y in Wanted(Some(o)) && x != y ==> Apart(FilesOf(x), FilesOf(y))
  {
    forall x, y | x in Wanted(Some(o)) && y in Wanted(Some(o)) && x != y ensures Apart(FilesOf(x), FilesOf(y)) {
      var a :| 0 <= a < |o.plugins| && KeyAt(o, a) == x;
      var b :| 0 <= b < |o.plugins| && KeyAt(o, b) == y;
      if a < b {
        WantedAreDisjoint(o, a, b);
      } else {
        WantedAreDisjoint(o, b, a);
      }
    }
  }

  // What an accepted envelope says of one plugin: its file names are valid and used once.
  predicate GoodKey(key: Key) {
    && (forall i :: 0 <= i < |key.spec.files| ==> ValidFileName(key.spec.files[i].name))
    && (forall i, j :: 0 <= i < j < |key.spec.files| ==> key.spec.files[i].name != key.spec.files[j].name)
  }

  lemma AcceptedIsGood(o: Options, i: nat)
    requires Accepted(o) && i < |o.plugins|
    ensures GoodKey(KeyAt(o, i))
  {
    assert PluginAccepted(o.plugins[i]);
    forall a, b | 0 <= a < b < |o.plugins[i].files|
      ensures o.plugins[i].files[a].name != o.plugins[i].files[b].name
    {
      NamesOfOneDiffer(o.plugins, i, a, b);
    }
  }

  lemma NamesOfOneDiffer(specs: seq<Spec>, i: nat, a: nat, b: nat)
    requires NoDuplicates(FileNames(specs)) && i < |specs| && a < b < |specs[i].files|
    ensures specs[i].files[a].name != specs[i].files[b].name
  {
    NamesArePrefix(specs, i, |specs[i].files|);
    assert specs[i].files[..|specs[i].files|] == specs[i].files;
    var before, names := FileNames(specs[..i]), NamesOf(specs[i].files);
    assert (before + names)[|before| + a] == names[a] && (before + names)[|before| + b] == names[b];
    assert FileNames(specs)[|before| + a] != FileNames(specs)[|before| + b];
  }

  // A path that is written once keeps what was written.
  lemma {:induction false} ContentAt(plan: seq<Planned>, i: nat)
    requires i < |plan| && forall j :: i < j < |plan| ==> plan[j].path != plan[i].path
    ensures plan[i].path in Content(plan) && Content(plan)[plan[i].path] == plan[i].content
  {
    if i < |plan| - 1 {
      ContentAt(plan[..|plan| - 1], i);
    }
  }

  /** What a plugin writes: each of its files, under its name in the working directory, with its own content. */
  lemma FilesHaveTheirContent(key: Key, i: nat)
    requires GoodKey(key) && i < |key.spec.files|
    ensures Join(key.dir, key.spec.files[i].name) in FilesOf(key)
    ensures FilesOf(key)[Join(key.dir, key.spec.files[i].name)] == key.spec.files[i].content
  {
    forall j | i < j < |key.spec.files| ensures Plan(key)[j].path != Plan(key)[i].path {
      if Join(key.dir, key.spec.files[j].name) == Join(key.dir, key.spec.files[i].name) {
        JoinIsInjective(key.dir, key.spec.files[j].name, key.spec.files[i].name);
      }
    }
    ContentAt(Plan(key), i);
  }

  // The disk holds each file of each of these plugins, with its content, and nothing else.
  ghost predicate FilesOnDisk(keys: set<Key>, disk: map<string, string>) {
    && (forall k, i :: k in keys && 0 <= i < |k.spec.files| ==>
      Join(k.dir, k.spec.files[i].name) in disk && disk[Join(k.dir, k.spec.files[i].name)] == k.spec.files[i].content)
    && (forall p :: p in disk ==>
      exists k, i :: k in keys && 0 <= i < |k.spec.files| && p == Join(k.dir, k.spec.files[i].name))
  }

  lemma ConservedIsOnDisk(keys: set<Key>, disk: map<string, string>)
    requires Conserved(keys, disk) && forall k :: k in keys ==> GoodKey(k)
    ensures FilesOnDisk(keys, disk)
  {
    forall k, i | k in keys && 0 <= i < |k.spec.files|
      ensures Join(k.dir, k.spec.files[i].name) in disk
      ensures disk[Join(k.dir, k.spec.files[i].name)] == k.spec.files[i].content
    {
      FilesHaveTheirContent(k, i);
      assert Holds(disk, FilesOf(k));
    }
    forall p | p in disk
      ensures exists k, i :: k in keys && 0 <= i < |k.spec.files| && p == Join(k.dir, k.spec.files[i].name)
    {
      assert Owned(FilesOf, keys, p);
      var k :| k in keys && p in FilesOf(k);
      var i := FileAt(k, p);
    }
  }

  // The guards are those of the envelope's plugins, in its working directory.
  ghost predicate RunsEnvelope(o: Option<Options>, keys: set<Key>) {
    && (o.None? ==> keys == {})
    && (o.Some? ==>
      && (forall i :: 0 <= i < |o.value.plugins| ==> Key(o.value.workingDir, o.value.plugins[i]) in keys)
      && (forall k :: k in keys ==> k.dir == o.value.workingDir && k.spec in o.value.plugins))
  }

  lemma WantedIsEnvelope(o: Option<Options>)
    ensures RunsEnvelope(o, Wanted(o))
  {
    if o.Some? {
      forall i | 0 <= i < |o.value.plugins|
        ensures Key(o.value.workingDir, o.value.plugins[i]) in Wanted(o)
      {
        assert KeyAt(o.value, i) in Wanted(o);
      }
    }
  }

  lemma RestHolds(disk: map<string, string>, gone: map<string, string>, part: map<string, string>)
    requires Holds(disk, part) && Apart(part, gone)
    ensures Holds(disk - gone.Keys, part)
  {
  }

  lemma RestIsOwned(files: Key -> map<string, string>, keys: set<Key>, key: Key, p: string)
    requires Owned(files, keys, p) && p !in files(key)
    ensures Owned(files, keys - {key}, p)
  {
    var k :| k in keys && p in files(k);
    assert k in keys - {key};
  }

  lemma DropFromUnion(files: Key -> map<string, string>, keys: set<Key>, key: Key, disk: map<string, string>)
    requires IsUnion(files, keys, disk) && key in keys
    ensures IsUnion(files, keys - {key}, disk - files(key).Keys)
  {
    var rest := disk - files(key).Keys;
    forall k | k in keys - {key} ensures Holds(rest, files(k)) {
      RestHolds(disk, files(key), files(k));
    }
    forall p | p in rest ensures Owned(files, keys - {key}, p) {
      RestIsOwned(files, keys, key, p);
    }
  }

  lemma AddToUnion(files: Key -> map<string, string>, keys: set<Key>, key: Key, disk: map<string, string>)
    requires IsUnion(files, keys, disk) && key !in keys && forall k :: k in keys ==> Apart(files(k), files(key))
    ensures IsUnion(files, keys + {key}, disk + files(key)) && Apart(files(key), disk)
  {
    var grown := disk + files(key);
    forall k | k in keys + {key} ensures Holds(grown, files(k)) {
      if k in keys {
        assert Holds(disk, files(k)) && Apart(files(k), files(key));
      }
    }
    forall a, b | a in keys + {key} && b in keys + {key} && a != b ensures Apart(files(a), files(b)) {
      if a == key {
        assert Apart(files(b), files(key));
      }
    }
    forall p | p in grown ensures Owned(files, keys + {key}, p) {
      if p !in files(key) {
        assert Owned(files, keys, p);
      } else {
        assert key in keys + {key};
      }
    }
    forall p | p in files(key) ensures p !in disk {
      assert p in disk ==> Owned(files, keys, p);
    }
  }

  /** A cleanup removes the files of its own plugin and of no other. */
  lemma DropConserves(keys: set<Key>, key: Key, disk: map<string, string>)
    requires Conserved(keys, disk) && key in keys
    ensures Conserved(keys - {key}, disk - FilesOf(key).Keys)
  {
    DropFromUnion(FilesOf, keys, key, disk);
  }

  lemma AddConserves(keys: set<Key>, key: Key, disk: map<string, string>)
    requires Conserved(keys, disk) && key !in keys && forall k :: k in keys ==> Apart(FilesOf(k), FilesOf(key))
    ensures Conserved(keys + {key}, disk + FilesOf(key)) && Apart(FilesOf(key), disk)
  {
    AddToUnion(FilesOf, keys, key, disk);
  }

  // ---- Starting one plugin ----

  function NameSet(key: Key): set<string> {
    set i | 0 <= i < |key.spec.files| :: key.spec.files[i].name
  }

  predicate Expands(key: Key, value: string) {
    Filled(Read(value), key.dir, NameSet(key)).Ok?
  }

  // Every reference in the command and the environment names a file of the plugin.
  predicate Refers(key: Key) {
    && (forall i :: 0 <= i < |key.spec.command| ==> Expands(key, key.spec.command[i]))
    && (forall name :: name in key.spec.environment ==> Expands(key, key.spec.environment[name]))
  }

  predicate CanStart(key: Key, luck: Luck) {
    luck.writes >= |key.spec.files| && Refers(key) && luck.starts
  }

  // What is executed: the command and the environment with their references filled in; the plugin's variables override.
  predicate Executes(command: seq<string>, environment: map<string, string>, key: Key, inherited: map<string, string>) {
    ExpandedCommand(command, key) && ExpandedEnvironment(environment, key, inherited)
  }

  predicate ExpandedCommand(command: seq<string>, key: Key) {
    |command| == |key.spec.command|
    && forall i :: 0 <= i < |command| ==> Filled(Read(key.spec.command[i]), key.dir, NameSet(key)) == Ok(command[i])
  }

  predicate ExpandedEnvironment(environment: map<string, string>, key: Key, inherited: map<string, string>) {
    && environment.Keys == inherited.Keys + key.spec.environment.Keys
    && (forall name :: name in key.spec.environment ==>
      Filled(Read(key.spec.environment[name]), key.dir, NameSet(key)) == Ok(environment[name]))
    && (forall name :: name in inherited && name !in key.spec.environment ==> environment[name] == inherited[name])
  }

  method ExpandCommand(key: Key) returns (command: seq<string>, ok: bool)
    ensures ok <==> forall i :: 0 <= i < |key.spec.command| ==> Expands(key, key.spec.command[i])
    ensures ok ==> ExpandedCommand(command, key)
  {
    command := [];
    for i := 0 to |key.spec.command|
      invariant |command| == i
      invariant forall j :: 0 <= j < i ==> Filled(Read(key.spec.command[j]), key.dir, NameSet(key)) == Ok(command[j])
    {
      var expanded := Expand(key.spec.command[i], key.dir, NameSet(key));
      if expanded.Err? {
        assert !Expands(key, key.spec.command[i]);
        return command, false;
      }
      command := command + [expanded.value];
    }
    ok := true;
  }

  // The variables are taken in no particular order.
  method ExpandEnvironment(key: Key, inherited: map<string, string>)
    returns (environment: map<string, string>, ok: bool)
    ensures ok <==> forall name :: name in key.spec.environment ==> Expands(key, key.spec.environment[name])
    ensures ok ==> ExpandedEnvironment(environment, key, inherited)
  {
    environment := inherited;
    var names := key.spec.environment.Keys;
    while names != {}
      invariant HalfExpanded(environment, key, inherited, names)
      decreases |names|
    {
      var name :| name in names;
      var expanded := Expand(key.spec.environment[name], key.dir, NameSet(key));
      if expanded.Err? {
        assert !Expands(key, key.spec.environment[name]);
        return environment, false;
      }
      OneMoreVariable(environment, key, inherited, names, name, expanded.value);
      environment := environment[name := expanded.value];
      names := names - {name};
    }
    AllVariables(environment, key, inherited);
    ok := true;
  }

  // The variables `left` are still to be added.
  predicate HalfExpanded(environment: map<string, string>, key: Key, inherited: map<string, string>,
                         left: set<string>) {
    && left <= key.spec.environment.Keys
    && environment.Keys == inherited.Keys + (key.spec.environment.Keys - left)
    && (forall name :: name in key.spec.environment.Keys - left ==>
      Filled(Read(key.spec.environment[name]), key.dir, NameSet(key)) == Ok(environment[name]))
    && (forall name :: name in inherited && (name !in key.spec.environment || name in left) ==>
      environment[name] == inherited[name])
  }

  lemma OneMoreVariable(environment: map<string, string>, key: Key, inherited: map<string, string>, left: set<string>,
                        name: string, value: string)
    requires HalfExpanded(environment, key, inherited, left) && name in left
    requires Filled(Read(key.spec.environment[name]), key.dir, NameSet(key)) == Ok(value)
    ensures HalfExpanded(environment[name := value], key, inherited, left - {name})
  {
  }

  lemma AllVariables(environment: map<string, string>, key: Key, inherited: map<string, string>)
    requires HalfExpanded(environment, key, inherited, {})
    ensures ExpandedEnvironment(environment, key, inherited)
    ensures forall name :: name in key.spec.environment ==> Expands(key, key.spec.environment[name])
  {
    assert key.spec.environment.Keys - {} == key.spec.environment.Keys;
  }

  // ---- The pool ----

  function KeysOf(guards: seq<Guard>): set<Key> {
    set g | g in guards :: g.key
  }

  function Asks(guards: seq<Guard>): seq<Event> {
    if guards == [] then [] else Asks(guards[..|guards| - 1]) + [Asked(guards[|guards| - 1])]
  }

  function Waits(guards: seq<Guard>): seq<Event> {
    if guards == [] then [] else Waits(guards[..|guards| - 1]) + [Waited(guards[|guards| - 1])]
  }

  function Starts(guards: seq<Guard>): seq<Event> {
    if guards == [] then [] else Starts(guards[..|guards| - 1]) + [Started(guards[|guards| - 1])]
  }

  predicate DistinctKeys(guards: seq<Guard>) {
    forall i, j :: 0 <= i < j < |guards| ==> guards[i].key != guards[j].key
  }

  // ---- When an Apply succeeds ----

  function PathOf(o: Option<Options>): string {
    if o.Some? then o.value.protectPath else ""
  }

  predicate CanServe(o: Option<Options>, path: string, w: World, hasProtector: bool) {
    PathOf(o) == path || PathOf(o) == "" || (hasProtector && w.listens)
  }

  predicate FirstOfItsKey(o: Options, i: nat)
    requires i < |o.plugins|
  {
    forall j :: 0 <= j < i ==> KeyAt(o, j) != KeyAt(o, i)
  }

  // Every plugin that does not run yet can be started; a repeated one is started once.
  predicate CanStartMissing(o: Options, n: nat, running: set<Key>, w: World)
    requires n <= |o.plugins|
  {
    forall i :: 0 <= i < n && KeyAt(o, i) !in running && FirstOfItsKey(o, i) ==> CanStart(KeyAt(o, i), w.luck(i))
  }

  predicate Succeeds(o: Option<Options>, w: World, running: set<Key>, path: string, hasProtector: bool) {
    && CanServe(o, path, w, hasProtector)
    && (o.Some? ==> w.makesDir && CanStartMissing(o.value, |o.value.plugins|, running, w))
  }

  // The plugin runs, is a repetition of an earlier one, or can be started.
  predicate Startable(o: Options, i: nat, w: World, running: set<Key>)
    requires i < |o.plugins|
  {
    var key := Key(o.workingDir, o.plugins[i]);
    || key in running
    || (exists j :: 0 <= j < i && o.plugins[j] == o.plugins[i])
    || (w.luck(i).starts && w.luck(i).writes >= |o.plugins[i].files| && AllReferencesKnown(key))
  }

  lemma StartableMeans(o: Options, i: nat, w: World, running: set<Key>)
    requires i < |o.plugins|
    ensures Startable(o, i, w, running) <==>
      (KeyAt(o, i) !in running && FirstOfItsKey(o, i) ==> CanStart(KeyAt(o, i), w.luck(i)))
  {
    RefersMeans(KeyAt(o, i));
    assert forall j :: 0 <= j < i ==> (KeyAt(o, j) == KeyAt(o, i) <==> o.plugins[j] == o.plugins[i]);
  }

  /** When an Apply succeeds, in terms of the envelope and the calls that fail. */
  lemma SucceedsMeans(o: Option<Options>, w: World, running: set<Key>, path: string, hasProtector: bool)
    ensures Succeeds(o, w, running, path, hasProtector) <==>
      && (PathOf(o) == "" || PathOf(o) == path || (hasProtector && w.listens))
      && (o.Some? ==> w.makesDir && forall i :: 0 <= i < |o.value.plugins| ==> Startable(o.value, i, w, running))
  {
    if o.Some? {
      forall i | 0 <= i < |o.value.plugins|
        ensures Startable(o.value, i, w, running) <==>
          (KeyAt(o.value, i) !in running && FirstOfItsKey(o.value, i) ==> CanStart(KeyAt(o.value, i), w.luck(i)))
      {
        StartableMeans(o.value, i, w, running);
      }
    }
  }

  // Every reference in the command and the environment is closed and names a file of the plugin.
  predicate AllReferencesKnown(key: Key) {
    && (forall i :: 0 <= i < |key.spec.command| ==> AllKnown(Read(key.spec.command[i]), NameSet(key)))
    && (forall name :: name in key.spec.environment ==> AllKnown(Read(key.spec.environment[name]), NameSet(key)))
  }

  lemma RefersMeans(key: Key)
    ensures Refers(key) <==> AllReferencesKnown(key)
    ensures forall name :: name in NameSet(key) <==>
      exists i :: 0 <= i < |key.spec.files| && key.spec.files[i].name == name
  {
    forall value ensures Expands(key, value) <==> AllKnown(Read(value), NameSet(key)) {
      FilledWhenKnown(Read(value), key.dir, NameSet(key));
    }
  }

  datatype Call = Apply(options: Option<Options>, world: World) | Close

  class Host {
    const hasProtector: bool
    var closed: bool
    var guards: map<Key, Guard>
    var server: Server?
    // The files the pool has written and not removed, with their contents.
    var disk: map<string, string>
    // The stops, waits and starts so far.
    var trace: seq<Event>

    ghost predicate Sound()
      reads this
    {
      && GoodGuards(guards)
      && Conserved(guards.Keys, disk)
      && (server != null ==> server.path != "")
    }

    ghost predicate Valid()
      reads this
    {
      Sound() && (closed ==> guards == map[] && server == null)
    }

    constructor (hasProtector: bool)
      ensures Valid() && !closed && guards == map[] && server == null && disk == map[]
    {
      this.hasProtector := hasProtector;
      closed, guards, server, disk, trace := false, map[], null, map[], [];
    }

    method RemoveFiles(plan: seq<Planned>)
      modifies this`disk
      ensures disk == old(disk) - Content(plan).Keys
    {
      for i := 0 to |plan|
        invariant disk == old(disk) - Content(plan[..i]).Keys
      {
        ContentGrows(plan, i);
        disk := disk - {plan[i].path};
      }
      assert plan[..|plan|] == plan;
    }

    // The file part of prepare: every path is tracked before it is written.
    method WriteFiles(plan: seq<Planned>, luck: Luck) returns (tracked: nat, ok: bool)
      modifies this`disk
      ensures tracked <= |plan| && (ok <==> luck.writes >= |plan|)
      ensures ok ==> tracked == |plan| && disk == old(disk) + Content(plan)
      ensures !ok ==> disk - Content(plan[..tracked]).Keys == old(disk) - Content(plan[..tracked]).Keys
    {
      for i := 0 to |plan|
        invariant i <= luck.writes && disk == old(disk) + Content(plan[..i])
      {
        ContentGrows(plan, i);
        if i == luck.writes {
          PartialWrite(old(disk), disk, plan, i);
          if luck.leavesPartial {
            disk := disk[plan[i].path := ""];
          }
          return i + 1, false;
        }
        disk := disk[plan[i].path := plan[i].content];
      }
      assert plan[..|plan|] == plan;
      return |plan|, true;
    }

    method Start(key: Key, luck: Luck, inherited: map<string, string>) returns (r: Result<Guard, ApplyError>)
      requires Apart(FilesOf(key), disk)
      modifies this`disk, this`trace
      ensures r.Ok? <==> CanStart(key, luck)
      ensures r.Ok? ==>
        fresh(r.value) && r.value.key == key && r.value.Runs() && r.value.inherited == inherited
      ensures r.Ok? ==> disk == old(disk) + FilesOf(key) && trace == old(trace) + [Started(r.value)]
      ensures r.Err? ==> disk == old(disk) && trace == old(trace)
      ensures r.Err? ==>
        r.error == if luck.writes < |key.spec.files| then WriteFailed
          else if !Refers(key) then BadReference else CommandFailed
    {
      ghost var before := disk;
      var plan := Plan(key);
      var tracked, written := WriteFiles(plan, luck);
      if !written {
        RemoveFiles(plan[..tracked]);
        CleanedUp(before, plan, tracked);
        return Err(WriteFailed);
      }
      var command, ok := ExpandCommand(key);
      var environment: map<string, string> := map[];
      if ok {
        environment, ok := ExpandEnvironment(key, inherited);
      }
      if !ok || !luck.starts {
        RemoveFiles(plan);
        CleanedUp(before, plan, tracked);
        return Err(if !ok then BadReference else CommandFailed);
      }
      var guard := new Guard(key, command, environment, inherited);
      trace := trace + [Started(guard)];
      return Ok(guard);
    }

    method AskAll(removed: seq<Guard>)
      modifies this`trace
      ensures trace == old(trace) + Asks(removed)
    {
      for i := 0 to |removed|
        invariant trace == old(trace) + Asks(removed[..i])
      {
        EventsStep(removed, i);
        trace := trace + [Asked(removed[i])];
      }
      assert removed[..|removed|] == removed;
    }

    method WaitForAll(removed: seq<Guard>, ghost keys: set<Key>)
      requires Conserved(keys, disk) && KeysOf(removed) <= keys && DistinctKeys(removed)
      modifies this`disk, this`trace
      ensures Conserved(keys - KeysOf(removed), disk)
      ensures trace == old(trace) + Waits(removed)
    {
      assert keys - KeysOf(removed[..0]) == keys;
      for i := 0 to |removed|
        invariant trace == old(trace) + Waits(removed[..i])
        invariant Conserved(keys - KeysOf(removed[..i]), disk)
      {
        EventsStep(removed, i);
        trace := trace + [Waited(removed[i])];
        DropNext(keys, removed, i, disk);
        RemoveFiles(Plan(removed[i].key));
      }
      assert removed[..|removed|] == removed;
    }

    /** Signals every guard before it waits for the first, and removes the files of each. */
    method StopGuards(removed: seq<Guard>, ghost keys: set<Key>)
      requires Conserved(keys, disk) && KeysOf(removed) <= keys && DistinctKeys(removed)
      modifies this`disk, this`trace
      ensures Conserved(keys - KeysOf(removed), disk)
      ensures trace == old(trace) + Asks(removed) + Waits(removed)
    {
      AskAll(removed);
      WaitForAll(removed, keys);
    }

    // Signals every guard, then waits for each.
    method StopAll() returns (ghost stopped: seq<Guard>)
      requires Sound()
      modifies this`guards, this`server, this`disk, this`trace
      ensures Sound() && guards == map[] && server == null && disk == map[]
      ensures TakenFrom(old(guards), {}, stopped)
      ensures trace == old(trace) + Asks(stopped) + Waits(stopped)
    {
      var all := TakeGuards({});
      stopped := all;
      StopGuards(all, old(guards.Keys));
      NothingLeft(disk);
      server := null;
    }

    // Takes out the guards that are not kept, and stops them.
    method StopOthers(kept: set<Key>) returns (ghost removed: seq<Guard>)
      requires Valid() && !closed
      modifies this`guards, this`disk, this`trace
      ensures Valid()
      ensures TakenFrom(old(guards), kept, removed) && guards == old(guards) - KeysOf(removed)
      ensures trace == old(trace) + Asks(removed) + Waits(removed)
    {
      var taken := TakeGuards(kept);
      removed := taken;
      FewerGoodGuards(old(guards), KeysOf(taken));
      StopGuards(taken, old(guards.Keys));
    }

    function ServerPath(): string
      reads this
    {
      if server == null then "" else server.path
    }

    /** Keeps the listener while its path is unchanged. */
    method UpdateServer(o: Option<Options>, w: World) returns (error: Option<ApplyError>)
      requires server != null ==> server.path != ""
      modifies this`server, server
      ensures error.None? <==> CanServe(o, old(ServerPath()), w, hasProtector)
      ensures error.Some? ==> error.value == if hasProtector then ListenFailed else NoProtector
      ensures error.None? ==> ServerPath() == PathOf(o)
      ensures server != null ==> server.path != ""
      ensures error.None? && server != null ==> server.verify == o.value.verifyPeer
      ensures error.None? && PathOf(o) == old(ServerPath()) ==> server == old(server)
      ensures server == null || server == old(server) || fresh(server)
    {
      var path, verify := "", false;
      if o.Some? {
        path, verify := o.value.protectPath, o.value.verifyPeer;
      }
      if server != null && server.path == path {
        server.verify := verify;
        return None;
      }
      if server != null {
        server := null;
      }
      if path == "" {
        return None;
      }
      if !hasProtector {
        return Some(NoProtector);
      }
      if !w.listens {
        return Some(ListenFailed);
      }
      server := new Server(path, verify);
      return None;
    }

    // Starts a plugin that shares no path with the running ones, and puts it in the map.
    method StartGuard(key: Key, luck: Luck, inherited: map<string, string>) returns (r: Result<Guard, ApplyError>)
      requires Valid() && !closed && key !in guards && GoodKey(key)
      requires forall k :: k in guards ==> Apart(FilesOf(k), FilesOf(key))
      modifies this`guards, this`disk, this`trace
      ensures Valid()
      ensures r.Ok? <==> CanStart(key, luck)
      ensures r.Ok? ==>
        fresh(r.value) && r.value.key == key && r.value.Runs() && r.value.inherited == inherited
      ensures r.Ok? ==> guards == old(guards)[key := r.value] && trace == old(trace) + [Started(r.value)]
      ensures r.Err? ==> guards == old(guards) && disk == old(disk) && trace == old(trace)
    {
      AddConserves(guards.Keys, key, disk);
      r := Start(key, luck, inherited);
      if r.Ok? {
        OneMoreGoodGuard(guards, r.value);
        guards := guards[key := r.value];
      }
    }

    method StartMissing(o: Options, w: World) returns (r: Result<(), ApplyError>, ghost started: seq<Guard>)
      requires Valid() && !closed && Accepted(o) && guards.Keys <= Wanted(Some(o))
      modifies this`guards, this`disk, this`trace
      ensures Valid() && trace == old(trace) + Starts(started)
      ensures NewlyStarted(old(guards), guards, started) && forall g :: g in started ==> fresh(g)
      ensures r.Ok? ==> guards.Keys == Wanted(Some(o))
      ensures r.Ok? <==> w.makesDir && CanStartMissing(o, |o.plugins|, old(guards.Keys), w)
    {
      started := [];
      if !w.makesDir {
        return Err(NoWorkingDir), started;
      }
      r, started := StartEach(o, w);
    }

    // The loop over the keys.
    method StartEach(o: Options, w: World) returns (r: Result<(), ApplyError>, ghost started: seq<Guard>)
      requires Valid() && !closed && Accepted(o) && guards.Keys <= Wanted(Some(o))
      modifies this`guards, this`disk, this`trace
      ensures Valid() && trace == old(trace) + Starts(started)
      ensures NewlyStarted(old(guards), guards, started) && forall g :: g in started ==> fresh(g)
      ensures r.Ok? ==> guards.Keys == Wanted(Some(o))
      ensures r.Ok? <==> CanStartMissing(o, |o.plugins|, old(guards.Keys), w)
    {
      started := [];
      NothingStarted(o, guards, w);
      for i := 0 to |o.plugins|
        invariant Valid() && !closed && trace == old(trace) + Starts(started)
        invariant Progress(o, i, old(guards), guards, started, w) && forall g :: g in started ==> fresh(g)
      {
        var error, more := StartNext(o, i, w, old(guards), started, old(trace));
        if error.Some? {
          return Err(error.value), started;
        }
        started := more;
      }
      AllStarted(o, old(guards), guards, started, w);
      return Ok(()), started;
    }

    // One turn of the loop, and the list of what was started.
    method StartNext(o: Options, i: nat, w: World, ghost before: map<Key, Guard>, ghost started: seq<Guard>,
                     ghost base: seq<Event>)
      returns (error: Option<ApplyError>, ghost now: seq<Guard>)
      requires Valid() && !closed && Accepted(o) && i < |o.plugins| && trace == base + Starts(started)
      requires Progress(o, i, before, guards, started, w)
      modifies this`guards, this`disk, this`trace
      ensures Valid() && trace == base + Starts(now)
      ensures error.None? ==> Progress(o, i + 1, before, guards, now, w)
      ensures error.Some? ==>
        now == started && guards == old(guards) && !CanStartMissing(o, |o.plugins|, before.Keys, w)
      ensures forall g :: g in now ==> g in started || fresh(g)
    {
      var next := StartAt(o, i, w, before, started);
      if next.Err? {
        return Some(next.error), started;
      }
      if next.value.None? {
        return None, started;
      }
      StartsStep(started, next.value.value);
      return None, started + [next.value.value];
    }

    // The plugin at i, unless its key runs already.
    method StartAt(o: Options, i: nat, w: World, ghost before: map<Key, Guard>, ghost started: seq<Guard>)
      returns (r: Result<Option<Guard>, ApplyError>)
      requires Valid() && !closed && Accepted(o) && i < |o.plugins|
      requires Progress(o, i, before, guards, started, w)
      modifies this`guards, this`disk, this`trace
      ensures Valid()
      ensures r.Err? ==>
        guards == old(guards) && trace == old(trace) && !CanStartMissing(o, |o.plugins|, before.Keys, w)
      ensures r == Ok(None) ==> Progress(o, i + 1, before, guards, started, w) && trace == old(trace)
      ensures r.Ok? && r.value.Some? ==> Progress(o, i + 1, before, guards, started + [r.value.value], w)
      ensures r.Ok? && r.value.Some? ==> r.value.value.Runs() && r.value.value.inherited == w.environ
      ensures r.Ok? && r.value.Some? ==> fresh(r.value.value) && trace == old(trace) + [Started(r.value.value)]
    {
      var key := KeyAt(o, i);
      if key in guards {
        SkipKnown(o, i, before, guards, started, w);
        return Ok(None);
      }
      MissingIsApart(o, i, guards.Keys);
      AcceptedIsGood(o, i);
      var guard := StartGuard(key, w.luck(i), w.environ);
      if guard.Err? {
        CannotStart(o, i, before, guards, started, w);
        return Err(guard.error);
      }
      AddStarted(o, i, before, old(guards), started, w, guard.value);
      return Ok(Some(guard.value));
    }

    // The server and the plugins that are missing.
    method StartRest(o: Option<Options>, w: World) returns (r: Result<(), ApplyError>, ghost started: seq<Guard>)
      requires Valid() && !closed && (o.Some? ==> Accepted(o.value)) && guards.Keys <= Wanted(o)
      modifies this`guards, this`server, this`disk, this`trace, server
      ensures Valid() && trace == old(trace) + Starts(started)
      ensures NewlyStarted(old(guards), guards, started) && forall g :: g in started ==> fresh(g)
      ensures r.Ok? <==> Succeeds(o, w, old(guards.Keys), old(ServerPath()), hasProtector)
      ensures r.Ok? ==> guards.Keys == Wanted(o)
      ensures r.Ok? ==> ServerPath() == PathOf(o) && (server != null ==> server.verify == o.value.verifyPeer)
      ensures r.Ok? && PathOf(o) == old(ServerPath()) ==> server == old(server)
      ensures server == null || server == old(server) || fresh(server)
    {
      started := [];
      assert Starts(started) == [] && NewlyStarted(guards, guards, started);
      var error := UpdateServer(o, w);
      if error.Some? {
        return Err(error.value), started;
      }
      if o.None? {
        return Ok(()), started;
      }
      r, started := StartMissing(o.value, w);
    }

    /**
     Makes the running plugins match the envelope, or stops every plugin and reports why:
     those that were kept and those just started are signalled, and then waited for.
     */
    method Apply(o: Option<Options>, w: World)
      returns (r: Result<(), ApplyError>, ghost removed: seq<Guard>, ghost started: seq<Guard>,
        ghost stopped: seq<Guard>)
      requires Valid() && (o.Some? ==> Accepted(o.value))
      modifies this, server
      ensures Valid() && closed == old(closed)
      ensures closed ==> r == Err(HostClosed) && trace == old(trace)
      ensures !closed ==>
        (r.Ok? <==> Succeeds(o, w, old(guards.Keys) * (Wanted(o) - w.exited), old(ServerPath()), hasProtector))
      ensures !closed ==> TakenFrom(old(guards), Wanted(o) - w.exited, removed)
      ensures !closed ==>
        trace == old(trace) + Asks(removed) + Waits(removed) + Starts(started) + Asks(stopped) + Waits(stopped)
      ensures r.Ok? ==> Reconciled(o, w, old(guards), guards, removed, started) && stopped == []
      ensures r.Ok? ==> RunsEnvelope(o, guards.Keys) && FilesOnDisk(guards.Keys, disk)
      ensures r.Err? && !closed ==> RestStopped(old(guards), removed, started, stopped)
      ensures forall g :: g in started ==> fresh(g)
      ensures r.Ok? ==> ServerPath() == PathOf(o) && (server != null ==> server.verify == o.value.verifyPeer)
      ensures r.Ok? && PathOf(o) == old(ServerPath()) ==> server == old(server)
      ensures r.Err? ==> guards == map[] && server == null && disk == map[]
      ensures server == null || server == old(server) || fresh(server)
    {
      removed, started, stopped := [], [], [];
      if closed {
        NothingLeft(disk);
        return Err(HostClosed), removed, started, stopped;
      }
      r, removed, started, stopped := Reconcile(o, w);
      if r.Ok? {
        WantedIsEnvelope(o);
        ConservedIsOnDisk(guards.Keys, disk);
      }
    }

    // The rest of Apply, under the lock and on an open pool.
    method Reconcile(o: Option<Options>, w: World)
      returns (r: Result<(), ApplyError>, ghost removed: seq<Guard>, ghost started: seq<Guard>,
        ghost stopped: seq<Guard>)
      requires Valid() && !closed && (o.Some? ==> Accepted(o.value))
      modifies this`guards, this`server, this`disk, this`trace, server
      ensures Valid()
      ensures r.Ok? <==> Succeeds(o, w, old(guards.Keys) * (Wanted(o) - w.exited), old(ServerPath()), hasProtector)
      ensures TakenFrom(old(guards), Wanted(o) - w.exited, removed)
      ensures trace == old(trace) + Asks(removed) + Waits(removed) + Starts(started) + Asks(stopped) + Waits(stopped)
      ensures r.Ok? ==> Reconciled(o, w, old(guards), guards, removed, started) && stopped == []
      ensures r.Err? ==> RestStopped(old(guards), removed, started, stopped)
      ensures forall g :: g in started ==> fresh(g)
      ensures r.Ok? ==> ServerPath() == PathOf(o) && (server != null ==> server.verify == o.value.verifyPeer)
      ensures r.Ok? && PathOf(o) == old(ServerPath()) ==> server == old(server)
      ensures r.Err? ==> guards == map[] && server == null && disk == map[]
      ensures server == null || server == old(server) || fresh(server)
    {
      stopped := [];
      removed := StopOthers(Wanted(o) - w.exited);
      ghost var kept := guards;
      assert kept.Keys == old(guards.Keys) * (Wanted(o) - w.exited);
      r, started := StartRest(o, w);
      if r.Err? {
        ghost var running := guards;
        stopped := StopAll();
        RestIsStopped(old(guards), kept, running, removed, started, stopped);
      } else {
        ReconciledByStarts(o, w, old(guards), kept, guards, removed, started);
      }
    }

    /** Stops every plugin, signalling all before it waits for the first; a closed pool stays empty. */
    method Close() returns (ghost stopped: seq<Guard>)
      requires Valid()
      modifies this
      ensures Valid() && closed && guards == map[] && server == null && disk == map[]
      ensures TakenFrom(old(guards), {}, stopped)
      ensures trace == old(trace) + Asks(stopped) + Waits(stopped)
    {
      stopped := [];
      if closed {
        NothingLeft(disk);
        return;
      }
      closed := true;
      stopped := StopAll();
    }

    /** Whatever the sequence of calls, the files on disk are those of the running plugins. */
    method Serve(calls: seq<Call>)
      requires Valid()
      requires forall c :: c in calls && c.Apply? && c.options.Some? ==> Accepted(c.options.value)
      modifies this, server
      ensures Valid() && Conserved(guards.Keys, disk) && FilesOnDisk(guards.Keys, disk)
      ensures old(closed) ==> closed && guards == map[] && disk == map[]
      ensures closed ==> guards == map[] && server == null && disk == map[]
      ensures server == null || server == old(server) || fresh(server)
    {
      for i := 0 to |calls|
        invariant Valid() && (old(closed) ==> closed)
        invariant server == null || server == old(server) || fresh(server)
      {
        match calls[i] {
          case Apply(options, w) => var _, _, _, _ := Apply(options, w);
          case Close => var _ := Close();
        }
      }
      if closed {
        NothingLeft(disk);
      }
      ConservedIsOnDisk(guards.Keys, disk);
    }

    // Takes out of the map the guards that are not kept, in no particular order.
    method TakeGuards(kept: set<Key>) returns (removed: seq<Guard>)
      modifies this`guards
      requires forall k :: k in guards ==> guards[k].key == k
      ensures TakenFrom(old(guards), kept, removed) && guards == old(guards) - KeysOf(removed)
    {
      removed := [];
      var all := guards;
      var left := all.Keys - kept;
      NothingTaken(all, kept);
      while left != {}
        invariant HalfTaken(all, guards, kept, left, removed)
        decreases |left|
      {
        var key :| key in left;
        TakeOne(all, guards, kept, left, removed, key);
        removed := removed + [all[key]];
        guards := guards - {key};
        left := left - {key};
      }
      AllTaken(all, guards, kept, removed);
    }
  }

  // Each guard stands under its own key, which an accepted envelope has.
  ghost predicate GoodGuards(guards: map<Key, Guard>) {
    forall k :: k in guards ==> guards[k].key == k && GoodKey(k)
  }

  lemma OneMoreGoodGuard(guards: map<Key, Guard>, guard: Guard)
    requires GoodGuards(guards) && GoodKey(guard.key)
    ensures GoodGuards(guards[guard.key := guard])
    ensures guards[guard.key := guard].Keys == guards.Keys + {guard.key}
  {
  }

  lemma FewerGoodGuards(guards: map<Key, Guard>, gone: set<Key>)
    requires GoodGuards(guards)
    ensures GoodGuards(guards - gone) && (guards - gone).Keys == guards.Keys - gone
  {
  }

  // Exactly the guards whose keys are not kept, each once.
  ghost predicate TakenFrom(before: map<Key, Guard>, kept: set<Key>, removed: seq<Guard>) {
    && KeysOf(removed) == before.Keys - kept && DistinctKeys(removed)
    && forall g :: g in removed ==> g.key in before && before[g.key] == g
  }

  // A failed Apply stops the guards it kept and the ones it started, each once.
  ghost predicate RestStopped(before: map<Key, Guard>, removed: seq<Guard>, started: seq<Guard>, stopped: seq<Guard>) {
    && KeysOf(stopped) == (before.Keys - KeysOf(removed)) + KeysOf(started) && DistinctKeys(stopped)
    && forall g :: g in stopped ==> g in started || (g.key in before && before[g.key] == g)
  }

  lemma RestIsStopped(before: map<Key, Guard>, kept: map<Key, Guard>, running: map<Key, Guard>,
                      removed: seq<Guard>, started: seq<Guard>, stopped: seq<Guard>)
    requires kept == before - KeysOf(removed) && NewlyStarted(kept, running, started) && TakenFrom(running, {}, stopped)
    ensures RestStopped(before, removed, started, stopped)
  {
    forall g | g in stopped ensures g in started || (g.key in before && before[g.key] == g) {
      if g.key !in kept {
        assert g.key in KeysOf(started);
        var h :| h in started && h.key == g.key;
        assert running[h.key] == h;
      }
    }
  }

  // `now` is `before` with the guards of `started` added.
  ghost predicate NewlyStarted(before: map<Key, Guard>, now: map<Key, Guard>, started: seq<Guard>) {
    && now.Keys == before.Keys + KeysOf(started) && before.Keys !! KeysOf(started)
    && DistinctKeys(started)
    && (forall k :: k in before ==> now[k] == before[k])
    && (forall g :: g in started ==> now[g.key] == g)
  }

  lemma StartedOneMore(before: map<Key, Guard>, now: map<Key, Guard>, started: seq<Guard>, guard: Guard)
    requires NewlyStarted(before, now, started) && guard.key !in now
    ensures NewlyStarted(before, now[guard.key := guard], started + [guard])
  {
    OneMoreKey(started, guard);
    assert forall g :: g in started ==> g.key in KeysOf(started);
  }

  // The first i plugins of the envelope run.
  ghost predicate Progress(o: Options, i: nat, before: map<Key, Guard>, now: map<Key, Guard>, started: seq<Guard>,
                           w: World) {
    && i <= |o.plugins|
    && before.Keys <= Wanted(Some(o))
    && NewlyStarted(before, now, started)
    && now.Keys == before.Keys + WantedUpTo(o, i)
    && CanStartMissing(o, i, before.Keys, w)
  }

  lemma NothingStarted(o: Options, before: map<Key, Guard>, w: World)
    requires before.Keys <= Wanted(Some(o))
    ensures Progress(o, 0, before, before, [], w)
  {
  }

  lemma AllStarted(o: Options, before: map<Key, Guard>, now: map<Key, Guard>, started: seq<Guard>, w: World)
    requires Progress(o, |o.plugins|, before, now, started, w)
    ensures now.Keys == Wanted(Some(o)) && CanStartMissing(o, |o.plugins|, before.Keys, w)
  {
  }

  lemma WantedOneMore(o: Options, i: nat)
    requires i < |o.plugins|
    ensures WantedUpTo(o, i + 1) == WantedUpTo(o, i) + {KeyAt(o, i)}
    ensures KeyAt(o, i) in WantedUpTo(o, i) <==> !FirstOfItsKey(o, i)
    ensures KeyAt(o, i) in Wanted(Some(o)) && WantedUpTo(o, i) <= Wanted(Some(o))
  {
  }

  lemma SkipKnown(o: Options, i: nat, before: map<Key, Guard>, now: map<Key, Guard>, started: seq<Guard>, w: World)
    requires i < |o.plugins| && Progress(o, i, before, now, started, w) && KeyAt(o, i) in now
    ensures Progress(o, i + 1, before, now, started, w)
  {
    WantedOneMore(o, i);
  }

  lemma AddStarted(o: Options, i: nat, before: map<Key, Guard>, now: map<Key, Guard>, started: seq<Guard>, w: World,
                   guard: Guard)
    requires i < |o.plugins| && Progress(o, i, before, now, started, w)
    requires KeyAt(o, i) !in now && guard.key == KeyAt(o, i) && CanStart(KeyAt(o, i), w.luck(i))
    ensures Progress(o, i + 1, before, now[KeyAt(o, i) := guard], started + [guard], w)
  {
    WantedOneMore(o, i);
    StartedOneMore(before, now, started, guard);
  }

  lemma CannotStart(o: Options, i: nat, before: map<Key, Guard>, now: map<Key, Guard>, started: seq<Guard>, w: World)
    requires i < |o.plugins| && Progress(o, i, before, now, started, w)
    requires KeyAt(o, i) !in now && !CanStart(KeyAt(o, i), w.luck(i))
    ensures !CanStartMissing(o, |o.plugins|, before.Keys, w)
  {
    WantedOneMore(o, i);
    assert FirstOfItsKey(o, i);
  }

  lemma MissingIsApart(o: Options, i: nat, running: set<Key>)
    requires Accepted(o) && i < |o.plugins| && running <= Wanted(Some(o)) && KeyAt(o, i) !in running
    ensures forall k :: k in running ==> Apart(FilesOf(k), FilesOf(KeyAt(o, i)))
  {
    WantedOneMore(o, i);
    AllWantedAreDisjoint(o);
  }

  /**
   What Apply makes of an open pool: the removed guards are stopped and waited for
   before anything starts, and success leaves exactly the wanted plugins.
   */
  ghost predicate Reconciled(o: Option<Options>, w: World, before: map<Key, Guard>, after: map<Key, Guard>,
                             removed: seq<Guard>, started: seq<Guard>) {
    && TakenFrom(before, Wanted(o) - w.exited, removed)
    && after.Keys == Wanted(o)
    && (forall k :: k in Wanted(o) - w.exited && k in before ==> after[k] == before[k])
    && KeysOf(started) == Wanted(o) - (before.Keys - w.exited)
    && (forall g :: g in started ==> g.key in after && after[g.key] == g)
  }

  lemma ReconciledByStarts(o: Option<Options>, w: World, before: map<Key, Guard>, kept: map<Key, Guard>,
                           after: map<Key, Guard>, removed: seq<Guard>, started: seq<Guard>)
    requires TakenFrom(before, Wanted(o) - w.exited, removed) && kept == before - KeysOf(removed)
    requires NewlyStarted(kept, after, started) && after.Keys == Wanted(o)
    ensures Reconciled(o, w, before, after, removed, started)
  {
    assert kept.Keys == before.Keys * (Wanted(o) - w.exited);
  }

  // Part of `all` has been moved from the map to the list, and `left` is still to be moved.
  ghost predicate HalfTaken(all: map<Key, Guard>, now: map<Key, Guard>, kept: set<Key>, left: set<Key>,
                            removed: seq<Guard>) {
    && left <= all.Keys && left !! KeysOf(removed) && left + KeysOf(removed) == all.Keys - kept
    && now == all - KeysOf(removed)
    && DistinctKeys(removed)
    && forall g :: g in removed ==> g.key in all && all[g.key] == g
  }

  lemma NothingTaken(all: map<Key, Guard>, kept: set<Key>)
    ensures HalfTaken(all, all, kept, all.Keys - kept, [])
  {
    assert all - {} == all && KeysOf([]) == {};
  }

  lemma AllTaken(all: map<Key, Guard>, now: map<Key, Guard>, kept: set<Key>, removed: seq<Guard>)
    requires HalfTaken(all, now, kept, {}, removed)
    ensures TakenFrom(all, kept, removed) && now == all - KeysOf(removed)
  {
  }

  lemma TakeOne(all: map<Key, Guard>, now: map<Key, Guard>, kept: set<Key>, left: set<Key>, removed: seq<Guard>,
                key: Key)
    requires HalfTaken(all, now, kept, left, removed) && key in left && all[key].key == key
    ensures HalfTaken(all, now - {key}, kept, left - {key}, removed + [all[key]])
  {
    OneMoreKey(removed, all[key]);
    MinusOneMore(all, KeysOf(removed), key);
  }

  lemma MinusOneMore<K, V>(m: map<K, V>, gone: set<K>, key: K)
    ensures m - gone - {key} == m - (gone + {key})
  {
  }

  lemma OneMoreKey(removed: seq<Guard>, guard: Guard)
    requires DistinctKeys(removed) && guard.key !in KeysOf(removed)
    ensures DistinctKeys(removed + [guard]) && KeysOf(removed + [guard]) == KeysOf(removed) + {guard.key}
  {
    assert forall i :: 0 <= i < |removed| ==> removed[i].key in KeysOf(removed);
  }

  // Removing the tracked paths undoes the writes so far, and a partial one.
  lemma PartialWrite(before: map<string, string>, disk: map<string, string>, plan: seq<Planned>, i: nat)
    requires i < |plan| && disk == before + Content(plan[..i])
    ensures disk - Content(plan[..i + 1]).Keys == before - Content(plan[..i + 1]).Keys
    ensures disk[plan[i].path := ""] - Content(plan[..i + 1]).Keys == before - Content(plan[..i + 1]).Keys
  {
    ContentGrows(plan, i);
  }

  lemma CleanedUp(before: map<string, string>, plan: seq<Planned>, tracked: nat)
    requires Apart(Content(plan), before) && tracked <= |plan|
    ensures before - Content(plan[..tracked]).Keys == before
    ensures (before + Content(plan)) - Content(plan).Keys == before
  {
    forall p | p in Content(plan[..tracked]) ensures p in Content(plan) {
      PathsOfContent(plan[..tracked], p);
      PathsOfContent(plan, p);
    }
    Removed(before, Content(plan), Content(plan[..tracked]));
  }

  lemma Removed(before: map<string, string>, files: map<string, string>, some: map<string, string>)
    requires Apart(files, before) && forall p :: p in some ==> p in files
    ensures before - some.Keys == before && (before + files) - files.Keys == before
  {
  }

  lemma KeyStays(removed: seq<Guard>, i: nat, keys: set<Key>)
    requires i < |removed| && KeysOf(removed) <= keys && DistinctKeys(removed)
    ensures removed[i].key in keys - KeysOf(removed[..i])
    ensures keys - KeysOf(removed[..i + 1]) == keys - KeysOf(removed[..i]) - {removed[i].key}
  {
    assert removed[i].key in KeysOf(removed);
    assert removed[..i + 1] == removed[..i] + [removed[i]];
  }

  lemma DropNext(keys: set<Key>, removed: seq<Guard>, i: nat, disk: map<string, string>)
    requires i < |removed| && KeysOf(removed) <= keys && DistinctKeys(removed)
    requires Conserved(keys - KeysOf(removed[..i]), disk)
    ensures Conserved(keys - KeysOf(removed[..i + 1]), disk - FilesOf(removed[i].key).Keys)
  {
    KeyStays(removed, i, keys);
    DropConserves(keys - KeysOf(removed[..i]), removed[i].key, disk);
  }

  lemma StartsStep(started: seq<Guard>, guard: Guard)
    ensures Starts(started + [guard]) == Starts(started) + [Started(guard)]
  {
    assert (started + [guard])[..|started|] == started;
  }

  lemma EventsStep(guards: seq<Guard>, i: nat)
    requires i < |guards|
    ensures Asks(guards[..i + 1]) == Asks(guards[..i]) + [Asked(guards[i])]
    ensures Waits(guards[..i + 1]) == Waits(guards[..i]) + [Waited(guards[i])]
  {
    assert guards[..i + 1][..i] == guards[..i];
  }

  lemma NothingLeft(disk: map<string, string>)
    requires Conserved({}, disk)
    ensures disk == map[]
  {
    assert forall p :: p in disk ==> Owned(FilesOf, {}, p);
  }
}
