/** The plugin envelope: validation and `${file:Name}` references (options.go). */
module PluginOptions {
  import opened Prelude
  import opened Paths

  datatype File = File(name: string, content: string)

  datatype Spec = Spec(name: string, command: seq<string>, environment: map<string, string>, files: seq<File>)

  datatype Options = Options(workingDir: string, protectPath: string, verifyPeer: bool, plugins: seq<Spec>)

  datatype EnvelopeError =
    | RelativeWorkingDir
    | RelativeProtectPath
    | RelativeCommand(plugin: nat)
    | InvalidFileName(plugin: nat, name: string)
    | DuplicateFile(plugin: nat, name: string)

  // ---- Validation ----

  function FileNames(specs: seq<Spec>): seq<string> {
    if specs == [] then [] else FileNames(specs[..|specs| - 1]) + NamesOf(specs[|specs| - 1].files)
  }

  function NamesOf(files: seq<File>): seq<string> {
    seq(|files|, i requires 0 <= i < |files| => files[i].name)
  }

  predicate PluginAccepted(spec: Spec) {
    && spec.name != ""
    && spec.command != [] && IsAbs(spec.command[0])
    && forall i :: 0 <= i < |spec.files| ==> ValidFileName(spec.files[i].name)
  }

  // What a validated envelope promises the pool: one directory, and no file name used twice in it.
  predicate Accepted(o: Options) {
    && IsAbs(o.workingDir)
    && (o.protectPath != "" ==> IsAbs(o.protectPath))
    && (forall i :: 0 <= i < |o.plugins| ==> PluginAccepted(o.plugins[i]))
    && NoDuplicates(FileNames(o.plugins))
  }

  // fmt.Sprint("plugin-", index)
  function DefaultName(index: nat): string {
    "plugin-" + Decimal(index)
  }

  function Named(spec: Spec, index: nat): Spec {
    if spec.name == "" then spec.(name := DefaultName(index)) else spec
  }

  function AllNamed(specs: seq<Spec>): seq<Spec> {
    seq(|specs|, i requires 0 <= i < |specs| => Named(specs[i], i))
  }

  lemma NamedKeepsFiles(specs: seq<Spec>, i: nat)
    requires i <= |specs|
    ensures FileNames(AllNamed(specs)[..i]) == FileNames(specs[..i])
  {
    if i > 0 {
      NamedKeepsFiles(specs, i - 1);
      assert AllNamed(specs)[..i][..i - 1] == AllNamed(specs)[..i - 1];
      assert specs[..i][..i - 1] == specs[..i - 1];
    }
  }

  // The names met before file j of plugin i are a prefix of all names.
  lemma {:induction false} NamesArePrefix(specs: seq<Spec>, i: nat, j: nat)
    requires i < |specs| && j <= |specs[i].files|
    ensures FileNames(specs[..i]) + NamesOf(specs[i].files[..j]) <= FileNames(specs)
    ensures j == |specs[i].files| ==> FileNames(specs[..i]) + NamesOf(specs[i].files[..j]) == FileNames(specs[..i + 1])
    decreases |specs|
  {
    var all := NamesOf(specs[i].files);
    assert NamesOf(specs[i].files[..j]) == all[..j];
    assert specs[..i + 1][..i] == specs[..i];
    if i == |specs| - 1 {
      assert specs[..i + 1] == specs;
    } else {
      var front := specs[..|specs| - 1];
      NamesArePrefix(front, i, j);
      assert front[..i] == specs[..i];
    }
  }

  lemma DuplicateIsListed(specs: seq<Spec>, i: nat, k: nat)
    requires i < |specs| && k < |specs[i].files|
    requires specs[i].files[k].name in FileNames(specs[..i]) + NamesOf(specs[i].files[..k])
    ensures Repeated(FileNames(specs), specs[i].files[k].name) && !NoDuplicates(FileNames(specs))
  {
    var name, listed := specs[i].files[k].name, FileNames(specs[..i]) + NamesOf(specs[i].files[..k]);
    NamesArePrefix(specs, i, k + 1);
    var longer := FileNames(specs[..i]) + NamesOf(specs[i].files[..k + 1]);
    assert longer == listed + [name];
    var at :| 0 <= at < |listed| && listed[at] == name;
    assert FileNames(specs)[at] == longer[at] && FileNames(specs)[|listed|] == longer[|listed|];
  }

  ghost predicate Repeated(names: seq<string>, name: string) {
    exists a, b :: 0 <= a < b < |names| && names[a] == name == names[b]
  }

  // The rule that an error says is broken, and where.
  ghost predicate Faulty(o: Options, e: EnvelopeError) {
    match e
    case RelativeWorkingDir => !IsAbs(o.workingDir)
    case RelativeProtectPath => o.protectPath != "" && !IsAbs(o.protectPath)
    case RelativeCommand(i) => i < |o.plugins| && (o.plugins[i].command == [] || !IsAbs(o.plugins[i].command[0]))
    case InvalidFileName(i, name) => i < |o.plugins| && name in NamesOf(o.plugins[i].files) && !ValidFileName(name)
    case DuplicateFile(i, name) =>
      i < |o.plugins| && ValidFileName(name) && Repeated(FileNames(o.plugins), name)
  }

  ghost predicate SameNames(names: set<string>, listed: seq<string>) {
    forall name :: name in names <==> name in listed
  }

  predicate HasFile(specs: seq<Spec>, i: nat, k: nat, name: string) {
    i < |specs| && k < |specs[i].files| && specs[i].files[k].name == name
  }

  // No file name stands at two places of the envelope.
  ghost predicate UsedOnce(specs: seq<Spec>) {
    forall name, i, k, j, l :: HasFile(specs, i, k, name) && HasFile(specs, j, l, name) ==> i == j && k == l
  }

  lemma {:induction false} ListedIsFile(specs: seq<Spec>, name: string)
    ensures name in FileNames(specs) <==> exists i, k :: HasFile(specs, i, k, name)
  {
    if specs != [] {
      var n := |specs| - 1;
      var front, last := specs[..n], NamesOf(specs[n].files);
      ListedIsFile(front, name);
      if k: nat :| k < |last| && last[k] == name {
        assert HasFile(specs, n, k, name);
      }
      if i: nat, k: nat :| HasFile(front, i, k, name) {
        assert HasFile(specs, i, k, name);
      }
      if i: nat, k: nat :| HasFile(specs, i, k, name) {
        assert i < n ==> HasFile(front, i, k, name);
        assert i == n ==> last[k] == name;
      }
    }
  }

  lemma NoDuplicatesInSum(a: seq<string>, b: seq<string>)
    ensures NoDuplicates(a + b) <==> NoDuplicates(a) && NoDuplicates(b) && forall x :: x in a ==> x !in b
  {
    if NoDuplicates(a + b) {
      forall i, j | 0 <= i < j < |a| ensures a[i] != a[j] {
        assert (a + b)[i] == a[i] && (a + b)[j] == a[j];
      }
      forall i, j | 0 <= i < j < |b| ensures b[i] != b[j] {
        assert (a + b)[|a| + i] == b[i] && (a + b)[|a| + j] == b[j];
      }
      forall i, j | 0 <= i < |a| && 0 <= j < |b| ensures a[i] != b[j] {
        assert (a + b)[i] == a[i] && (a + b)[|a| + j] == b[j];
      }
    } else {
      var i, j :| 0 <= i < j < |a + b| && (a + b)[i] == (a + b)[j];
      assert i < |a| <= j ==> (a + b)[i] in a && (a + b)[j] in b;
    }
  }

  /** The list of names has no repeat exactly when no two files of the envelope have one name. */
  lemma {:induction false} ListedOnce(specs: seq<Spec>)
    ensures NoDuplicates(FileNames(specs)) <==> UsedOnce(specs)
  {
    if specs != [] {
      var n := |specs| - 1;
      var front, last := specs[..n], NamesOf(specs[n].files);
      ListedOnce(front);
      NoDuplicatesInSum(FileNames(front), last);
      if UsedOnce(specs) {
        UsedOnceInParts(specs, n);
      } else {
        var name, i: nat, k: nat, j: nat, l: nat :|
          HasFile(specs, i, k, name) && HasFile(specs, j, l, name) && (i != j || k != l);
        TwoPlaces(specs, n, name, i, k, j, l);
        TwoPlaces(specs, n, name, j, l, i, k);
      }
    }
  }

  lemma UsedOnceInParts(specs: seq<Spec>, n: nat)
    requires |specs| == n + 1 && UsedOnce(specs)
    ensures UsedOnce(specs[..n]) && NoDuplicates(NamesOf(specs[n].files))
    ensures forall name :: name in FileNames(specs[..n]) ==> name !in NamesOf(specs[n].files)
  {
    var front, last := specs[..n], NamesOf(specs[n].files);
    forall name, i, k, j, l | HasFile(front, i, k, name) && HasFile(front, j, l, name) ensures i == j && k == l {
      assert HasFile(specs, i, k, name) && HasFile(specs, j, l, name);
    }
    forall k: nat, l: nat | k < l < |last| ensures last[k] != last[l] {
      assert HasFile(specs, n, k, last[k]) && HasFile(specs, n, l, last[l]);
    }
    forall name | name in FileNames(front) ensures name !in last {
      ListedIsFile(front, name);
      var i, k :| HasFile(front, i, k, name);
      assert HasFile(specs, i, k, name);
      assert forall l: nat :: l < |last| ==> HasFile(specs, n, l, last[l]);
    }
  }

  lemma TwoPlaces(specs: seq<Spec>, n: nat, name: string, i: nat, k: nat, j: nat, l: nat)
    requires |specs| == n + 1 && HasFile(specs, i, k, name) && HasFile(specs, j, l, name) && (i != j || k != l)
    ensures i < n && j < n ==> !UsedOnce(specs[..n])
    ensures i < n && j == n ==> name in FileNames(specs[..n]) && name in NamesOf(specs[n].files)
    ensures i == n && j == n ==> !NoDuplicates(NamesOf(specs[n].files))
  {
    var front, last := specs[..n], NamesOf(specs[n].files);
    ListedIsFile(front, name);
    assert i < n ==> HasFile(front, i, k, name);
    assert j < n ==> HasFile(front, j, l, name);
    assert i == n ==> last[k] == name;
    assert j == n ==> last[l] == name;
  }

  // What options.go asks of an envelope, said of its own texts.
  ghost predicate SoundEnvelope(o: Options) {
    && "/" <= o.workingDir && (o.protectPath == "" || "/" <= o.protectPath)
    && (forall i :: 0 <= i < |o.plugins| ==> o.plugins[i].command != [] && "/" <= o.plugins[i].command[0])
    && (forall name, i, k :: HasFile(o.plugins, i, k, name) ==> ValidFileName(name))
    && UsedOnce(o.plugins)
  }

  lemma AcceptedIsSound(o: Options)
    ensures Accepted(o.(plugins := AllNamed(o.plugins))) <==> SoundEnvelope(o)
  {
    SameFileNames(o.plugins);
    ListedOnce(o.plugins);
    forall i | 0 <= i < |o.plugins|
      ensures PluginAccepted(AllNamed(o.plugins)[i]) <==>
        && o.plugins[i].command != [] && IsAbs(o.plugins[i].command[0])
        && forall k :: 0 <= k < |o.plugins[i].files| ==> ValidFileName(o.plugins[i].files[k].name)
    {
    }
    if SoundEnvelope(o) {
      forall i, k: nat | 0 <= i < |o.plugins| && k < |o.plugins[i].files|
        ensures ValidFileName(o.plugins[i].files[k].name)
      {
        assert HasFile(o.plugins, i, k, o.plugins[i].files[k].name);
      }
    }
  }

  // Plugins without a name got one, and nothing else is other than before.
  predicate OnlyNamed(before: seq<Spec>, after: seq<Spec>) {
    |after| == |before| && forall i :: 0 <= i < |before| ==>
      after[i] == before[i].(name := if before[i].name == "" then "plugin-" + Decimal(i) else before[i].name)
  }

  lemma AllNamedIsOnlyNamed(specs: seq<Spec>)
    ensures OnlyNamed(specs, AllNamed(specs))
  {
  }

  // What is wrong with plugin `index`: its command, or its file k.
  ghost predicate FaultyPlugin(spec: Spec, index: nat, listed: seq<string>, k: nat, e: EnvelopeError) {
    if spec.command == [] || !IsAbs(spec.command[0]) then e == RelativeCommand(index)
    else
      k < |spec.files| &&
      var name := spec.files[k].name;
      if !ValidFileName(name) then e == InvalidFileName(index, name)
      else e == DuplicateFile(index, name) && name in listed + NamesOf(spec.files[..k])
  }

  // One plugin against the names already taken.
  method ValidatePlugin(spec: Spec, index: nat, taken: set<string>, ghost listed: seq<string>)
    returns (r: Result<set<string>, EnvelopeError>)
    requires SameNames(taken, listed) && NoDuplicates(listed) && spec.name != ""
    ensures r.Ok? ==> SameNames(r.value, listed + NamesOf(spec.files)) && NoDuplicates(listed + NamesOf(spec.files))
    ensures r.Ok? ==> PluginAccepted(spec)
    ensures r.Err? ==> exists k :: FaultyPlugin(spec, index, listed, k, r.error)
  {
    if spec.command == [] || !IsAbs(spec.command[0]) {
      assert FaultyPlugin(spec, index, listed, 0, RelativeCommand(index));
      return Err(RelativeCommand(index));
    }
    var names := taken;
    assert listed + NamesOf(spec.files[..0]) == listed;
    for k := 0 to |spec.files|
      invariant SameNames(names, listed + NamesOf(spec.files[..k])) && NoDuplicates(listed + NamesOf(spec.files[..k]))
      invariant forall i :: 0 <= i < k ==> ValidFileName(spec.files[i].name)
    {
      var name := spec.files[k].name;
      if !ValidFileName(name) {
        assert FaultyPlugin(spec, index, listed, k, InvalidFileName(index, name));
        return Err(InvalidFileName(index, name));
      }
      assert listed + NamesOf(spec.files[..k + 1]) == (listed + NamesOf(spec.files[..k])) + [name];
      if name in names {
        assert FaultyPlugin(spec, index, listed, k, DuplicateFile(index, name));
        return Err(DuplicateFile(index, name));
      }
      names := names + {name};
    }
    assert spec.files[..|spec.files|] == spec.files;
    return Ok(names);
  }

  lemma SameFileNames(specs: seq<Spec>)
    ensures FileNames(AllNamed(specs)) == FileNames(specs)
  {
    NamedKeepsFiles(specs, |specs|);
    assert AllNamed(specs)[..|specs|] == AllNamed(specs) && specs[..|specs|] == specs;
  }

  lemma FaultyIsNotAccepted(o: Options, e: EnvelopeError)
    requires Faulty(o, e)
    ensures !Accepted(o.(plugins := AllNamed(o.plugins)))
  {
    SameFileNames(o.plugins);
    match e {
      case RelativeCommand(i) => assert !PluginAccepted(AllNamed(o.plugins)[i]);
      case InvalidFileName(i, name) => assert !PluginAccepted(AllNamed(o.plugins)[i]);
      case _ =>
    }
  }

  lemma FaultyPluginIsFaulty(o: Options, index: nat, k: nat, spec: Spec, e: EnvelopeError)
    requires index < |o.plugins| && spec.files == o.plugins[index].files && spec.command == o.plugins[index].command
    requires FaultyPlugin(spec, index, FileNames(o.plugins[..index]), k, e)
    ensures Faulty(o, e) && !Accepted(o.(plugins := AllNamed(o.plugins)))
  {
    if !e.RelativeCommand? {
      assert spec.files[k].name == NamesOf(o.plugins[index].files)[k];
      if ValidFileName(spec.files[k].name) {
        DuplicateIsListed(o.plugins, index, k);
      }
    }
    FaultyIsNotAccepted(o, e);
  }

  // Plugins below index have been named and found sound.
  predicate NamedUpTo(plugins: seq<Spec>, specs: seq<Spec>, index: nat) {
    && |plugins| == |specs|
    && (forall i :: 0 <= i < |specs| ==> plugins[i] == if i < index then Named(specs[i], i) else specs[i])
    && (forall i :: 0 <= i < index && i < |specs| ==> PluginAccepted(plugins[i]))
  }

  lemma NamesOfNext(specs: seq<Spec>, index: nat)
    requires index < |specs|
    ensures FileNames(specs[..index + 1]) == FileNames(specs[..index]) + NamesOf(specs[index].files)
  {
    assert specs[..index + 1][..index] == specs[..index];
  }

  lemma AllAreNamed(o: Options, plugins: seq<Spec>)
    requires NamedUpTo(plugins, o.plugins, |o.plugins|) && NoDuplicates(FileNames(o.plugins[..|o.plugins|]))
    ensures plugins == AllNamed(o.plugins)
    ensures IsAbs(o.workingDir) && (o.protectPath != "" ==> IsAbs(o.protectPath)) ==>
      Accepted(o.(plugins := AllNamed(o.plugins)))
  {
    assert o.plugins[..|o.plugins|] == o.plugins;
    SameFileNames(o.plugins);
  }

  /**
   Accepts exactly the envelopes that keep what the pool needs, and fills in the
   missing plugin names. The error names a plugin that breaks the rule it states.
   */
  method Validate(o: Options) returns (r: Result<Options, EnvelopeError>)
    ensures r.Ok? <==> Accepted(o.(plugins := AllNamed(o.plugins)))
    ensures r.Ok? <==> SoundEnvelope(o)
    ensures r.Ok? ==> r.value == o.(plugins := AllNamed(o.plugins))
    ensures r.Ok? ==> OnlyNamed(o.plugins, r.value.plugins)
    ensures r.Err? ==> Faulty(o, r.error)
  {
    AcceptedIsSound(o);
    AllNamedIsOnlyNamed(o.plugins);
    if !IsAbs(o.workingDir) {
      return Err(RelativeWorkingDir);
    }
    if o.protectPath != "" && !IsAbs(o.protectPath) {
      return Err(RelativeProtectPath);
    }
    var plugins := o.plugins;
    var names: set<string> := {};
    for index := 0 to |o.plugins|
      invariant NamedUpTo(plugins, o.plugins, index)
      invariant SameNames(names, FileNames(o.plugins[..index])) && NoDuplicates(FileNames(o.plugins[..index]))
    {
      if plugins[index].name == "" {
        plugins := plugins[index := plugins[index].(name := DefaultName(index))];
      }
      var spec := plugins[index];
      assert spec == Named(o.plugins[index], index);
      var checked := ValidatePlugin(spec, index, names, FileNames(o.plugins[..index]));
      if checked.Err? {
        ghost var k :| FaultyPlugin(spec, index, FileNames(o.plugins[..index]), k, checked.error);
        FaultyPluginIsFaulty(o, index, k, spec, checked.error);
        return Err(checked.error);
      }
      names := checked.value;
      NamesOfNext(o.plugins, index);
    }
    AllAreNamed(o, plugins);
    return Ok(o.(plugins := plugins));
  }

  // ---- References to files ----

  const TOKEN := "${file:"
  const CLOSE := "}"

  datatype Cutting = NotFound | Cut(before: string, after: string)

  // strings.Cut: around the first occurrence of sep.
  function CutAt(s: string, sep: string): (c: Cutting)
    requires sep != ""
    ensures c.Cut? ==> s == c.before + sep + c.after
  {
    if |s| < |sep| then NotFound
    else if s[..|sep|] == sep then Cut("", s[|sep|..])
    else match CutAt(s[1..], sep)
      case NotFound => NotFound
      case Cut(before, after) => Cut([s[0]] + before, after)
  }

  predicate TokenFree(s: string) {
    CutAt(s, TOKEN).NotFound?
  }

  // The reading of a value: literal text, references, and possibly a reference that is never closed.
  datatype Template =
    | Text(literal: string)
    | Unclosed(literal: string, tail: string)
    | Ref(literal: string, name: string, rest: Template)

  predicate WellFormed(t: Template) {
    TokenFree(t.literal)
    && match t
       case Text(_) => true
       case Unclosed(_, tail) => '}' !in tail
       case Ref(_, name, rest) => '}' !in name && WellFormed(rest)
  }

  function RenderTemplate(t: Template): string {
    match t
    case Text(literal) => literal
    case Unclosed(literal, tail) => literal + TOKEN + tail
    case Ref(literal, name, rest) => literal + TOKEN + (name + CLOSE + RenderTemplate(rest))
  }

  datatype ExpandError = UnterminatedReference | UnknownFile(name: string)

  // Every reference replaced by the path of its file; the first fault from the left is the error.
  function Filled(t: Template, dir: string, files: set<string>): Result<string, ExpandError> {
    match t
    case Text(literal) => Ok(literal)
    case Unclosed(_, _) => Err(UnterminatedReference)
    case Ref(literal, name, rest) =>
      if name !in files then Err(UnknownFile(name))
      else Prepended(literal + Join(dir, name), Filled(rest, dir, files))
  }

  function Prepended(text: string, r: Result<string, ExpandError>): Result<string, ExpandError> {
    match r case Err(e) => Err(e) case Ok(rest) => Ok(text + rest)
  }

  lemma PrependedTwice(a: string, b: string, r: Result<string, ExpandError>)
    ensures Prepended(a, Prepended(b, r)) == Prepended(a + b, r) && Prepended("", r) == r
  {
    if r.Ok? {
      assert a + (b + r.value) == a + b + r.value && "" + r.value == r.value;
    }
  }

  function Read(value: string): Template
    decreases |value|
  {
    match CutAt(value, TOKEN)
    case NotFound => Text(value)
    case Cut(before, rest) =>
      match CutAt(rest, CLOSE)
      case NotFound => Unclosed(before, rest)
      case Cut(name, after) => Ref(before, name, Read(after))
  }

  // What the first token of a value contributes.
  lemma FilledStep(value: string, dir: string, files: set<string>)
    ensures var start := CutAt(value, TOKEN); var filled := Filled(Read(value), dir, files);
      if start.NotFound? then filled == Ok(value)
      else
        var stop := CutAt(start.after, CLOSE);
        if stop.NotFound? then filled == Err(UnterminatedReference)
        else if stop.before !in files then filled == Err(UnknownFile(stop.before))
        else filled == Prepended(start.before + Join(dir, stop.before), Filled(Read(stop.after), dir, files))
  {
  }

  method Expand(value: string, dir: string, files: set<string>) returns (r: Result<string, ExpandError>)
    ensures r == Filled(Read(value), dir, files)
  {
    if CutAt(value, TOKEN).NotFound? {
      return Ok(value);
    }
    var builder, left := "", value;
    PrependedTwice("", "", Filled(Read(value), dir, files));
    while true
      invariant Filled(Read(value), dir, files) == Prepended(builder, Filled(Read(left), dir, files))
      decreases |left|
    {
      var start := CutAt(left, TOKEN);
      FilledStep(left, dir, files);
      ghost var before := builder;
      if start.NotFound? {
        builder := builder + left;
        return Ok(builder);
      }
      builder := builder + start.before;
      var stop := CutAt(start.after, CLOSE);
      if stop.NotFound? {
        return Err(UnterminatedReference);
      }
      if stop.before !in files {
        return Err(UnknownFile(stop.before));
      }
      PrependedTwice(before, start.before + Join(dir, stop.before), Filled(Read(stop.after), dir, files));
      SumOfThree(before, start.before, Join(dir, stop.before));
      builder := builder + Join(dir, stop.before);
      left := stop.after;
    }
  }

  lemma {:induction false} TokenAfterLiteral(literal: string, rest: string)
    requires TokenFree(literal)
    ensures CutAt(literal + TOKEN + rest, TOKEN) == Cut(literal, rest)
  {
    var s := literal + TOKEN + rest;
    if literal == "" {
      assert s == TOKEN + rest && s[..7] == TOKEN && s[7..] == rest;
    } else {
      assert s[1..] == literal[1..] + TOKEN + rest;
      if |literal| < 7 {
        assert s[|literal|] == TOKEN[0] && TOKEN[|literal|] != '$';
        assert s[..7][|literal|] == s[|literal|];
        ShortIsTokenFree(literal[1..]);
      } else {
        assert s[..7] == literal[..7];
      }
      TokenAfterLiteral(literal[1..], rest);
    }
  }

  lemma ShortIsTokenFree(s: string)
    requires |s| < 7
    ensures TokenFree(s)
  {
  }

  lemma {:induction false} CloseAfterName(name: string, rest: string)
    requires '}' !in name
    ensures CutAt(name + CLOSE + rest, CLOSE) == Cut(name, rest)
    ensures CutAt(name, CLOSE) == NotFound
  {
    var s := name + CLOSE + rest;
    if name == "" {
      assert s[..1] == CLOSE && s[1..] == rest;
    } else {
      assert s[1..] == name[1..] + CLOSE + rest;
      assert s[..1] == [name[0]] && name[..1] == [name[0]];
      CloseAfterName(name[1..], rest);
    }
  }

  lemma {:induction false} TokenIsFound(before: string, after: string)
    ensures !TokenFree(before + "${file:" + after)
  {
    var s := before + "${file:" + after;
    if before == "" {
      assert s == "${file:" + after && s[..7] == "${file:";
    } else {
      assert s[1..] == before[1..] + "${file:" + after;
      TokenIsFound(before[1..], after);
    }
  }

  lemma TokenFreeMeans(s: string)
    ensures TokenFree(s) <==> forall before, after :: s != before + "${file:" + after
  {
    if before, after :| s == before + "${file:" + after {
      TokenIsFound(before, after);
    }
  }

  /** The first reference is replaced by its path, the text before it stays, and the rest is expanded by itself. */
  lemma ExpandsFromLeft(literal: string, name: string, rest: string, dir: string, files: set<string>)
    requires TokenFree(literal) && '}' !in name
    ensures Filled(Read(literal), dir, files) == Ok(literal)
    ensures Filled(Read(literal + "${file:" + name), dir, files) == Err(UnterminatedReference)
    ensures var r := Filled(Read(literal + "${file:" + (name + "}" + rest)), dir, files);
      && (name !in files ==> r == Err(UnknownFile(name)))
      && (name in files ==>
        match Filled(Read(rest), dir, files)
        case Ok(text) => r == Ok(literal + Join(dir, name) + text)
        case Err(e) => r == Err(e))
  {
    TokenAfterLiteral(literal, name);
    TokenAfterLiteral(literal, name + "}" + rest);
    CloseAfterName(name, rest);
  }

  /** Reading inverts rendering, so expanding a rendered template fills exactly its references, once each. */
  lemma {:induction false} ReadInvertsRender(t: Template)
    requires WellFormed(t)
    ensures Read(RenderTemplate(t)) == t
  {
    match t {
      case Text(_) =>
      case Unclosed(literal, tail) =>
        TokenAfterLiteral(literal, tail);
        CloseAfterName(tail, "");
      case Ref(literal, name, rest) =>
        TokenAfterLiteral(literal, name + CLOSE + RenderTemplate(rest));
        CloseAfterName(name, RenderTemplate(rest));
        ReadInvertsRender(rest);
    }
  }

  lemma {:induction false} CutIsFirst(s: string)
    ensures CutAt(s, TOKEN).Cut? ==> TokenFree(CutAt(s, TOKEN).before)
    ensures CutAt(s, CLOSE).Cut? ==> '}' !in CutAt(s, CLOSE).before
    ensures CutAt(s, CLOSE).NotFound? ==> '}' !in s
  {
    if s != "" {
      CutIsFirst(s[1..]);
      var c := CutAt(s, TOKEN);
      if c.Cut? && c.before != "" && |c.before| >= 7 {
        assert c.before[..7] == s[..7];
        assert c.before[1..] == CutAt(s[1..], TOKEN).before;
      }
    }
  }

  /** Every value is the rendering of one well-formed template. */
  lemma {:induction false} RenderInvertsRead(value: string)
    ensures WellFormed(Read(value)) && RenderTemplate(Read(value)) == value
    decreases |value|
  {
    CutIsFirst(value);
    var start := CutAt(value, TOKEN);
    if start.Cut? {
      CutIsFirst(start.after);
      var stop := CutAt(start.after, CLOSE);
      if stop.Cut? {
        RenderInvertsRead(stop.after);
      }
    }
  }

  predicate AllKnown(t: Template, files: set<string>) {
    match t
    case Text(_) => true
    case Unclosed(_, _) => false
    case Ref(_, name, rest) => name in files && AllKnown(rest, files)
  }

  /** Expansion of a rendered template succeeds exactly when it is closed and every name is known. */
  method ExpandRendered(t: Template, dir: string, files: set<string>) returns (r: Result<string, ExpandError>)
    requires WellFormed(t)
    ensures r == Filled(t, dir, files)
    ensures r.Ok? <==> AllKnown(t, files)
  {
    ReadInvertsRender(t);
    r := Expand(RenderTemplate(t), dir, files);
    FilledWhenKnown(t, dir, files);
  }

  lemma {:induction false} FilledWhenKnown(t: Template, dir: string, files: set<string>)
    ensures Filled(t, dir, files).Ok? <==> AllKnown(t, files)
  {
    if t.Ref? {
      FilledWhenKnown(t.rest, dir, files);
    }
  }
}
