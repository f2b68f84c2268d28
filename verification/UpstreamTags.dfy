/**
 Choosing the upstream release to follow (check_upstream.py): tags of the form
 v1.2.3-reF1nd or v1.2.3-rc.1-reF1nd, ordered as section 11 of Semantic Versioning
 2.0.0 orders what is left without the suffix. Texts are ASCII.
 */
module UpstreamTags {
  import opened Prelude

  const SUFFIX := "-reF1nd"

  // ---- Tags ----

  // A tag taken apart by the pattern: three numerals and the dot-separated preview, if any.
  datatype Parts = Parts(major: string, minor: string, patch: string, preview: Option<seq<string>>)

  predicate IdentifierChar(c: char) {
    IsDigit(c) || 'a' <= c <= 'z' || 'A' <= c <= 'Z' || c == '-'
  }

  predicate IsIdentifier(s: string) {
    s != "" && forall i :: 0 <= i < |s| ==> IdentifierChar(s[i])
  }

  // What the pattern accepts.
  predicate Matches(p: Parts) {
    && IsNumeral(p.major) && IsNumeral(p.minor) && IsNumeral(p.patch)
    && (p.preview.Some? ==>
      p.preview.value != [] && forall i :: 0 <= i < |p.preview.value| ==> IsIdentifier(p.preview.value[i]))
  }

  function Core(p: Parts): string {
    p.major + "." + p.minor + "." + p.patch
  }

  function Body(p: Parts): string
    requires Matches(p)
  {
    if p.preview.None? then Core(p) else Core(p) + "-" + JoinOn(p.preview.value, '.')
  }

  function Spelled(p: Parts): string
    requires Matches(p)
  {
    "v" + Body(p) + SUFFIX
  }

  // The text before and after the first dash.
  datatype Dashed = Dashed(before: string, after: Option<string>)

  function CutDash(s: string): Dashed {
    if s == "" then Dashed("", None)
    else if s[0] == '-' then Dashed("", Some(s[1..]))
    else var rest := CutDash(s[1..]); Dashed([s[0]] + rest.before, rest.after)
  }

  // What stands between the v and the suffix, taken apart.
  function BodyApart(body: string): (r: Option<Parts>)
    ensures r.Some? ==> Matches(r.value)
  {
    var cut := CutDash(body);
    var numbers := SplitOn(cut.before, '.');
    if |numbers| != 3 then None
    else
      var preview := if cut.after.None? then None else Some(SplitOn(cut.after.value, '.'));
      var p := Parts(numbers[0], numbers[1], numbers[2], preview);
      if Matches(p) then Some(p) else None
  }

  function Apart(tag: string): (r: Option<Parts>)
    ensures r.Some? ==> Matches(r.value)
  {
    if |tag| < 1 + |SUFFIX| || tag[0] != 'v' || tag[|tag| - |SUFFIX|..] != SUFFIX then None
    else BodyApart(tag[1..|tag| - |SUFFIX|])
  }

  // ---- Keys ----

  datatype Identifier = Numeric(n: nat) | Text(text: string)

  datatype Key = Key(major: nat, minor: nat, patch: nat, release: bool, identifiers: seq<Identifier>)

  // A numeric identifier with a leading zero is refused.
  predicate CanonicalIdentifier(s: string) {
    IsDigits(s) ==> IsNumeral(s)
  }

  predicate Accepted(p: Parts) {
    && Matches(p)
    && (p.preview.Some? ==> forall i :: 0 <= i < |p.preview.value| ==> CanonicalIdentifier(p.preview.value[i]))
  }

  function IdentifierOf(s: string): Identifier {
    if IsDigits(s) then Numeric(Value(s)) else Text(s)
  }

  function IdentifiersOf(parts: seq<string>): seq<Identifier> {
    seq(|parts|, i requires 0 <= i < |parts| => IdentifierOf(parts[i]))
  }

  function KeyOf(p: Parts): Key
    requires Matches(p)
  {
    Key(Value(p.major), Value(p.minor), Value(p.patch), p.preview.None?,
        if p.preview.None? then [] else IdentifiersOf(p.preview.value))
  }

  function VersionOf(tag: string): Option<Key> {
    var p := Apart(tag);
    if p.Some? && Accepted(p.value) then Some(KeyOf(p.value)) else None
  }

  // The identifiers of a preview, unless one has a leading zero.
  method ReadIdentifiers(parts: seq<string>) returns (identifiers: Option<seq<Identifier>>)
    ensures identifiers.Some? <==> forall i :: 0 <= i < |parts| ==> CanonicalIdentifier(parts[i])
    ensures identifiers.Some? ==> identifiers.value == IdentifiersOf(parts)
  {
    var read: seq<Identifier> := [];
    for i := 0 to |parts|
      invariant |read| == i && forall j :: 0 <= j < i ==>
        CanonicalIdentifier(parts[j]) && read[j] == IdentifierOf(parts[j])
    {
      var part := parts[i];
      if IsDigits(part) {
        if |part| > 1 && part[0] == '0' {
          assert !CanonicalIdentifier(parts[i]);
          return None;
        }
        read := read + [Numeric(Value(part))];
      } else {
        read := read + [Text(part)];
      }
    }
    return Some(read);
  }

  method KeyFrom(p: Parts) returns (key: Option<Key>)
    requires Matches(p)
    ensures key == if Accepted(p) then Some(KeyOf(p)) else None
  {
    var identifiers: Option<seq<Identifier>> := Some([]);
    if p.preview.Some? {
      identifiers := ReadIdentifiers(p.preview.value);
    }
    if identifiers.None? {
      return None;
    }
    return Some(Key(Value(p.major), Value(p.minor), Value(p.patch), p.preview.None?, identifiers.value));
  }

  /** The sort key of a tag; None is the ValueError. */
  method Version(tag: string) returns (key: Option<Key>)
    ensures key == VersionOf(tag)
  {
    var p := Apart(tag);
    if p.None? {
      return None;
    }
    key := KeyFrom(p.value);
  }

  // ---- Reading and spelling ----

  lemma {:induction false} CutDashFirst(before: string, after: string)
    requires '-' !in before
    ensures CutDash(before + "-" + after) == Dashed(before, Some(after)) && CutDash(before) == Dashed(before, None)
  {
    var s := before + "-" + after;
    if before != "" {
      assert s[0] == before[0] && s[1..] == before[1..] + "-" + after;
      CutDashFirst(before[1..], after);
    } else {
      assert s[1..] == after;
    }
  }

  lemma {:induction false} CutDashSplits(s: string)
    ensures '-' !in CutDash(s).before
    ensures s == if CutDash(s).after.None? then CutDash(s).before else CutDash(s).before + "-" + CutDash(s).after.value
  {
    if s != "" && s[0] != '-' {
      CutDashSplits(s[1..]);
    }
  }

  lemma DigitsOnly(s: string, c: char)
    requires IsDigits(s) && !IsDigit(c)
    ensures c !in s
  {
  }

  lemma SplitThree(a: string, b: string, c: string)
    requires '.' !in a && '.' !in b && '.' !in c
    ensures SplitOn(a + "." + b + "." + c, '.') == [a, b, c]
  {
    SplitPlain(a, '.');
    SplitOneMore(a, b, '.');
    SplitOneMore(a + "." + b, c, '.');
  }

  lemma SplitCore(p: Parts)
    requires Matches(p)
    ensures SplitOn(Core(p), '.') == [p.major, p.minor, p.patch]
    ensures '-' !in Core(p)
  {
    DigitsOnly(p.major, '.');
    DigitsOnly(p.minor, '.');
    DigitsOnly(p.patch, '.');
    SplitThree(p.major, p.minor, p.patch);
    DigitsOnly(p.major, '-');
    DigitsOnly(p.minor, '-');
    DigitsOnly(p.patch, '-');
  }

  lemma JoinThree(numbers: seq<string>)
    requires |numbers| == 3
    ensures JoinOn(numbers, '.') == numbers[0] + "." + numbers[1] + "." + numbers[2]
  {
    var two := numbers[..2];
    assert two[..1] == [numbers[0]] && JoinOn(two[..1], '.') == numbers[0];
    assert JoinOn(two, '.') == numbers[0] + "." + numbers[1];
  }

  lemma BodyApartSpells(body: string)
    requires BodyApart(body).Some?
    ensures Body(BodyApart(body).value) == body
  {
    CutDashSplits(body);
    var cut := CutDash(body);
    JoinOfSplit(cut.before, '.');
    JoinThree(SplitOn(cut.before, '.'));
    if cut.after.Some? {
      JoinOfSplit(cut.after.value, '.');
    }
  }

  lemma BodyIsApart(p: Parts)
    requires Matches(p)
    ensures BodyApart(Body(p)) == Some(p)
  {
    SplitCore(p);
    if p.preview.Some? {
      CutDashFirst(Core(p), JoinOn(p.preview.value, '.'));
      forall i | 0 <= i < |p.preview.value| ensures '.' !in p.preview.value[i] {
        assert IsIdentifier(p.preview.value[i]);
      }
      assert NoneHolds(p.preview.value, '.');
      SplitOfJoin(p.preview.value, '.');
    } else {
      CutDashFirst(Core(p), "");
    }
  }

  /** The pattern takes apart exactly the spelled tags, each in one way. */
  lemma ApartSpells(tag: string)
    requires Apart(tag).Some?
    ensures Spelled(Apart(tag).value) == tag
  {
    BodyApartSpells(tag[1..|tag| - |SUFFIX|]);
    assert tag == "v" + tag[1..|tag| - |SUFFIX|] + SUFFIX;
  }

  lemma SpelledIsApart(p: Parts)
    requires Matches(p)
    ensures Apart(Spelled(p)) == Some(p)
  {
    var tag, body := Spelled(p), Body(p);
    assert tag[1..|tag| - |SUFFIX|] == body && tag[|tag| - |SUFFIX|..] == SUFFIX;
    BodyIsApart(p);
  }

  /** The accepted tags: a v, three numerals, a preview of canonical identifiers if any, and the suffix. */
  lemma AcceptedTags(tag: string)
    ensures VersionOf(tag).Some? <==> exists p :: Accepted(p) && tag == "v" + Body(p) + "-reF1nd"
  {
    if VersionOf(tag).Some? {
      ApartSpells(tag);
      assert Accepted(Apart(tag).value);
    }
    forall p | Accepted(p) && tag == "v" + Body(p) + "-reF1nd" ensures VersionOf(tag).Some? {
      SpelledIsApart(p);
    }
  }

  // ---- The order ----

  // Python compares strings by their characters.
  predicate LessText(s: string, t: string) {
    t != "" && (s == "" || s[0] < t[0] || (s[0] == t[0] && LessText(s[1..], t[1..])))
  }

  // (0, n) and (1, text) as tuples.
  predicate LessIdentifier(a: Identifier, b: Identifier) {
    match (a, b)
    case (Numeric(m), Numeric(n)) => m < n
    case (Numeric(_), Text(_)) => true
    case (Text(_), Numeric(_)) => false
    case (Text(s), Text(t)) => LessText(s, t)
  }

  predicate LessIdentifiers(a: seq<Identifier>, b: seq<Identifier>) {
    b != [] && (a == [] || LessIdentifier(a[0], b[0]) || (a[0] == b[0] && LessIdentifiers(a[1..], b[1..])))
  }

  /** The tuple order of two keys. */
  predicate Less(a: Key, b: Key) {
    if a.major != b.major then a.major < b.major
    else if a.minor != b.minor then a.minor < b.minor
    else if a.patch != b.patch then a.patch < b.patch
    else if a.release != b.release then b.release
    else LessIdentifiers(a.identifiers, b.identifiers)
  }

  lemma {:induction false} TextOrder(a: string, b: string, c: string)
    ensures !LessText(a, a)
    ensures LessText(a, b) && LessText(b, c) ==> LessText(a, c)
    ensures LessText(a, b) || LessText(b, a) || a == b
  {
    if a != "" {
      TextOrder(a[1..], a[1..], a[1..]);
      if b != "" && a[0] == b[0] {
        TextOrder(a[1..], b[1..], if c != "" then c[1..] else "");
        assert a[1..] == b[1..] ==> a == [a[0]] + a[1..] == b;
      }
    }
  }

  lemma IdentifierOrder(a: Identifier, b: Identifier, c: Identifier)
    ensures !LessIdentifier(a, a)
    ensures LessIdentifier(a, b) && LessIdentifier(b, c) ==> LessIdentifier(a, c)
    ensures LessIdentifier(a, b) || LessIdentifier(b, a) || a == b
  {
    if a.Text? && b.Text? && c.Text? {
      TextOrder(a.text, b.text, c.text);
    } else if a.Text? && b.Text? {
      TextOrder(a.text, b.text, "");
    } else if a.Text? {
      TextOrder(a.text, "", "");
    }
  }

  lemma {:induction false} IdentifiersOrder(a: seq<Identifier>, b: seq<Identifier>, c: seq<Identifier>)
    ensures !LessIdentifiers(a, a)
    ensures LessIdentifiers(a, b) && LessIdentifiers(b, c) ==> LessIdentifiers(a, c)
    ensures LessIdentifiers(a, b) || LessIdentifiers(b, a) || a == b
  {
    if a != [] {
      IdentifiersOrder(a[1..], a[1..], a[1..]);
      IdentifierOrder(a[0], a[0], a[0]);
      if b != [] {
        IdentifierOrder(a[0], b[0], if c != [] then c[0] else a[0]);
        if a[0] == b[0] {
          IdentifiersOrder(a[1..], b[1..], if c != [] then c[1..] else []);
          assert a[1..] == b[1..] ==> a == [a[0]] + a[1..] == b;
        }
      }
    }
  }

  /** The order of keys is strict and total. */
  lemma KeyOrder(a: Key, b: Key, c: Key)
    ensures !Less(a, a)
    ensures Less(a, b) && Less(b, c) ==> Less(a, c)
    ensures Less(a, b) || Less(b, a) || a == b
  {
    IdentifiersOrder(a.identifiers, b.identifiers, c.identifiers);
  }

  // ---- Section 11 of Semantic Versioning 2.0.0 ----

  // 11.4: digits compare numerically, other identifiers in ASCII order, and numeric ones come first.
  predicate IdentifierPrecedes(s: string, t: string) {
    if IsDigits(s) && IsDigits(t) then Value(s) < Value(t)
    else if !IsDigits(s) && !IsDigits(t) then LessText(s, t)
    else IsDigits(s)
  }

  // At place i the previews first differ: the identifier there precedes, or the shorter one has ended.
  predicate DifferAt(a: seq<string>, b: seq<string>, i: nat) {
    && i <= |a| && i < |b| && a[..i] == b[..i]
    && (i == |a| || (a[i] != b[i] && IdentifierPrecedes(a[i], b[i])))
  }

  ghost predicate PreviewPrecedes(a: seq<string>, b: seq<string>) {
    exists i :: DifferAt(a, b, i)
  }

  // 11.2 to 11.4 on the texts of two versions.
  ghost predicate Precedes(a: Parts, b: Parts)
    requires Matches(a) && Matches(b)
  {
    if Value(a.major) != Value(b.major) then Value(a.major) < Value(b.major)
    else if Value(a.minor) != Value(b.minor) then Value(a.minor) < Value(b.minor)
    else if Value(a.patch) != Value(b.patch) then Value(a.patch) < Value(b.patch)
    else
      a.preview.Some? && (b.preview.None? || PreviewPrecedes(a.preview.value, b.preview.value))
  }

  lemma IdentifierIsSpelled(s: string, t: string)
    requires CanonicalIdentifier(s) && CanonicalIdentifier(t)
    ensures IdentifierOf(s) == IdentifierOf(t) <==> s == t
    ensures LessIdentifier(IdentifierOf(s), IdentifierOf(t)) <==> IdentifierPrecedes(s, t)
  {
    if IsDigits(s) {
      DecimalOfValue(s);
    }
    if IsDigits(t) {
      DecimalOfValue(t);
    }
  }

  predicate AllCanonical(parts: seq<string>) {
    forall i :: 0 <= i < |parts| ==> CanonicalIdentifier(parts[i])
  }

  lemma {:induction false} PreviewOrder(a: seq<string>, b: seq<string>)
    requires AllCanonical(a) && AllCanonical(b)
    ensures LessIdentifiers(IdentifiersOf(a), IdentifiersOf(b)) <==> exists i :: DifferAt(a, b, i)
    ensures IdentifiersOf(a) == IdentifiersOf(b) ==> a == b
  {
    if a != [] && b != [] {
      IdentifierIsSpelled(a[0], b[0]);
      assert IdentifiersOf(a)[1..] == IdentifiersOf(a[1..]) && IdentifiersOf(b)[1..] == IdentifiersOf(b[1..]);
      PreviewOrder(a[1..], b[1..]);
      assert IdentifiersOf(a)[0] == IdentifierOf(a[0]) && IdentifiersOf(b)[0] == IdentifierOf(b[0]);
      DifferShift(a, b);
      IdentifierOrder(IdentifierOf(a[0]), IdentifierOf(a[0]), IdentifierOf(a[0]));
      if IdentifiersOf(a) == IdentifiersOf(b) {
        assert IdentifiersOf(a[1..]) == IdentifiersOf(b[1..]);
        assert a == [a[0]] + a[1..] && b == [b[0]] + b[1..];
      }
    } else if b != [] {
      assert DifferAt(a, b, 0);
    } else if a == [] {
    } else {
      assert |IdentifiersOf(a)| != |IdentifiersOf(b)|;
    }
  }

  // The first difference is at the first place or among the rest.
  lemma DifferShift(a: seq<string>, b: seq<string>)
    requires a != [] && b != []
    ensures (exists i :: DifferAt(a, b, i)) <==>
      (a[0] != b[0] && IdentifierPrecedes(a[0], b[0])) || (a[0] == b[0] && exists i :: DifferAt(a[1..], b[1..], i))
  {
    if i: nat :| DifferAt(a, b, i) {
      if i > 0 {
        assert a[..i][0] == b[..i][0];
        assert a[1..][..i - 1] == a[..i][1..] && b[1..][..i - 1] == b[..i][1..];
        assert DifferAt(a[1..], b[1..], i - 1);
      }
    }
    if a[0] != b[0] && IdentifierPrecedes(a[0], b[0]) {
      assert DifferAt(a, b, 0);
    }
    if i: nat :| a[0] == b[0] && DifferAt(a[1..], b[1..], i) {
      assert a[..i + 1] == [a[0]] + a[1..][..i] && b[..i + 1] == [b[0]] + b[1..][..i];
      assert DifferAt(a, b, i + 1);
    }
  }

  lemma NumeralsByValue(s: string, t: string)
    requires IsNumeral(s) && IsNumeral(t)
    ensures Value(s) == Value(t) ==> s == t
  {
    DecimalOfValue(s);
    DecimalOfValue(t);
  }

  /** The previews in the example of section 11.4.4. */
  lemma SectionExample()
    ensures PreviewPrecedes(["alpha"], ["alpha", "1"])
    ensures PreviewPrecedes(["alpha", "1"], ["alpha", "beta"])
    ensures PreviewPrecedes(["alpha", "beta"], ["beta"])
    ensures PreviewPrecedes(["beta"], ["beta", "2"])
    ensures PreviewPrecedes(["beta", "2"], ["beta", "11"])
    ensures PreviewPrecedes(["beta", "11"], ["rc", "1"])
  {
    assert DifferAt(["alpha"], ["alpha", "1"], 1);
    assert DifferAt(["alpha", "1"], ["alpha", "beta"], 1);
    assert DifferAt(["alpha", "beta"], ["beta"], 0);
    assert DifferAt(["beta"], ["beta", "2"], 1);
    assert DifferAt(["beta", "2"], ["beta", "11"], 1);
    assert DifferAt(["beta", "11"], ["rc", "1"], 0);
  }

  /** The key order is the precedence of section 11, and equal keys mean equal tags. */
  lemma KeysRealisePrecedence(a: Parts, b: Parts)
    requires Accepted(a) && Accepted(b)
    ensures Less(KeyOf(a), KeyOf(b)) <==> Precedes(a, b)
    ensures KeyOf(a) == KeyOf(b) ==> a == b
  {
    NumeralsByValue(a.major, b.major);
    NumeralsByValue(a.minor, b.minor);
    NumeralsByValue(a.patch, b.patch);
    if a.preview.Some? && b.preview.Some? {
      PreviewOrder(a.preview.value, b.preview.value);
    }
  }

  /** Different accepted tags have different keys. */
  lemma VersionIsInjective(one: string, two: string)
    requires VersionOf(one).Some? && VersionOf(one) == VersionOf(two)
    ensures one == two
  {
    KeysRealisePrecedence(Apart(one).value, Apart(two).value);
    ApartSpells(one);
    ApartSpells(two);
  }

  // ---- Selecting and updating ----

  ghost predicate IsLatest(tags: seq<string>, latest: string) {
    && latest in tags && VersionOf(latest).Some?
    && forall t :: t in tags && VersionOf(t).Some? ==> !Less(VersionOf(latest).value, VersionOf(t).value)
  }

  /** The greatest accepted tag, or the error that there is none. */
  method SelectLatest(tags: seq<string>) returns (latest: Option<string>)
    ensures latest.None? <==> forall t :: t in tags ==> VersionOf(t).None?
    ensures latest.Some? ==> IsLatest(tags, latest.value)
  {
    latest := None;
    var best := Key(0, 0, 0, false, []);
    for i := 0 to |tags|
      invariant latest.None? <==> forall t :: t in tags[..i] ==> VersionOf(t).None?
      invariant latest.Some? ==> IsLatest(tags[..i], latest.value) && VersionOf(latest.value) == Some(best)
    {
      assert tags[..i + 1] == tags[..i] + [tags[i]];
      var key := Version(tags[i]);
      if key.None? {
        continue;
      }
      KeyOrder(key.value, key.value, key.value);
      if latest.None? || Less(best, key.value) {
        forall t | t in tags[..i] && VersionOf(t).Some? ensures !Less(key.value, VersionOf(t).value) {
          KeyOrder(best, key.value, VersionOf(t).value);
        }
        latest, best := Some(tags[i]), key.value;
      }
    }
    assert tags[..|tags|] == tags;
  }

  /** Order and invalid tags do not matter: the accepted tags alone decide the latest one. */
  lemma LatestIsUnique(tags: seq<string>, others: seq<string>, one: string, two: string)
    requires IsLatest(tags, one) && IsLatest(others, two)
    requires forall t :: VersionOf(t).Some? ==> (t in tags <==> t in others)
    ensures one == two
  {
    KeyOrder(VersionOf(one).value, VersionOf(two).value, VersionOf(one).value);
    VersionIsInjective(one, if VersionOf(one) == VersionOf(two) then two else one);
  }

  datatype Plan = Plan(update: bool, build: bool, tag: string)

  // None: the release is published but the pin is older, which raises.
  function PlanUpdate(current: string, latest: string, published: bool): Option<Plan>
    requires VersionOf(current).Some? && VersionOf(latest).Some?
  {
    if Less(VersionOf(latest).value, VersionOf(current).value) then Some(Plan(false, false, ""))
    else
      var update := Less(VersionOf(current).value, VersionOf(latest).value);
      if update && published then None
      else Some(Plan(update, !published, if published then "" else latest))
  }

  /** A tag is built exactly when it is unpublished and not older; without an update it is the pinned one. */
  lemma PlanMeans(current: string, latest: string, published: bool)
    requires VersionOf(current).Some? && VersionOf(latest).Some?
    ensures var plan := PlanUpdate(current, latest, published);
      var newer := Precedes(Apart(current).value, Apart(latest).value);
      && (plan.None? <==> newer && published)
      && (plan.Some? ==>
        && (plan.value.update <==> newer)
        && (plan.value.build <==> !published && (newer || latest == current))
        && plan.value.tag == if plan.value.build then latest else "")
  {
    var pin, head := VersionOf(current).value, VersionOf(latest).value;
    KeysRealisePrecedence(Apart(current).value, Apart(latest).value);
    KeyOrder(pin, head, pin);
    if pin == head {
      VersionIsInjective(latest, current);
    }
  }

  // One check: the tags upstream has, and whether the newest of them has been released.
  datatype Check = Check(tags: seq<string>, published: bool)

  ghost predicate AtLeast(next: string, current: string) {
    VersionOf(next).Some? && VersionOf(current).Some? && !Less(VersionOf(next).value, VersionOf(current).value)
  }

  lemma AtLeastOrder(a: string, b: string, c: string)
    ensures VersionOf(a).Some? ==> AtLeast(a, a)
    ensures AtLeast(b, a) && AtLeast(c, b) ==> AtLeast(c, a)
  {
    if VersionOf(a).Some? {
      KeyOrder(VersionOf(a).value, VersionOf(a).value, VersionOf(a).value);
      if AtLeast(b, a) && AtLeast(c, b) {
        KeyOrder(VersionOf(c).value, VersionOf(a).value, VersionOf(b).value);
        KeyOrder(VersionOf(a).value, VersionOf(b).value, VersionOf(c).value);
      }
    }
  }

  // The latest tag the check sees is newer than the pin and not released yet.
  ghost predicate Moves(check: Check, current: string, latest: string) {
    !check.published && IsLatest(check.tags, latest) && VersionOf(current).Some? && VersionOf(latest).Some?
    && Less(VersionOf(current).value, VersionOf(latest).value)
  }

  // The pin moves to the latest tag exactly when that one is newer and unpublished.
  ghost predicate Followed(check: Check, current: string, next: string) {
    && (forall latest :: Moves(check, current, latest) ==> next == latest)
    && (next != current ==> Moves(check, current, next))
  }

  lemma FollowedIsAtLeast(check: Check, current: string, next: string)
    requires VersionOf(current).Some? && Followed(check, current, next)
    ensures AtLeast(next, current)
  {
    AtLeastOrder(current, current, current);
    if next != current {
      KeyOrder(VersionOf(next).value, VersionOf(current).value, VersionOf(next).value);
    }
  }

  lemma LatestIsOne(tags: seq<string>, one: string, two: string)
    requires IsLatest(tags, one) && IsLatest(tags, two)
    ensures one == two
  {
    LatestIsUnique(tags, tags, one, two);
  }

  lemma {:induction false} LatestExists(tags: seq<string>, accepted: string) returns (latest: string)
    requires accepted in tags && VersionOf(accepted).Some?
    ensures IsLatest(tags, latest)
  {
    var front, last := tags[..|tags| - 1], tags[|tags| - 1];
    assert forall t :: t in tags <==> t in front || t == last;
    if VersionOf(last).Some? {
      KeyOrder(VersionOf(last).value, VersionOf(last).value, VersionOf(last).value);
    }
    if t :| t in front && VersionOf(t).Some? {
      latest := LatestExists(front, t);
      if VersionOf(last).Some? && Less(VersionOf(latest).value, VersionOf(last).value) {
        forall u | u in front && VersionOf(u).Some? ensures !Less(VersionOf(last).value, VersionOf(u).value) {
          KeyOrder(VersionOf(latest).value, VersionOf(last).value, VersionOf(u).value);
        }
        latest := last;
      }
    } else {
      latest := last;
    }
  }

  /** An unpublished check that still sees the pinned tag leaves the pin at the latest one. */
  lemma UnpublishedIsLatest(check: Check, current: string, next: string)
    requires VersionOf(current).Some? && Followed(check, current, next)
    requires !check.published && current in check.tags
    ensures IsLatest(check.tags, next)
  {
    var latest := LatestExists(check.tags, current);
    KeyOrder(VersionOf(latest).value, VersionOf(current).value, VersionOf(latest).value);
    if Moves(check, current, latest) {
      assert next == latest;
    } else {
      VersionIsInjective(latest, current);
    }
  }

  // Each check led from one pin to the next.
  ghost predicate AllFollowed(checks: seq<Check>, pins: seq<string>) {
    |pins| == |checks| + 1 && forall i :: 0 <= i < |checks| ==> Followed(checks[i], pins[i], pins[i + 1])
  }

  lemma OneMoreFollowed(checks: seq<Check>, pins: seq<string>, next: string)
    requires 0 < |pins| <= |checks| && AllFollowed(checks[..|pins| - 1], pins)
    requires Followed(checks[|pins| - 1], pins[|pins| - 1], next)
    ensures AllFollowed(checks[..|pins|], pins + [next])
  {
    var k := |pins| - 1;
    forall i | 0 <= i < k ensures Followed(checks[..k + 1][i], (pins + [next])[i], (pins + [next])[i + 1]) {
      assert checks[..k][i] == checks[..k + 1][i];
    }
  }

  ghost predicate NeverDecreases(pins: seq<string>) {
    forall i, j :: 0 <= i <= j < |pins| ==> AtLeast(pins[j], pins[i])
  }

  lemma StillNotDecreased(pins: seq<string>, next: string)
    requires pins != [] && NeverDecreases(pins) && AtLeast(next, pins[|pins| - 1])
    ensures NeverDecreases(pins + [next])
  {
    var last := |pins| - 1;
    AtLeastOrder(next, next, next);
    forall i | 0 <= i <= last ensures AtLeast(next, pins[i]) {
      assert AtLeast(pins[last], pins[i]);
      AtLeastOrder(pins[i], pins[last], next);
    }
  }

  /** Over every run of update checks the pinned version never decreases. */
  method Follow(start: string, checks: seq<Check>) returns (pins: seq<string>)
    requires VersionOf(start).Some?
    ensures |pins| == |checks| + 1 && pins[0] == start
    ensures AllFollowed(checks, pins) && NeverDecreases(pins)
  {
    pins := [start];
    AtLeastOrder(start, start, start);
    for k := 0 to |checks|
      invariant |pins| == k + 1 && pins[0] == start
      invariant AllFollowed(checks[..k], pins) && NeverDecreases(pins)
    {
      assert AtLeast(pins[k], pins[k]);
      var next := CheckOnce(pins[k], checks[k]);
      FollowedIsAtLeast(checks[k], pins[k], next);
      StillNotDecreased(pins, next);
      OneMoreFollowed(checks, pins, next);
      pins := pins + [next];
    }
    assert checks[..|checks|] == checks;
  }

  method CheckOnce(current: string, check: Check) returns (next: string)
    requires VersionOf(current).Some?
    ensures Followed(check, current, next)
  {
    next := current;
    var latest := SelectLatest(check.tags);
    if latest.Some? {
      var plan := PlanUpdate(current, latest.value, check.published);
      KeyOrder(VersionOf(current).value, VersionOf(latest.value).value, VersionOf(current).value);
      if plan.Some? && plan.value.update {
        next := latest.value;
      }
      forall tag | Moves(check, current, tag) ensures next == tag {
        LatestIsOne(check.tags, latest.value, tag);
      }
    }
  }
}
