/** The URL test options as unknown fields of a request (url_test_options.go). */
module UrlTestOptions {
  import opened Prelude
  import opened ProtoWire

  const FIELD_LINK: nat := 1000
  const FIELD_TIMEOUT: nat := 1001
  const FIELD_FLAGS: nat := 1002

  datatype Options = Options(link: Bytes, timeoutMs: nat, flags: nat)

  const DEFAULTS := Options([], 0, 0)

  // ---- The reference: a payload is a list of fields, and the last one of a number wins ----

  datatype Field =
    | Link(link: Bytes)
    | Timeout(timeout: nat)
    | Flags(flags: nat)
    | Foreign

  // The field at the front of a payload, with the wire type this package demands of its own numbers.
  function TakeField(b: Bytes): (t: Taken<Field>)
    ensures t.Taken? ==> 0 < t.length <= |b|
  {
    match TakeTag(b)
    case Malformed => Malformed
    case Taken(tag, n) =>
      var rest := b[n..];
      if tag.number == FIELD_LINK then
        if tag.wireType != BYTES then Malformed
        else match TakeBytes(rest) case Malformed => Malformed case Taken(link, m) => Taken(Link(link), n + m)
      else if tag.number == FIELD_TIMEOUT then
        if tag.wireType != VARINT then Malformed
        else match TakeVarint(rest) case Malformed => Malformed case Taken(v, m) => Taken(Timeout(v), n + m)
      else if tag.number == FIELD_FLAGS then
        if tag.wireType != VARINT then Malformed
        else match TakeVarint(rest) case Malformed => Malformed case Taken(v, m) => Taken(Flags(v), n + m)
      else match TakeValue(tag.number, tag.wireType, rest, GROUP_DEPTH)
        case Malformed => Malformed
        case Taken(_, m) => Taken(Foreign, n + m)
  }

  function Fields(b: Bytes): Option<seq<Field>> {
    Split(TakeField, b)
  }

  // What a list of fields says about each option: the last field of its number, if any.
  datatype Said = Said(link: Option<Bytes>, timeout: Option<nat>, flags: Option<nat>)

  function Meaning(fields: seq<Field>): Said {
    if fields == [] then Said(None, None, None) else
      var before := Meaning(fields[..|fields| - 1]);
      match fields[|fields| - 1]
      case Link(link) => before.(link := Some(link))
      case Timeout(v) => before.(timeout := Some(v))
      case Flags(v) => before.(flags := Some(v))
      case Foreign => before
  }

  function Or<T>(a: Option<T>, b: Option<T>): Option<T> {
    if b.Some? then b else a
  }

  // Two messages merged: what the second says wins.
  function Merge(a: Said, b: Said): Said {
    Said(Or(a.link, b.link), Or(a.timeout, b.timeout), Or(a.flags, b.flags))
  }

  function Min(a: nat, b: nat): nat { if a < b then a else b }

  // The options as the caller gets them: absent ones are zero, timeouts saturate and flags wrap.
  function Decoded(said: Said): Options {
    Options(
      if said.link.Some? then said.link.value else [],
      if said.timeout.Some? then Min(said.timeout.value, MAX_INT32) else 0,
      if said.flags.Some? then said.flags.value % 256 else 0)
  }

  predicate Loaded(said: Said) {
    said.link.Some? || said.timeout.Some? || said.flags.Some?
  }

  // ---- The program ----

  // The fields a caller's options are written as: the link and a timeout are left out when they say nothing.
  function Written(link: Bytes, timeoutMs: int, flags: nat): seq<Field> {
    LinkFields(link) + TimeoutFields(timeoutMs) + [Flags(flags)]
  }

  function LinkFields(link: Bytes): seq<Field> {
    if link == [] then [] else [Link(link)]
  }

  function TimeoutFields(timeoutMs: int): seq<Field> {
    if timeoutMs > 0 then [Timeout(timeoutMs)] else []
  }

  /** Writes the options as fields. */
  method AppendOptions(link: Bytes, timeoutMs: int, flags: nat) returns (unknown: Bytes)
    requires |link| <= MAX_UINT64 && -0x8000_0000 <= timeoutMs <= MAX_INT32 && flags < 256
    ensures Fields(unknown) == Some(Written(link, timeoutMs, flags))
  {
    unknown := [];
    if link != [] {
      unknown := unknown + AppendTag(FIELD_LINK, BYTES);
      unknown := unknown + AppendBytes(link);
    }
    FieldsOfLink(link, unknown);
    ghost var one := unknown;
    if timeoutMs > 0 {
      unknown := unknown + AppendTag(FIELD_TIMEOUT, VARINT);
      unknown := unknown + AppendVarint(timeoutMs);
      WrittenField(one, LinkFields(link), FIELD_TIMEOUT, timeoutMs, unknown);
    }
    ghost var two := unknown;
    assert LinkFields(link) + [] == LinkFields(link);
    assert Fields(two) == Some(LinkFields(link) + TimeoutFields(timeoutMs));
    unknown := unknown + AppendTag(FIELD_FLAGS, VARINT);
    unknown := unknown + AppendVarint(flags);
    WrittenField(two, LinkFields(link) + TimeoutFields(timeoutMs), FIELD_FLAGS, flags, unknown);
  }

  // What a field does to the options read so far.
  function Updated(options: Options, field: Field): Options {
    match field
    case Link(link) => options.(link := link)
    case Timeout(v) => options.(timeoutMs := Min(v, MAX_INT32))
    case Flags(v) => options.(flags := v % 256)
    case Foreign => options
  }

  // One turn of the decoding loop: the bytes taken, or that the field is malformed.
  method ReadField(unknown: Bytes, before: Options) returns (taken: Taken<Options>, own: bool)
    ensures match TakeField(unknown)
      case Malformed => taken.Malformed?
      case Taken(field, n) => taken == Taken(Updated(before, field), n) && own == !field.Foreign?
  {
    var options := before;
    var tag := TakeTag(unknown);
    if tag.Malformed? {
      return Malformed, false;
    }
    var rest := unknown[tag.length..];
    var number, wireType := tag.value.number, tag.value.wireType;
    own := true;
    var valueLength: Taken<()>;
    if number == FIELD_LINK {
      if wireType != BYTES {
        return Malformed, false;
      }
      var value := TakeBytes(rest);
      if value.Malformed? {
        return Malformed, false;
      }
      options := options.(link := value.value);
      valueLength := Taken((), value.length);
    } else if number == FIELD_TIMEOUT || number == FIELD_FLAGS {
      if wireType != VARINT {
        return Malformed, false;
      }
      var value := TakeVarint(rest);
      if value.Malformed? {
        return Malformed, false;
      }
      if number == FIELD_TIMEOUT {
        options := options.(timeoutMs := Min(value.value, MAX_INT32));
      } else {
        options := options.(flags := value.value % 256);
      }
      valueLength := Taken((), value.length);
    } else {
      own := false;
      valueLength := TakeValue(number, wireType, rest, GROUP_DEPTH);
    }
    if valueLength.Malformed? {
      return Malformed, false;
    }
    taken := Taken(options, tag.length + valueLength.length);
  }

  /** Reads the options, or reports a stock request: one without them, or with a malformed field anywhere. */
  method OptionsFromRequest(payload: Bytes) returns (options: Options, loaded: bool)
    ensures match Fields(payload)
      case None => options == DEFAULTS && !loaded
      case Some(fields) => options == Decoded(Meaning(fields)) && loaded == Loaded(Meaning(fields))
  {
    var unknown := payload;
    options, loaded := DEFAULTS, false;
    ghost var seen: seq<Field> := [];
    BeforeTwice<Field>([], [], Fields(unknown));
    while |unknown| > 0
      invariant options == Decoded(Meaning(seen)) && loaded == Loaded(Meaning(seen))
      invariant Fields(payload) == Before(seen, Fields(unknown))
      decreases |unknown|
    {
      var taken, own := ReadField(unknown, options);
      if taken.Malformed? {
        return DEFAULTS, false;
      }
      ghost var field := TakeField(unknown).value;
      options, loaded := taken.value, loaded || own;
      unknown := unknown[taken.length..];
      MeaningSnoc(seen, field);
      MeaningOne(field);
      BeforeTwice(seen, [field], Fields(unknown));
      seen := seen + [field];
    }
    assert seen + [] == seen;
  }

  // ---- What is written is read back ----

  lemma WrittenLink(link: Bytes)
    requires |link| <= MAX_UINT64
    ensures Fields(AppendTag(FIELD_LINK, BYTES) + AppendBytes(link)) == Some([Link(link)])
  {
    var tag, value := AppendTag(FIELD_LINK, BYTES), AppendBytes(link);
    WrittenTag(FIELD_LINK, BYTES, value);
    assert (tag + value)[|tag|..] == value;
    WrittenBytes(link, []);
    assert value + [] == value;
    SplitOne(TakeField, tag + value);
  }

  lemma FieldsOfLink(link: Bytes, written: Bytes)
    requires |link| <= MAX_UINT64
    requires written == if link == [] then [] else [] + AppendTag(FIELD_LINK, BYTES) + AppendBytes(link)
    ensures Fields(written) == Some(LinkFields(link))
  {
    if link != [] {
      EmptyFirst(AppendTag(FIELD_LINK, BYTES), AppendBytes(link));
      WrittenLink(link);
    }
  }

  lemma WrittenVarint(number: nat, v: nat)
    requires (number == FIELD_TIMEOUT || number == FIELD_FLAGS) && v <= MAX_UINT64
    ensures Fields(AppendTag(number, VARINT) + AppendVarint(v)) ==
      Some([if number == FIELD_TIMEOUT then Timeout(v) else Flags(v)])
  {
    var tag, value := AppendTag(number, VARINT), AppendVarint(v);
    WrittenTag(number, VARINT, value);
    assert (tag + value)[|tag|..] == value;
    VarintRoundTrip(v, []);
    assert value + [] == value;
    SplitOne(TakeField, tag + value);
  }

  lemma WrittenField(b: Bytes, fields: seq<Field>, number: nat, v: nat, longer: Bytes)
    requires Fields(b) == Some(fields) && longer == b + AppendTag(number, VARINT) + AppendVarint(v)
    requires (number == FIELD_TIMEOUT || number == FIELD_FLAGS) && v <= MAX_UINT64
    ensures Fields(longer) == Some(fields + [if number == FIELD_TIMEOUT then Timeout(v) else Flags(v)])
  {
    WrittenVarint(number, v);
    SumOfThree(b, AppendTag(number, VARINT), AppendVarint(v));
    OneMoreField(b, AppendTag(number, VARINT) + AppendVarint(v), if number == FIELD_TIMEOUT then Timeout(v)
      else Flags(v));
  }

  lemma OneMoreField(b: Bytes, more: Bytes, field: Field)
    requires Fields(b).Some? && Fields(more) == Some([field])
    ensures Fields(b + more) == Some(Fields(b).value + [field])
  {
    FieldsAppend(b, more);
  }

  /** Reading what was written gives back the link, the flags and the timeout cut off at zero. */
  method WireRoundTrip(link: Bytes, timeoutMs: int, flags: nat) returns (options: Options, loaded: bool)
    requires |link| <= MAX_UINT64 && -0x8000_0000 <= timeoutMs <= MAX_INT32 && flags < 256
    ensures loaded && options == Options(link, if timeoutMs > 0 then timeoutMs else 0, flags)
  {
    var unknown := AppendOptions(link, timeoutMs, flags);
    options, loaded := OptionsFromRequest(unknown);
    WrittenMeaning(link, timeoutMs, flags);
  }

  lemma WrittenMeaning(link: Bytes, timeoutMs: int, flags: nat)
    requires flags < 256
    ensures Meaning(Written(link, timeoutMs, flags)) ==
      Said(if link == [] then None else Some(link), if timeoutMs > 0 then Some(timeoutMs) else None, Some(flags))
  {
    var ones, twos := LinkFields(link), TimeoutFields(timeoutMs);
    MeaningSnoc(ones + twos, Flags(flags));
    MeaningAppend(ones, twos);
    MeaningOne(Link(link));
    if timeoutMs > 0 {
      MeaningOne(Timeout(timeoutMs));
    }
    MeaningOne(Flags(flags));
  }

  /** The bytes of the three tags. */
  lemma TagBytes()
    ensures AppendTag(FIELD_LINK, BYTES) == [0xC2, 0x3E]
    ensures AppendTag(FIELD_TIMEOUT, VARINT) == [0xC8, 0x3E]
    ensures AppendTag(FIELD_FLAGS, VARINT) == [0xD0, 0x3E]
  {
    assert AppendVarint(62) == [0x3E];
  }

  /**
   Whatever well-formed fields come before, the last link, timeout and flags are the ones read; timeouts
   saturate at the largest int32, and flags are taken modulo 256.
   */
  method ReadLast(before: Bytes, link: Bytes, timeout: nat, flags: nat) returns (options: Options, loaded: bool)
    requires Fields(before).Some? && |link| <= MAX_UINT64 && timeout <= MAX_UINT64 && flags <= MAX_UINT64
    ensures loaded && options.link == link
    ensures options.timeoutMs == (if timeout > 0x7FFF_FFFF then 0x7FFF_FFFF else timeout)
    ensures options.flags == flags % 256
  {
    var one := before + (AppendTag(FIELD_LINK, BYTES) + AppendBytes(link));
    var two := one + AppendTag(FIELD_TIMEOUT, VARINT) + AppendVarint(timeout);
    var three := two + AppendTag(FIELD_FLAGS, VARINT) + AppendVarint(flags);
    WrittenLink(link);
    OneMoreField(before, AppendTag(FIELD_LINK, BYTES) + AppendBytes(link), Link(link));
    ghost var fields := Fields(one).value;
    WrittenField(one, fields, FIELD_TIMEOUT, timeout, two);
    WrittenField(two, fields + [Timeout(timeout)], FIELD_FLAGS, flags, three);
    LastFields(Fields(before).value, link, timeout, flags);
    options, loaded := OptionsFromRequest(three);
  }

  lemma LastFields(fields: seq<Field>, link: Bytes, timeout: nat, flags: nat)
    ensures Meaning(fields + [Link(link)] + [Timeout(timeout)] + [Flags(flags)]) ==
      Said(Some(link), Some(timeout), Some(flags))
  {
    MeaningSnoc(fields, Link(link));
    MeaningSnoc(fields + [Link(link)], Timeout(timeout));
    MeaningSnoc(fields + [Link(link)] + [Timeout(timeout)], Flags(flags));
    MeaningOne(Link(link));
    MeaningOne(Timeout(timeout));
    MeaningOne(Flags(flags));
  }

  predicate OwnNumber(number: nat) {
    number == 1000 || number == 1001 || number == 1002
  }

  /** A field of one's own number with another wire type spoils the whole payload. */
  method ReadWrongType(before: Bytes, number: nat, wireType: nat, rest: Bytes) returns (options: Options, loaded: bool)
    requires Fields(before).Some? && OwnNumber(number) && wireType < 8
    requires wireType != if number == 1000 then 2 else 0
    ensures !loaded && options == Options([], 0, 0)
  {
    var field := AppendTag(number, wireType) + rest;
    WrittenTag(number, wireType, rest);
    assert TakeField(field).Malformed?;
    FieldsAppend(before, field);
    options, loaded := OptionsFromRequest(before + field);
  }

  lemma ForeignItemIsRead(item: Item)
    requires Writable(item, 10000) && !OwnNumber(item.number)
    ensures Fields(WriteItem(item)) == Some([Foreign])
  {
    ForeignItemIsTaken(item);
    SplitOne(TakeField, WriteItem(item));
  }

  predicate AllForeign(items: Items) {
    items.MoreItems? ==> Writable(items.first, 10000) && !OwnNumber(items.first.number) && AllForeign(items.rest)
  }

  lemma {:induction false} ForeignItemsAreRead(items: Items)
    requires AllForeign(items)
    ensures Reading(WriteAll(items)) == Some(Said(None, None, None))
    decreases items
  {
    if items.MoreItems? {
      ForeignItemIsRead(items.first);
      ForeignItemsAreRead(items.rest);
      ReadingIsAFold(WriteItem(items.first), WriteAll(items.rest));
      MeaningOne(Foreign);
    }
  }

  /** Written fields of other numbers, of whatever wire types and nested groups, are skipped at any field boundary. */
  method ReadWithForeign(a: Bytes, items: Items, b: Bytes) returns (options: Options, loaded: bool)
    requires Fields(a).Some? && AllForeign(items)
    ensures match Reading(a + b)
      case None => options == DEFAULTS && !loaded
      case Some(said) => options == Decoded(said) && loaded == Loaded(said)
  {
    ForeignItemsAreRead(items);
    ReadingIsAFold(a, b);
    ReadingIsAFold(a, WriteAll(items));
    ReadingIsAFold(a + WriteAll(items), b);
    options, loaded := OptionsFromRequest(a + WriteAll(items) + b);
  }

  /** More than 10001 groups inside each other are malformed. */
  lemma DeepNestingIsMalformed(number: nat, rest: Bytes)
    requires 1 <= number <= MAX_INT32 && !OwnNumber(number)
    ensures TakeField(Starts(number, 10002) + rest).Malformed?
  {
    var tag, inner := AppendTag(number, 3), Starts(number, 10001) + rest;
    SumOfThree(tag, Starts(number, 10001), rest);
    WrittenTag(number, 3, inner);
    assert (tag + inner)[|tag|..] == inner;
    DeepGroupsAreMalformed(number, 10001, rest, GROUP_DEPTH);
  }

  /** A field cut short is malformed. */
  lemma TruncatedIsMalformed(item: Item, k: nat)
    requires Writable(item, 10000) && !OwnNumber(item.number) && k < |WriteItem(item)|
    ensures TakeField(WriteItem(item)[..k]).Malformed?
  {
    var whole := WriteItem(item);
    ForeignItemIsTaken(item);
    assert whole[..k] + whole[k..] == whole;
    if TakeField(whole[..k]).Taken? {
      FieldIgnoresRest(whole[..k], whole[k..]);
    }
  }

  lemma ForeignItemIsTaken(item: Item)
    requires Writable(item, 10000) && !OwnNumber(item.number)
    ensures TakeField(WriteItem(item)) == Taken(Foreign, |WriteItem(item)|)
  {
    var tag, value := AppendTag(item.number, WireTypeOf(item)), WriteValue(item);
    WrittenTag(item.number, WireTypeOf(item), value);
    WrittenValueIsTaken(item, [], GROUP_DEPTH);
    assert (tag + value)[|tag|..] == value && value + [] == value;
  }

  // ---- Parsing is a fold ----

  lemma FieldIgnoresRest(b: Bytes, rest: Bytes)
    requires TakeField(b).Taken?
    ensures TakeField(b + rest) == TakeField(b)
  {
    TagIgnoresRest(b, rest);
    var tag := TakeTag(b);
    var n := tag.length;
    assert (b + rest)[n..] == b[n..] + rest;
    if tag.value.number == FIELD_LINK {
      BytesIgnoreRest(b[n..], rest);
    } else if tag.value.number == FIELD_TIMEOUT || tag.value.number == FIELD_FLAGS {
      VarintIgnoresRest(b[n..], rest, VARINT_LENGTH);
    } else {
      ValueIgnoresRest(tag.value.number, tag.value.wireType, b[n..], rest, GROUP_DEPTH);
    }
  }

  lemma FieldsAppend(a: Bytes, b: Bytes)
    requires Fields(a).Some?
    ensures Fields(a + b) == Before(Fields(a).value, Fields(b))
  {
    forall x, rest | TakeField(x).Taken? ensures TakeField(x + rest) == TakeField(x) {
      FieldIgnoresRest(x, rest);
    }
    SplitAppend(TakeField, a, b);
  }

  lemma MeaningSnoc(fields: seq<Field>, field: Field)
    ensures Meaning(fields + [field]) == Merge(Meaning(fields), Meaning([field]))
  {
    assert (fields + [field])[..|fields|] == fields;
    MeaningOne(field);
  }

  lemma MeaningOne(field: Field)
    ensures Meaning([field]) == match field
      case Link(link) => Said(Some(link), None, None)
      case Timeout(v) => Said(None, Some(v), None)
      case Flags(v) => Said(None, None, Some(v))
      case Foreign => Said(None, None, None)
  {
    assert [field][..0] == [];
  }

  lemma {:induction false} MeaningAppend(a: seq<Field>, b: seq<Field>)
    ensures Meaning(a + b) == Merge(Meaning(a), Meaning(b))
  {
    if b == [] {
      assert a + b == a;
    } else {
      var front, last := b[..|b| - 1], b[|b| - 1];
      assert a + b == (a + front) + [last] && b == front + [last];
      MeaningAppend(a, front);
      MeaningSnoc(a + front, last);
      MeaningSnoc(front, last);
    }
  }

  // What a payload says; a malformed one says nothing at all.
  function Reading(b: Bytes): Option<Said> {
    match Fields(b) case None => None case Some(fields) => Some(Meaning(fields))
  }

  /** Decoding a ++ b merges the two decodings, later fields winning. */
  lemma ReadingIsAFold(a: Bytes, b: Bytes)
    requires Reading(a).Some?
    ensures Reading(a + b) == match Reading(b) case None => None case Some(said) => Some(Merge(Reading(a).value, said))
  {
    FieldsAppend(a, b);
    if Fields(b).Some? {
      MeaningAppend(Fields(a).value, Fields(b).value);
    }
  }

  lemma {:induction false} ForeignSaysNothing(fields: seq<Field>)
    requires forall i :: 0 <= i < |fields| ==> fields[i] == Foreign
    ensures Meaning(fields) == Said(None, None, None)
  {
    if fields != [] {
      ForeignSaysNothing(fields[..|fields| - 1]);
    }
  }

  /** Well-formed foreign fields between two fields change nothing, and a malformed tail spoils everything before it. */
  lemma ForeignFieldsAreIgnored(a: Bytes, foreign: Bytes, b: Bytes)
    requires Fields(a).Some? && Fields(foreign).Some?
    requires var fields := Fields(foreign).value; forall i :: 0 <= i < |fields| ==> fields[i] == Foreign
    ensures Reading(a + foreign + b) == Reading(a + b)
    ensures Reading(b).None? ==> Reading(a + b).None?
  {
    ReadingIsAFold(a, b);
    ReadingIsAFold(a, foreign);
    ReadingIsAFold(a + foreign, b);
    ForeignSaysNothing(Fields(foreign).value);
  }
}
