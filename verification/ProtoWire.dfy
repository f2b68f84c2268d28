/**
 The part of the Protocol Buffers wire format that carries the URL test options:
 base 128 varints, tags, length-delimited values and groups, as `protowire`
 consumes and appends them (Protocol Buffers Encoding guide, "Base 128 Varints",
 "Message Structure" and "Groups").
 */
module ProtoWire {
  import opened Prelude

  const MAX_UINT64: nat := 0xFFFF_FFFF_FFFF_FFFF
  const MAX_INT32: nat := 0x7FFF_FFFF
  const VARINT_LENGTH: nat := 10
  const GROUP_DEPTH: int := 10000

  // A value read from the front of a byte string and how many bytes it took.
  datatype Taken<+T> = Taken(value: T, length: nat) | Malformed

  datatype WireTag = WireTag(number: nat, wireType: nat)

  const VARINT: nat := 0
  const FIXED64: nat := 1
  const BYTES: nat := 2
  const START_GROUP: nat := 3
  const END_GROUP: nat := 4
  const FIXED32: nat := 5

  // ---- Varints ----

  function AppendVarint(v: nat): (b: Bytes)
    ensures b != []
  {
    if v < 128 then [v as byte] else [(v % 128 + 128) as byte] + AppendVarint(v / 128)
  }

  // Reads a varint of at most `left` bytes; the tenth byte may only carry the 64th bit.
  function TakeVarintWithin(b: Bytes, left: nat): (t: Taken<nat>)
    requires 0 < left <= VARINT_LENGTH
    ensures t.Taken? ==> 0 < t.length <= |b| && t.length <= left
    decreases left
  {
    if b == [] then Malformed
    else
      var low := b[0] as nat;
      if left == 1 then (if low < 2 then Taken(low, 1) else Malformed)
      else if low < 128 then Taken(low, 1)
      else match TakeVarintWithin(b[1..], left - 1)
        case Malformed => Malformed
        case Taken(high, length) => Taken(low - 128 + 128 * high, length + 1)
  }

  function TakeVarint(b: Bytes): (t: Taken<nat>)
    ensures t.Taken? ==> 0 < t.length <= |b|
  {
    TakeVarintWithin(b, VARINT_LENGTH)
  }

  // One more than the largest value of `left` bytes.
  function VarintBound(left: nat): (bound: nat)
    requires 0 < left
    ensures bound >= 2
  {
    if left == 1 then 2 else 128 * VarintBound(left - 1)
  }

  lemma BoundIsUint64()
    ensures VarintBound(VARINT_LENGTH) == MAX_UINT64 + 1
  {
    assert VarintBound(1) == 2;
    assert VarintBound(2) == 0x100;
    assert VarintBound(3) == 0x8000;
    assert VarintBound(4) == 0x40_0000;
    assert VarintBound(5) == 0x2000_0000;
    assert VarintBound(6) == 0x10_0000_0000;
    assert VarintBound(7) == 0x800_0000_0000;
    assert VarintBound(8) == 0x4_0000_0000_0000;
    assert VarintBound(9) == 0x200_0000_0000_0000;
  }

  lemma {:induction false} TakeAppended(v: nat, rest: Bytes, left: nat)
    requires 0 < left <= VARINT_LENGTH && v < VarintBound(left)
    ensures TakeVarintWithin(AppendVarint(v) + rest, left) == Taken(v, |AppendVarint(v)|)
    decreases left
  {
    var b := AppendVarint(v) + rest;
    if v >= 128 {
      assert left > 1;
      assert b[1..] == AppendVarint(v / 128) + rest;
      TakeAppended(v / 128, rest, left - 1);
    }
  }

  /** Every 64-bit value is read back from its varint, whatever follows it. */
  lemma VarintRoundTrip(v: nat, rest: Bytes)
    requires v <= MAX_UINT64
    ensures TakeVarint(AppendVarint(v) + rest) == Taken(v, |AppendVarint(v)|)
  {
    BoundIsUint64();
    TakeAppended(v, rest, VARINT_LENGTH);
  }

  lemma {:induction false} TakenWithinBound(b: Bytes, left: nat)
    requires 0 < left <= VARINT_LENGTH
    ensures var t := TakeVarintWithin(b, left); t.Taken? ==>
      t.value < VarintBound(left) && |AppendVarint(t.value)| <= t.length
    decreases left
  {
    if b != [] && left > 1 && b[0] as nat >= 128 {
      TakenWithinBound(b[1..], left - 1);
      var t := TakeVarintWithin(b, left);
      if t.Taken? {
        var high := TakeVarintWithin(b[1..], left - 1).value;
        assert t.value / 128 == high;
      }
    }
  }

  /** What is read fits 64 bits, and the appended form is the shortest that reads back to it. */
  lemma VarintIsShortest(b: Bytes)
    ensures var t := TakeVarint(b); t.Taken? ==>
      t.value <= MAX_UINT64 && |AppendVarint(t.value)| <= t.length <= VARINT_LENGTH
  {
    BoundIsUint64();
    TakenWithinBound(b, VARINT_LENGTH);
  }

  // ---- Tags and values ----

  function AppendTag(number: nat, wireType: nat): Bytes {
    AppendVarint(number * 8 + wireType)
  }

  function TakeTag(b: Bytes): (t: Taken<WireTag>)
    ensures t.Taken? ==> 0 < t.length <= |b|
  {
    match TakeVarint(b)
    case Malformed => Malformed
    case Taken(v, length) =>
      if v / 8 > MAX_INT32 || v / 8 < 1 then Malformed else Taken(WireTag(v / 8, v % 8), length)
  }

  function AppendBytes(value: Bytes): Bytes {
    AppendVarint(|value|) + value
  }

  function TakeBytes(b: Bytes): (t: Taken<Bytes>)
    ensures t.Taken? ==> 0 < t.length <= |b|
  {
    match TakeVarint(b)
    case Malformed => Malformed
    case Taken(size, length) =>
      if size > |b| - length then Malformed else Taken(b[length..length + size], length + size)
  }

  // How many bytes the value of a field takes.
  function TakeValue(number: nat, wireType: nat, b: Bytes, depth: int): (t: Taken<()>)
    ensures t.Taken? ==> t.length <= |b|
    decreases |b|, 1
  {
    if wireType == VARINT then (match TakeVarint(b) case Malformed => Malformed case Taken(_, n) => Taken((), n))
    else if wireType == FIXED32 then (if |b| < 4 then Malformed else Taken((), 4))
    else if wireType == FIXED64 then (if |b| < 8 then Malformed else Taken((), 8))
    else if wireType == BYTES then (match TakeBytes(b) case Malformed => Malformed case Taken(_, n) => Taken((), n))
    else if wireType == START_GROUP then (if depth < 0 then Malformed else TakeGroup(number, b, depth))
    else Malformed
  }

  // The fields of a group up to its end tag.
  function TakeGroup(number: nat, b: Bytes, depth: int): (t: Taken<()>)
    ensures t.Taken? ==> t.length <= |b|
    decreases |b|, 0
  {
    match TakeTag(b)
    case Malformed => Malformed
    case Taken(tag, n) =>
      if tag.wireType == END_GROUP then (if tag.number == number then Taken((), n) else Malformed)
      else match TakeValue(tag.number, tag.wireType, b[n..], depth - 1)
        case Malformed => Malformed
        case Taken(_, m) =>
          match TakeGroup(number, b[n + m..], depth)
          case Malformed => Malformed
          case Taken(_, k) => Taken((), n + m + k)
  }

  // ---- Reading looks no further than what it takes ----

  lemma {:induction false} VarintIgnoresRest(b: Bytes, rest: Bytes, left: nat)
    requires 0 < left <= VARINT_LENGTH && TakeVarintWithin(b, left).Taken?
    ensures TakeVarintWithin(b + rest, left) == TakeVarintWithin(b, left)
    decreases left
  {
    if left > 1 && b[0] as nat >= 128 {
      assert (b + rest)[1..] == b[1..] + rest;
      VarintIgnoresRest(b[1..], rest, left - 1);
    }
  }

  lemma TagIgnoresRest(b: Bytes, rest: Bytes)
    requires TakeTag(b).Taken?
    ensures TakeTag(b + rest) == TakeTag(b)
  {
    VarintIgnoresRest(b, rest, VARINT_LENGTH);
  }

  lemma BytesIgnoreRest(b: Bytes, rest: Bytes)
    requires TakeBytes(b).Taken?
    ensures TakeBytes(b + rest) == TakeBytes(b)
  {
    VarintIgnoresRest(b, rest, VARINT_LENGTH);
    var size := TakeVarint(b);
    assert (b + rest)[size.length..size.length + size.value] == b[size.length..size.length + size.value];
  }

  lemma {:induction false} ValueIgnoresRest(number: nat, wireType: nat, b: Bytes, rest: Bytes, depth: int)
    requires TakeValue(number, wireType, b, depth).Taken?
    ensures TakeValue(number, wireType, b + rest, depth) == TakeValue(number, wireType, b, depth)
    decreases |b|, 1
  {
    if wireType == VARINT {
      VarintIgnoresRest(b, rest, VARINT_LENGTH);
    } else if wireType == BYTES {
      BytesIgnoreRest(b, rest);
    } else if wireType == START_GROUP {
      GroupIgnoresRest(number, b, rest, depth);
    }
  }

  lemma {:induction false} GroupIgnoresRest(number: nat, b: Bytes, rest: Bytes, depth: int)
    requires TakeGroup(number, b, depth).Taken?
    ensures TakeGroup(number, b + rest, depth) == TakeGroup(number, b, depth)
    decreases |b|, 0
  {
    TagIgnoresRest(b, rest);
    var tag := TakeTag(b);
    if tag.value.wireType != END_GROUP {
      var n := tag.length;
      assert (b + rest)[n..] == b[n..] + rest;
      ValueIgnoresRest(tag.value.number, tag.value.wireType, b[n..], rest, depth - 1);
      var m := TakeValue(tag.value.number, tag.value.wireType, b[n..], depth - 1).length;
      assert (b + rest)[n + m..] == b[n + m..] + rest;
      GroupIgnoresRest(number, b[n + m..], rest, depth);
    }
  }

  // ---- What is written ----

  // A field of any wire type; a group holds further fields.
  datatype Item =
    | VarintItem(number: nat, v: nat)
    | Fixed32Item(number: nat, four: Bytes)
    | Fixed64Item(number: nat, eight: Bytes)
    | BytesItem(number: nat, value: Bytes)
    | GroupItem(number: nat, items: Items)

  datatype Items = NoItems | MoreItems(first: Item, rest: Items)

  function WireTypeOf(item: Item): nat {
    match item
    case VarintItem(_, _) => 0
    case Fixed64Item(_, _) => 1
    case BytesItem(_, _) => 2
    case GroupItem(_, _) => 3
    case Fixed32Item(_, _) => 5
  }

  // What may be written, with groups nested no deeper than `depth`.
  predicate Writable(item: Item, depth: int) {
    1 <= item.number <= MAX_INT32 &&
    match item
    case VarintItem(_, v) => v <= MAX_UINT64
    case Fixed32Item(_, four) => |four| == 4
    case Fixed64Item(_, eight) => |eight| == 8
    case BytesItem(_, value) => |value| <= MAX_UINT64
    case GroupItem(_, items) => depth >= 0 && AllWritable(items, depth - 1)
  }

  predicate AllWritable(items: Items, depth: int) {
    items.MoreItems? ==> Writable(items.first, depth) && AllWritable(items.rest, depth)
  }

  function WriteItem(item: Item): Bytes
    decreases item, 1
  {
    AppendTag(item.number, WireTypeOf(item)) + WriteValue(item)
  }

  function WriteValue(item: Item): Bytes
    decreases item, 0
  {
    match item
    case VarintItem(_, v) => AppendVarint(v)
    case Fixed32Item(_, four) => four
    case Fixed64Item(_, eight) => eight
    case BytesItem(_, value) => AppendBytes(value)
    case GroupItem(number, items) => WriteAll(items) + AppendTag(number, 4)
  }

  function WriteAll(items: Items): Bytes
    decreases items
  {
    if items.NoItems? then [] else WriteItem(items.first) + WriteAll(items.rest)
  }

  lemma WrittenTag(number: nat, wireType: nat, rest: Bytes)
    requires 1 <= number <= MAX_INT32 && wireType < 8
    ensures TakeTag(AppendTag(number, wireType) + rest) ==
      Taken(WireTag(number, wireType), |AppendTag(number, wireType)|)
  {
    VarintRoundTrip(number * 8 + wireType, rest);
  }

  lemma WrittenBytes(value: Bytes, rest: Bytes)
    requires |value| <= MAX_UINT64
    ensures TakeBytes(AppendBytes(value) + rest) == Taken(value, |AppendBytes(value)|)
  {
    var size := AppendVarint(|value|);
    SumOfThree(size, value, rest);
    VarintRoundTrip(|value|, value + rest);
    assert (size + (value + rest))[|size|..|size| + |value|] == value;
  }

  /** The value of a written field is taken exactly, whatever its wire type and whatever follows. */
  lemma {:induction false} WrittenValueIsTaken(item: Item, rest: Bytes, depth: int)
    requires Writable(item, depth)
    ensures TakeValue(item.number, WireTypeOf(item), WriteValue(item) + rest, depth) == Taken((), |WriteValue(item)|)
    decreases item
  {
    match item {
      case VarintItem(_, v) => VarintRoundTrip(v, rest);
      case Fixed32Item(_, _) =>
      case Fixed64Item(_, _) =>
      case BytesItem(_, value) => WrittenBytes(value, rest);
      case GroupItem(number, items) =>
        SumOfThree(WriteAll(items), AppendTag(number, 4), rest);
        WrittenGroupIsTaken(number, items, rest, depth);
    }
  }

  lemma {:induction false} WrittenGroupIsTaken(number: nat, items: Items, rest: Bytes, depth: int)
    requires 1 <= number <= MAX_INT32 && AllWritable(items, depth - 1)
    ensures TakeGroup(number, WriteAll(items) + (AppendTag(number, 4) + rest), depth) ==
      Taken((), |WriteAll(items)| + |AppendTag(number, 4)|)
    decreases items
  {
    var after := AppendTag(number, 4) + rest;
    if items.NoItems? {
      assert [] + after == after;
      WrittenTag(number, 4, rest);
    } else {
      var item, more := items.first, WriteAll(items.rest) + after;
      WrittenGroupIsTaken(number, items.rest, rest, depth);
      WrittenValueIsTaken(item, more, depth - 1);
      GroupGoesOn(number, item, more, depth);
      SumOfThree(WriteItem(item), WriteAll(items.rest), after);
    }
  }

  lemma GroupGoesOn(number: nat, item: Item, more: Bytes, depth: int)
    requires 1 <= item.number <= MAX_INT32
    requires TakeValue(item.number, WireTypeOf(item), WriteValue(item) + more, depth - 1) ==
      Taken((), |WriteValue(item)|)
    ensures TakeGroup(number, WriteItem(item) + more, depth) == match TakeGroup(number, more, depth)
      case Malformed => Malformed
      case Taken(_, k) => Taken((), |WriteItem(item)| + k)
  {
    var tag, value := AppendTag(item.number, WireTypeOf(item)), WriteValue(item);
    SumOfThree(tag, value, more);
    WrittenTag(item.number, WireTypeOf(item), value + more);
    var b := tag + (value + more);
    assert b[|tag|..] == value + more && b[|tag| + |value|..] == more;
  }

  /** An end tag that belongs to no open group, and the unused wire types, are malformed. */
  lemma StrayTypesAreMalformed(number: nat, wireType: nat, other: nat, rest: Bytes, depth: int)
    requires wireType == 4 || wireType == 6 || wireType == 7
    requires 1 <= other <= MAX_INT32 && other != number
    ensures TakeValue(number, wireType, rest, depth).Malformed?
    ensures TakeGroup(number, AppendTag(other, 4) + rest, depth).Malformed?
  {
    WrittenTag(other, 4, rest);
  }

  // Groups that are opened inside each other.
  function Starts(number: nat, k: nat): Bytes {
    if k == 0 then [] else AppendTag(number, 3) + Starts(number, k - 1)
  }

  /** Groups nested deeper than allowed are malformed. */
  lemma {:induction false} DeepGroupsAreMalformed(number: nat, k: nat, rest: Bytes, depth: int)
    requires 1 <= number <= MAX_INT32 && depth < k
    ensures TakeValue(number, 3, Starts(number, k) + rest, depth).Malformed?
    decreases k
  {
    if k > 0 && depth >= 0 {
      var tag, inner := AppendTag(number, 3), Starts(number, k - 1) + rest;
      SumOfThree(tag, Starts(number, k - 1), rest);
      WrittenTag(number, 3, inner);
      assert (tag + inner)[|tag|..] == inner;
      DeepGroupsAreMalformed(number, k - 1, rest, depth - 1);
    }
  }

  /** Field numbers are positive and fit an int32. */
  lemma TagNumbersAreValid(b: Bytes)
    ensures TakeTag(b).Taken? ==> 1 <= TakeTag(b).value.number <= MAX_INT32 && TakeTag(b).value.wireType < 8
  {
  }

  // ---- A byte string as a list of items, for any way of taking one item ----

  function Before<F>(front: seq<F>, rest: Option<seq<F>>): Option<seq<F>> {
    match rest case None => None case Some(items) => Some(front + items)
  }

  function Split<F>(take: Bytes -> Taken<F>, b: Bytes): Option<seq<F>>
    decreases |b|
  {
    if b == [] then Some([])
    else match take(b)
      case Malformed => None
      case Taken(item, n) => if n == 0 || n > |b| then None else Before([item], Split(take, b[n..]))
  }

  ghost predicate IgnoresRest<F(!new)>(take: Bytes -> Taken<F>) {
    forall b, rest :: take(b).Taken? ==> take(b + rest) == take(b)
  }

  /** After a well-formed string the items of the rest follow, or the whole is malformed with it. */
  lemma {:induction false} SplitAppend<F(!new)>(take: Bytes -> Taken<F>, a: Bytes, b: Bytes)
    requires IgnoresRest(take) && Split(take, a).Some?
    ensures Split(take, a + b) == Before(Split(take, a).value, Split(take, b))
    decreases |a|
  {
    if a == [] {
      assert a + b == b;
      BeforeTwice<F>([], [], Split(take, b));
    } else {
      assert take(a + b) == take(a);
      var n := take(a).length;
      assert (a + b)[n..] == a[n..] + b;
      SplitAppend(take, a[n..], b);
      BeforeTwice([take(a).value], Split(take, a[n..]).value, Split(take, b));
    }
  }

  lemma BeforeTwice<F>(a: seq<F>, b: seq<F>, rest: Option<seq<F>>)
    ensures Before(a, Before(b, rest)) == Before(a + b, rest)
    ensures Before([], rest) == rest
  {
    if rest.Some? {
      assert a + (b + rest.value) == (a + b) + rest.value;
      assert [] + rest.value == rest.value;
    }
  }

  lemma SplitOne<F>(take: Bytes -> Taken<F>, b: Bytes)
    requires take(b).Taken? && take(b).length == |b| > 0
    ensures Split(take, b) == Some([take(b).value])
  {
    assert b[|b|..] == [];
    assert [take(b).value] + [] == [take(b).value];
  }
}
