/** Frames on the socket pair: one line of JSON each (SystemDnsHelper.java, client_android.go). */
module DnsFrames {
  import opened Prelude

  const MAX_FRAME: nat := 8192
  const MAX_SERVERS: nat := 32

  // ---- JSON text ----

  function Hex(n: nat): byte
    requires n < 16
  {
    if n < 10 then (48 + n) as byte else (87 + n) as byte
  }

  // A character inside a JSON string, as Android's JSONStringer writes it, in UTF-8.
  function EscapedChar(c: char): (b: Bytes)
    ensures 1 <= |b| <= 6 && LF !in b
  {
    var n := c as int;
    if n == 34 || n == 92 || n == 47 then [92, n as byte]
    else if n == 9 then [92, 116]
    else if n == 8 then [92, 98]
    else if n == 10 then [92, 110]
    else if n == 13 then [92, 114]
    else if n == 12 then [92, 102]
    else if n < 32 then [92, 117, 48, 48, Hex(n / 16), Hex(n % 16)]
    else if n < 0x80 then [n as byte]
    else if n < 0x800 then [(192 + n / 64) as byte, (128 + n % 64) as byte]
    else if n < 0x10000 then [(224 + n / 4096) as byte, (128 + n / 64 % 64) as byte, (128 + n % 64) as byte]
    else [(240 + n / 262144) as byte, (128 + n / 4096 % 64) as byte, (128 + n / 64 % 64) as byte,
      (128 + n % 64) as byte]
  }

  // Characters that take one byte in a frame.
  predicate PlainChar(c: char) {
    ' ' <= c <= '~' && c != '"' && c != '\\' && c != '/'
  }

  // A text spelled unit by unit, for any spelling of its characters.
  function Spell(unit: char -> Bytes, s: string): Bytes {
    if s == "" then [] else unit(s[0]) + Spell(unit, s[1..])
  }

  function Escaped(s: string): Bytes {
    Spell(EscapedChar, s)
  }

  function Quoted(s: string): Bytes {
    [34] + Escaped(s) + [34]
  }

  function List(servers: seq<string>): Bytes {
    if servers == [] then []
    else if |servers| == 1 then Quoted(servers[0])
    else Quoted(servers[0]) + [44] + List(servers[1..])
  }

  // {"version":1,"servers":[
  const OPEN: Bytes := [123, 34, 118, 101, 114, 115, 105, 111, 110, 34, 58, 49, 44, 34, 115, 101, 114, 118, 101, 114,
    115, 34, 58, 91]
  // ]} and a newline
  const CLOSE: Bytes := [93, 125, 10]

  function Encode(servers: seq<string>): Bytes {
    OPEN + List(servers) + CLOSE
  }

  // ---- Length ----

  // Bytes a text may take: escapes and multi-byte characters only count six times.
  function Cost(s: string): nat {
    if s == "" then 0 else (if PlainChar(s[0]) then 1 else 6) + Cost(s[1..])
  }

  lemma {:induction false} EscapedCost(s: string)
    ensures |Escaped(s)| <= Cost(s) && LF !in Escaped(s)
  {
    if s != "" {
      EscapedCost(s[1..]);
    }
  }

  // The most a server text can cost: brackets, 39 characters of address, %, 15 of scope, and the port.
  const SERVER_COST: nat := 1 + 39 + 1 + 15 * 6 + 4

  lemma {:induction false} ListLength(servers: seq<string>)
    requires forall i :: 0 <= i < |servers| ==> Cost(servers[i]) <= SERVER_COST
    ensures |List(servers)| <= 138 * |servers| && LF !in List(servers)
  {
    if servers != [] {
      EscapedCost(servers[0]);
      if |servers| > 1 {
        ListLength(servers[1..]);
      }
    }
  }

  /** A list of at most 32 such servers makes one frame. */
  lemma EncodedIsFrame(servers: seq<string>)
    requires |servers| <= MAX_SERVERS && forall i :: 0 <= i < |servers| ==> Cost(servers[i]) <= SERVER_COST
    ensures IsFrame(Encode(servers))
  {
    ListLength(servers);
    var frame := Encode(servers);
    assert frame[..|frame| - 1] == OPEN + List(servers) + [93, 125];
  }

  lemma {:induction false} CostAppend(s: string, t: string)
    ensures Cost(s + t) == Cost(s) + Cost(t)
  {
    if s == "" {
      assert s + t == t;
    } else {
      assert (s + t)[1..] == s[1..] + t;
      CostAppend(s[1..], t);
    }
  }

  lemma {:induction false} CostBounds(s: string)
    ensures Cost(s) <= 6 * |s|
    ensures (forall i :: 0 <= i < |s| ==> PlainChar(s[i])) ==> Cost(s) == |s|
  {
    if s != "" {
      CostBounds(s[1..]);
    }
  }

  // ---- A frame determines its list ----

  // The character that a unit spells.
  function CharCode(b: Bytes): int {
    if b == [] then -1
    else if b[0] == 92 then
      if |b| == 6 then Unhex(b[4]) * 16 + Unhex(b[5])
      else if |b| != 2 then -1
      else if b[1] == 116 then 9 else if b[1] == 98 then 8 else if b[1] == 110 then 10
      else if b[1] == 114 then 13 else if b[1] == 102 then 12 else b[1] as int
    else if |b| == 1 then b[0] as int
    else if |b| == 2 then (b[0] as int - 192) * 64 + (b[1] as int - 128)
    else if |b| == 3 then (b[0] as int - 224) * 4096 + (b[1] as int - 128) * 64 + (b[2] as int - 128)
    else if |b| == 4 then (b[0] as int - 240) * 262144 + (b[1] as int - 128) * 4096 + (b[2] as int - 128) * 64
      + (b[3] as int - 128)
    else -1
  }

  function Unhex(b: byte): int {
    if b < 58 then b as int - 48 else b as int - 87
  }

  // How many bytes the unit takes whose first bytes these are.
  function UnitLength(b: Bytes): nat {
    if b == [] then 0
    else if b[0] == 92 then (if |b| > 1 && b[1] == 117 then 6 else 2)
    else if b[0] < 128 then 1
    else if b[0] < 224 then 2
    else if b[0] < 240 then 3
    else 4
  }

  lemma UnitOfChar(c: char)
    ensures UnitLength(EscapedChar(c)) == |EscapedChar(c)| && EscapedChar(c)[0] != 34
  {
  }

  lemma InBase64(n: nat)
    ensures n / 64 / 64 == n / 4096 && n / 4096 / 64 == n / 262144
    ensures n == n / 4096 * 4096 + n / 64 % 64 * 64 + n % 64
    ensures n == n / 262144 * 262144 + n / 4096 % 64 * 4096 + n / 64 % 64 * 64 + n % 64
  {
    var a, b, c := n / 64, n / 64 / 64, n / 64 / 64 / 64;
    assert n == a * 64 + n % 64 && a == b * 64 + a % 64 && b == c * 64 + b % 64;
    assert n == b * 4096 + (a % 64 * 64 + n % 64);
    assert n == c * 262144 + (b % 64 * 4096 + a % 64 * 64 + n % 64);
  }

  lemma CodeOfShort(c: char)
    requires c as int < 0x80
    ensures CharCode(EscapedChar(c)) == c as int
  {
  }

  lemma CodeOfLong(c: char)
    requires c as int >= 0x80
    ensures CharCode(EscapedChar(c)) == c as int
  {
    InBase64(c as int);
  }

  lemma CodeOfChar(c: char)
    ensures CharCode(EscapedChar(c)) == c as int
  {
    if c as int < 0x80 {
      CodeOfShort(c);
    } else {
      CodeOfLong(c);
    }
  }

  lemma UnitOfLonger(b: Bytes, more: Bytes)
    requires UnitLength(b) == |b| > 0
    ensures UnitLength(b + more) == |b|
  {
  }

  // No unit begins another, and none begins with the quote.
  ghost predicate PrefixFree(unit: char -> Bytes) {
    && (forall c, d, u, v :: unit(c) + u == unit(d) + v ==> c == d && u == v)
    && (forall c :: unit(c) != [] && unit(c)[0] != 34)
  }

  lemma EscapesArePrefixFree()
    ensures PrefixFree(EscapedChar)
  {
    forall c, d, u, v | EscapedChar(c) + u == EscapedChar(d) + v ensures c == d && u == v {
      UnitsAgree(c, d, EscapedChar(c), EscapedChar(d), u, v);
    }
    forall c ensures EscapedChar(c) != [] && EscapedChar(c)[0] != 34 {
      UnitOfChar(c);
    }
  }

  lemma UnitsAgree(c: char, d: char, x: Bytes, y: Bytes, u: Bytes, v: Bytes)
    requires x == EscapedChar(c) && y == EscapedChar(d) && x + u == y + v
    ensures c == d && u == v
  {
    UnitOfChar(c);
    UnitOfChar(d);
    SameUnit(x, y, u, v);
    CodeOfChar(c);
    CodeOfChar(d);
  }

  lemma SameUnit(x: Bytes, y: Bytes, u: Bytes, v: Bytes)
    requires UnitLength(x) == |x| > 0 && UnitLength(y) == |y| > 0 && x + u == y + v
    ensures x == y && u == v
  {
    UnitOfLonger(x, u);
    UnitOfLonger(y, v);
    assert (x + u)[..|x|] == x && (y + v)[..|y|] == y;
    assert (x + u)[|x|..] == u && (y + v)[|y|..] == v;
  }

  // A quote ends the text, and nothing else does.
  lemma {:induction false} SpellIsDetermined(unit: char -> Bytes, s: string, t: string, x: Bytes, y: Bytes)
    requires PrefixFree(unit)
    requires Spell(unit, s) + [34] + x == Spell(unit, t) + [34] + y
    ensures s == t && x == y
  {
    var b := Spell(unit, s) + [34] + x;
    assert b[0] == if s == "" then 34 else unit(s[0])[0];
    assert b[0] == (Spell(unit, t) + [34] + y)[0] == if t == "" then 34 else unit(t[0])[0];
    if s == "" && t == "" {
      assert b[1..] == x && (Spell(unit, t) + [34] + y)[1..] == y;
    } else if s != "" && t != "" {
      var u, v := Spell(unit, s[1..]) + [34] + x, Spell(unit, t[1..]) + [34] + y;
      assert b == unit(s[0]) + u && b == unit(t[0]) + v;
      SpellIsDetermined(unit, s[1..], t[1..], x, y);
      assert s == [s[0]] + s[1..] && t == [t[0]] + t[1..];
    }
  }

  // A quoted text and what follows it are determined by their bytes.
  lemma QuotedIsDetermined(s: string, t: string, x: Bytes, y: Bytes)
    requires Quoted(s) + x == Quoted(t) + y
    ensures s == t && x == y
  {
    var u, v := Escaped(s) + [34] + x, Escaped(t) + [34] + y;
    assert Quoted(s) + x == [34] + u && Quoted(t) + y == [34] + v;
    assert ([34] + u)[1..] == u && ([34] + v)[1..] == v;
    EscapesArePrefixFree();
    SpellIsDetermined(EscapedChar, s, t, x, y);
  }

  lemma {:induction false} ListIsDetermined(a: seq<string>, b: seq<string>)
    requires List(a) + CLOSE == List(b) + CLOSE
    ensures a == b
  {
    FirstBytes(a);
    FirstBytes(b);
    if a != [] && b != [] {
      QuotedIsDetermined(a[0], b[0], ListTail(a), ListTail(b));
      if |a| > 1 && |b| > 1 {
        ListIsDetermined(a[1..], b[1..]);
      }
      assert a == [a[0]] + a[1..] && b == [b[0]] + b[1..];
    }
  }

  lemma FirstBytes(servers: seq<string>)
    ensures (List(servers) + CLOSE)[0] == if servers == [] then 93 else 34
    ensures servers != [] ==> ListTail(servers)[0] == if |servers| == 1 then 93 else 44
    ensures |servers| > 1 ==> ListTail(servers)[1..] == List(servers[1..]) + CLOSE
  {
    if |servers| > 1 {
      var rest := List(servers[1..]) + CLOSE;
      assert ListTail(servers) == [44] + rest && ([44] + rest)[1..] == rest;
    }
  }

  // What follows the first text.
  function ListTail(servers: seq<string>): (tail: Bytes)
    requires servers != []
    ensures Quoted(servers[0]) + tail == List(servers) + CLOSE
  {
    if |servers| == 1 then CLOSE else
      var tail := [44] + (List(servers[1..]) + CLOSE);
      assert Quoted(servers[0]) + tail == List(servers) + CLOSE;
      tail
  }

  /** Two lists with the same frame are the same list, so comparing frames compares lists. */
  lemma FrameDeterminesList(a: seq<string>, b: seq<string>)
    requires Encode(a) == Encode(b)
    ensures a == b
  {
    var x, y := List(a) + CLOSE, List(b) + CLOSE;
    assert Encode(a) == OPEN + x && Encode(b) == OPEN + y;
    assert (OPEN + x)[|OPEN|..] == x && (OPEN + y)[|OPEN|..] == y;
    ListIsDetermined(a, b);
  }

  // ---- Framing ----

  predicate IsFrame(frame: Bytes) {
    frame != [] && frame[|frame| - 1] == LF && LF !in frame[..|frame| - 1] && |frame| <= MAX_FRAME
  }

  datatype Read = Frame(frame: Bytes, rest: Bytes) | Incomplete | TooLong

  // reader.ReadSlice('\n') on what has arrived so far, with a buffer of MAX_FRAME bytes.
  function ReadSlice(stream: Bytes): Read {
    var index := IndexOf(stream, LF);
    if index < |stream| && index < MAX_FRAME then Frame(stream[..index + 1], stream[index + 1..])
    else if |stream| >= MAX_FRAME then TooLong
    else Incomplete
  }

  function ReadFrames(stream: Bytes): seq<Bytes>
    decreases |stream|
  {
    match ReadSlice(stream)
    case Frame(frame, rest) => [frame] + ReadFrames(rest)
    case _ => []
  }

  lemma ReadOne(frame: Bytes, rest: Bytes)
    requires IsFrame(frame)
    ensures ReadSlice(frame + rest) == Frame(frame, rest)
  {
    var n := |frame| - 1;
    assert (frame + rest)[..n] == frame[..n];
    IndexOfIsFirst(frame + rest, LF, n);
    assert (frame + rest)[..n + 1] == frame && (frame + rest)[n + 1..] == rest;
  }

  /** A line that fits the limit with its newline is one frame, and without the newline it is waited for. */
  lemma FittingLineIsRead(line: Bytes, rest: Bytes)
    requires LF !in line && |line| < 8192
    ensures ReadSlice(line + [10] + rest) == Frame(line + [10], rest)
    ensures ReadSlice(line) == Incomplete
  {
    var frame := line + [10];
    assert frame[..|frame| - 1] == line;
    ReadOne(frame, rest);
    IndexOfIsFirst(line, LF, |line|);
  }

  /** A line longer than the limit ends the reading, however much of it has arrived beyond the limit. */
  lemma LongLineIsRefused(line: Bytes, rest: Bytes)
    requires LF !in line && |line| >= 8192
    ensures ReadSlice(line + rest) == TooLong && ReadFrames(line + rest) == []
  {
    var stream := line + rest;
    var index := IndexOf(stream, LF);
    assert forall i :: 0 <= i < |line| ==> stream[i] in line;
  }

  /** Splitting at newlines gives back the frames that were written, and waits for the rest of a partial one. */
  lemma {:induction false} FramesAreRecovered(frames: seq<Bytes>, partial: Bytes)
    requires forall i :: 0 <= i < |frames| ==> IsFrame(frames[i])
    requires LF !in partial && |partial| < MAX_FRAME
    ensures ReadFrames(Concat(frames) + partial) == frames
  {
    if frames == [] {
      assert Concat(frames) + partial == partial;
      IndexOfIsFirst(partial, LF, |partial|);
    } else {
      var rest := Concat(frames[1..]) + partial;
      assert frames == [frames[0]] + frames[1..];
      ConcatFirst(frames[0], frames[1..]);
      SumOfThree(frames[0], Concat(frames[1..]), partial);
      ReadOne(frames[0], rest);
      FramesAreRecovered(frames[1..], partial);
    }
  }

  // ---- A stream of lists ----

  predicate FitsFrame(servers: seq<string>) {
    |servers| <= MAX_SERVERS && forall i :: 0 <= i < |servers| ==> Cost(servers[i]) <= SERVER_COST
  }

  function EncodeAll(lists: seq<seq<string>>): seq<Bytes> {
    seq(|lists|, i requires 0 <= i < |lists| => Encode(lists[i]))
  }

  /** The bytes of the stream are enough to tell every list that was written, in order. */
  lemma StreamDeterminesLists(one: seq<seq<string>>, two: seq<seq<string>>)
    requires forall i :: 0 <= i < |one| ==> FitsFrame(one[i])
    requires forall i :: 0 <= i < |two| ==> FitsFrame(two[i])
    requires Concat(EncodeAll(one)) == Concat(EncodeAll(two))
    ensures one == two
  {
    ListsAreFramed(one);
    ListsAreFramed(two);
    assert |one| == |EncodeAll(one)| == |EncodeAll(two)| == |two|;
    forall i | 0 <= i < |one| ensures one[i] == two[i] {
      assert EncodeAll(one)[i] == EncodeAll(two)[i];
      FrameDeterminesList(one[i], two[i]);
    }
  }

  lemma ListsAreFramed(lists: seq<seq<string>>)
    requires forall i :: 0 <= i < |lists| ==> FitsFrame(lists[i])
    ensures ReadFrames(Concat(EncodeAll(lists))) == EncodeAll(lists)
  {
    forall i | 0 <= i < |lists| ensures IsFrame(EncodeAll(lists)[i]) {
      EncodedIsFrame(lists[i]);
    }
    FramesAreRecovered(EncodeAll(lists), []);
    assert Concat(EncodeAll(lists)) + [] == Concat(EncodeAll(lists));
  }
}
