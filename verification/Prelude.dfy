/** Small datatypes and sequence facts shared by every module. */
module Prelude {

  datatype Option<+T> = None | Some(value: T)

  datatype Result<+T, +E> = Ok(value: T) | Err(error: E)

  newtype byte = x: int | 0 <= x < 256

  type Bytes = seq<byte>

  const LF: byte := 10

  // The first occurrence of a byte, or the length.
  function IndexOf(p: Bytes, b: byte): (i: nat)
    ensures i <= |p| && (i < |p| ==> p[i] == b)
  {
    IndexFrom(p, b, 0)
  }

  function IndexFrom(p: Bytes, b: byte, from: nat): (i: nat)
    requires from <= |p|
    ensures from <= i <= |p| && (i < |p| ==> p[i] == b)
    decreases |p| - from
  {
    if from == |p| || p[from] == b then from else IndexFrom(p, b, from + 1)
  }

  lemma {:induction false} NothingBetween(p: Bytes, b: byte, from: nat)
    requires from <= |p|
    ensures b !in p[from..IndexFrom(p, b, from)]
    decreases |p| - from
  {
    if from < |p| && p[from] != b {
      NothingBetween(p, b, from + 1);
      assert p[from..IndexFrom(p, b, from)] == [p[from]] + p[from + 1..IndexFrom(p, b, from)];
    }
  }

  lemma NothingBefore(p: Bytes, b: byte)
    ensures b !in p[..IndexOf(p, b)]
  {
    NothingBetween(p, b, 0);
    assert p[..IndexOf(p, b)] == p[0..IndexFrom(p, b, 0)];
  }

  lemma IndexOfIsFirst(p: Bytes, b: byte, i: nat)
    requires i <= |p| && b !in p[..i] && (i < |p| ==> p[i] == b)
    ensures IndexOf(p, b) == i
  {
    NothingBefore(p, b);
    forall k | 0 <= k < i ensures p[k] != b {
      assert p[..i][k] == p[k];
    }
    forall k | 0 <= k < IndexOf(p, b) ensures p[k] != b {
      assert p[..IndexOf(p, b)][k] == p[k];
    }
  }

  lemma LastOfSum<T>(s: seq<T>, more: seq<T>)
    requires more != []
    ensures s + more == (s + more[..|more| - 1]) + [more[|more| - 1]]
  {
  }

  lemma SumOfThree<T>(a: seq<T>, b: seq<T>, c: seq<T>)
    ensures a + b + c == a + (b + c)
  {
  }

  lemma EmptyFirst<T>(a: seq<T>, b: seq<T>)
    ensures [] + a + b == a + b
  {
  }

  function Concat<T>(chunks: seq<seq<T>>): seq<T> {
    if chunks == [] then [] else Concat(chunks[..|chunks| - 1]) + chunks[|chunks| - 1]
  }

  lemma ConcatStep<T>(chunks: seq<seq<T>>, last: seq<T>)
    ensures Concat(chunks + [last]) == Concat(chunks) + last
  {
    assert (chunks + [last])[..|chunks|] == chunks;
  }

  lemma {:induction false} ConcatFirst<T>(first: seq<T>, chunks: seq<seq<T>>)
    ensures Concat([first] + chunks) == first + Concat(chunks)
  {
    if chunks == [] {
      ConcatStep([], first);
      assert [] + [first] == [first] == [first] + chunks && [] + first == first == first + [];
    } else {
      var front, last := chunks[..|chunks| - 1], chunks[|chunks| - 1];
      ConcatFirst(first, front);
      LastOfSum([first], chunks);
      ConcatStep([first] + front, last);
      SumOfThree(first, Concat(front), last);
    }
  }

  // ---- The distinct elements of a sequence, at their first places ----

  function Distinct<T(==)>(s: seq<T>): (d: seq<T>)
    ensures |d| <= |s|
  {
    if s == [] then [] else
      var d := Distinct(s[..|s| - 1]);
      if s[|s| - 1] in d then d else d + [s[|s| - 1]]
  }

  predicate NoDuplicates<T(==)>(s: seq<T>) {
    forall i, j :: 0 <= i < j < |s| ==> s[i] != s[j]
  }

  lemma {:induction false} DistinctHolds<T>(s: seq<T>, x: T)
    ensures x in Distinct(s) <==> x in s
  {
    if s != [] {
      DistinctHolds(s[..|s| - 1], x);
      assert x in s <==> x in s[..|s| - 1] || x == s[|s| - 1];
    }
  }

  lemma {:induction false} DistinctHasNoDuplicates<T>(s: seq<T>)
    ensures NoDuplicates(Distinct(s))
    ensures NoDuplicates(s) ==> Distinct(s) == s
  {
    if s != [] {
      var front := s[..|s| - 1];
      DistinctHasNoDuplicates(front);
      DistinctHolds(front, s[|s| - 1]);
      if NoDuplicates(s) {
        assert s[|s| - 1] !in front;
      }
    }
  }

  lemma {:induction false} DistinctGrows<T>(s: seq<T>, more: seq<T>)
    ensures Distinct(s) <= Distinct(s + more)
  {
    if more == [] {
      assert s + more == s;
    } else {
      var longer := s + more;
      assert longer[..|longer| - 1] == s + more[..|more| - 1];
      DistinctGrows(s, more[..|more| - 1]);
    }
  }

  // ---- Sequences split at a separator ----

  function GrowLast<T>(parts: seq<seq<T>>, x: T): seq<seq<T>>
    requires parts != []
  {
    parts[..|parts| - 1] + [parts[|parts| - 1] + [x]]
  }

  function SplitOn<T(==)>(s: seq<T>, sep: T): (parts: seq<seq<T>>)
    ensures parts != []
  {
    if s == [] then [[]] else
      var before := SplitOn(s[..|s| - 1], sep);
      if s[|s| - 1] == sep then before + [[]] else GrowLast(before, s[|s| - 1])
  }

  function JoinOn<T>(parts: seq<seq<T>>, sep: T): seq<T>
    requires parts != []
  {
    if |parts| == 1 then parts[0] else JoinOn(parts[..|parts| - 1], sep) + [sep] + parts[|parts| - 1]
  }

  predicate NoneHolds<T(==)>(parts: seq<seq<T>>, sep: T) {
    forall i :: 0 <= i < |parts| ==> sep !in parts[i]
  }

  lemma {:induction false} PartsAreFree<T>(s: seq<T>, sep: T)
    ensures NoneHolds(SplitOn(s, sep), sep)
  {
    if s != [] {
      PartsAreFree(s[..|s| - 1], sep);
    }
  }

  lemma SplitStep<T>(s: seq<T>, x: T, sep: T)
    ensures SplitOn(s + [x], sep) == if x == sep then SplitOn(s, sep) + [[]] else GrowLast(SplitOn(s, sep), x)
  {
    assert (s + [x])[..|s|] == s;
  }

  // A separator and one more part.
  lemma {:induction false} SplitOneMore<T>(s: seq<T>, part: seq<T>, sep: T)
    requires sep !in part
    ensures SplitOn(s + [sep] + part, sep) == SplitOn(s, sep) + [part]
  {
    if part == [] {
      assert s + [sep] + part == s + [sep];
      SplitStep(s, sep, sep);
    } else {
      var front, last := part[..|part| - 1], part[|part| - 1];
      SplitOneMore(s, front, sep);
      SplitStep(s + [sep] + front, last, sep);
      LastOfSum(s + [sep], part);
      ExtendLast(SplitOn(s, sep), part);
    }
  }

  lemma ExtendLast<T>(parts: seq<seq<T>>, part: seq<T>)
    requires part != []
    ensures GrowLast(parts + [part[..|part| - 1]], part[|part| - 1]) == parts + [part]
  {
    assert part[..|part| - 1] + [part[|part| - 1]] == part;
  }

  lemma {:induction false} SplitPlain<T>(s: seq<T>, sep: T)
    requires sep !in s
    ensures SplitOn(s, sep) == [s]
  {
    if s != [] {
      SplitPlain(s[..|s| - 1], sep);
      ExtendLast([], s);
    }
  }

  lemma {:induction false} SplitOfJoin<T>(parts: seq<seq<T>>, sep: T)
    requires parts != [] && NoneHolds(parts, sep)
    ensures SplitOn(JoinOn(parts, sep), sep) == parts
  {
    if |parts| == 1 {
      SplitPlain(parts[0], sep);
    } else {
      var front := parts[..|parts| - 1];
      SplitOfJoin(front, sep);
      SplitOneMore(JoinOn(front, sep), parts[|parts| - 1], sep);
    }
  }

  lemma JoinStep<T>(parts: seq<seq<T>>, part: seq<T>, sep: T)
    requires parts != []
    ensures JoinOn(parts + [part], sep) == JoinOn(parts, sep) + [sep] + part
  {
    assert (parts + [part])[..|parts|] == parts;
  }

  lemma JoinExtended<T>(parts: seq<seq<T>>, x: T, sep: T)
    requires parts != []
    ensures JoinOn(GrowLast(parts, x), sep) == JoinOn(parts, sep) + [x]
  {
    var front, last := parts[..|parts| - 1], parts[|parts| - 1];
    if front != [] {
      JoinStep(front, last + [x], sep);
    }
  }

  lemma {:induction false} JoinOfSplit<T>(s: seq<T>, sep: T)
    ensures JoinOn(SplitOn(s, sep), sep) == s
  {
    if s != [] {
      var front, last := s[..|s| - 1], s[|s| - 1];
      JoinOfSplit(front, sep);
      if last == sep {
        JoinStep(SplitOn(front, sep), [], sep);
      } else {
        JoinExtended(SplitOn(front, sep), last, sep);
      }
    }
  }

  // The parts of two sequences put together: the last of one meets the first of the other.
  function Glue<T>(p: seq<seq<T>>, q: seq<seq<T>>): seq<seq<T>>
    requires p != [] && q != []
  {
    p[..|p| - 1] + [p[|p| - 1] + q[0]] + q[1..]
  }

  lemma GlueExtended<T>(p: seq<seq<T>>, q: seq<seq<T>>, x: T)
    requires p != [] && q != []
    ensures Glue(p, GrowLast(q, x)) == GrowLast(Glue(p, q), x)
  {
    if |q| == 1 {
      assert p[|p| - 1] + (q[0] + [x]) == (p[|p| - 1] + q[0]) + [x];
    }
  }

  lemma GlueMore<T>(p: seq<seq<T>>, q: seq<seq<T>>)
    requires p != [] && q != []
    ensures Glue(p, q + [[]]) == Glue(p, q) + [[]]
  {
  }

  lemma {:induction false} SplitOfSum<T>(a: seq<T>, b: seq<T>, sep: T)
    ensures SplitOn(a + b, sep) == Glue(SplitOn(a, sep), SplitOn(b, sep))
  {
    if b == [] {
      var p := SplitOn(a, sep);
      assert a + b == a && SplitOn(b, sep) == [[]] && p[|p| - 1] + [] == p[|p| - 1];
    } else {
      var front, last := b[..|b| - 1], b[|b| - 1];
      SplitOfSum(a, front, sep);
      LastOfSum(a, b);
      SplitStep(a + front, last, sep);
      if last == sep {
        GlueMore(SplitOn(a, sep), SplitOn(front, sep));
      } else {
        GlueExtended(SplitOn(a, sep), SplitOn(front, sep), last);
      }
    }
  }

  // ---- Decimal numerals ----

  predicate IsDigit(c: char) {
    '0' <= c <= '9'
  }

  predicate IsDigits(s: string) {
    s != "" && forall i :: 0 <= i < |s| ==> IsDigit(s[i])
  }

  // No leading zero.
  predicate IsNumeral(s: string) {
    IsDigits(s) && (|s| > 1 ==> s[0] != '0')
  }

  function Decimal(n: nat): (s: string)
    ensures IsDigits(s)
  {
    if n < 10 then [('0' as int + n) as char] else Decimal(n / 10) + [('0' as int + n % 10) as char]
  }

  function Value(s: string): nat
    requires forall i :: 0 <= i < |s| ==> IsDigit(s[i])
  {
    if s == "" then 0 else
      assert IsDigit(s[|s| - 1]);
      Value(s[..|s| - 1]) * 10 + (s[|s| - 1] as int - '0' as int)
  }

  lemma {:induction false} ValueOfDecimal(n: nat)
    ensures Value(Decimal(n)) == n && IsNumeral(Decimal(n)) && (n > 0 ==> Decimal(n)[0] != '0')
  {
    if n >= 10 {
      ValueOfDecimal(n / 10);
      assert Decimal(n)[..|Decimal(n)| - 1] == Decimal(n / 10);
    }
  }

  lemma DecimalOfOneMore(n: nat, digit: char)
    requires n > 0 && IsDigit(digit)
    ensures Decimal(n * 10 + (digit as int - '0' as int)) == Decimal(n) + [digit]
  {
    var d := digit as int - '0' as int;
    assert (n * 10 + d) / 10 == n && (n * 10 + d) % 10 == d;
  }

  lemma {:induction false} DecimalOfValue(s: string)
    requires IsNumeral(s)
    ensures Decimal(Value(s)) == s
    ensures s[0] != '0' ==> Value(s) > 0
  {
    if |s| == 1 {
      assert s[..0] == "";
    } else {
      var front := s[..|s| - 1];
      DecimalOfValue(front);
      assert IsDigit(s[|s| - 1]);
      DecimalOfOneMore(Value(front), s[|s| - 1]);
    }
  }
}
