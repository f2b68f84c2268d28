/** Plugin output turned into log entries (`lineWriter` in host.go). */
module PluginOutput {
  import opened Prelude

  const MAX_LINE: nat := 4096
  const CR: byte := 13

  function TrimCR(line: Bytes): Bytes {
    if line != [] && line[|line| - 1] == CR then line[..|line| - 1] else line
  }

  // What one finished line adds to the log.
  function Entry(line: Bytes): seq<Bytes> {
    var trimmed := TrimCR(line);
    var kept := if |trimmed| > MAX_LINE then trimmed[..MAX_LINE] else trimmed;
    if kept == [] then [] else [kept]
  }

  /** What a line adds: one carriage return at its end goes, the rest is cut at 4096 bytes, and nothing is left out. */
  lemma EntryOfLine(text: Bytes)
    ensures var kept := if |text| > 4096 then text[..4096] else text;
      && (text != [] ==> Entry(text + [13]) == [kept])
      && (text != [] && text[|text| - 1] != 13 ==> Entry(text) == [kept])
    ensures Entry([]) == [] && Entry([13]) == []
    ensures TrimCR(text + [13]) == text
    ensures text == [] || text[|text| - 1] != 13 ==> TrimCR(text) == text
  {
    assert (text + [13])[..|text|] == text;
  }

  // The state of a writer: the bytes held back and the entries logged.
  datatype Sink = Sink(buffer: Bytes, log: seq<Bytes>)

  // How a finished line becomes log entries; `Entry` here.
  type Logger = Bytes -> seq<Bytes>

  class LineWriter {
    var buffer: Bytes
    // The calls of logger.Info, without the constant prefix of the plugin.
    var log: seq<Bytes>

    function View(): Sink
      reads this
    {
      Sink(buffer, log)
    }

    constructor ()
      ensures buffer == [] && log == []
    {
      buffer, log := [], [];
    }

    method Emit()
      modifies this
      ensures buffer == [] && log == old(log) + Entry(old(buffer))
    {
      var line := buffer;
      if line != [] && line[|line| - 1] == CR {
        line := line[..|line| - 1];
      }
      if |line| > MAX_LINE {
        line := line[..MAX_LINE];
      }
      if |line| > 0 {
        log := log + [line];
      }
      buffer := [];
    }

    method Flush()
      modifies this
      ensures buffer == [] && log == old(log) + Entry(old(buffer))
    {
      Emit();
    }

    method Write(chunk: Bytes) returns (written: nat)
      modifies this
      ensures written == |chunk|
      ensures View() == AfterWrite(Entry, old(View()), chunk)
    {
      written := |chunk|;
      var p := chunk;
      while true
        invariant AfterWrite(Entry, View(), p) == AfterWrite(Entry, old(View()), chunk)
        decreases |p|
      {
        var index := IndexOf(p, LF);
        if index == |p| {
          break;
        }
        buffer := buffer + p[..index];
        Emit();
        p := p[index + 1..];
      }
      buffer := buffer + p;
      if |buffer| >= MAX_LINE {
        Emit();
      }
    }

    /**
     Any split of a stream whose lines fit is logged line by line, without one trailing
     CR each and without empties.
     */
    method WriteAll(chunks: seq<Bytes>)
      requires buffer == [] && log == []
      modifies this
      ensures AllFit(Concat(chunks)) ==> log == TrimmedLines(LinesOf(Concat(chunks)))
      ensures Bounded(log)
    {
      for i := 0 to |chunks|
        invariant View() == AfterWrites(Entry, chunks[..i])
      {
        WritesStep(Entry, chunks, i);
        var _ := Write(chunks[i]);
      }
      assert chunks[..|chunks|] == chunks;
      if AllFit(Concat(chunks)) {
        FittingStreamIsLogged(chunks);
        FittingLinesAreTrimmed(LinesOf(Concat(chunks)));
      }
      EntryIsBounded();
      WritesAreBounded(Entry, chunks);
      EmitKeepsBounds(Entry, View());
      Flush();
    }
  }

  // ---- What a write does to buffer and log ----

  function Emitted(entry: Logger, w: Sink): Sink {
    Sink([], w.log + entry(w.buffer))
  }

  function AfterWrite(entry: Logger, w: Sink, chunk: Bytes): Sink
    decreases |chunk|
  {
    var index := IndexOf(chunk, LF);
    if index < |chunk| then AfterWrite(entry, Emitted(entry, Sink(w.buffer + chunk[..index], w.log)),
      chunk[index + 1..])
    else AfterPlain(entry, w, chunk)
  }

  // The end of a write, which holds no newline.
  function AfterPlain(entry: Logger, w: Sink, chunk: Bytes): Sink {
    var held := Sink(w.buffer + chunk, w.log);
    if |held.buffer| >= MAX_LINE then Emitted(entry, held) else held
  }

  function AfterWrites(entry: Logger, chunks: seq<Bytes>): Sink {
    if chunks == [] then Sink([], []) else AfterWrite(entry, AfterWrites(entry, chunks[..|chunks| - 1]),
      chunks[|chunks| - 1])
  }

  lemma WritesStep(entry: Logger, chunks: seq<Bytes>, i: nat)
    requires i < |chunks|
    ensures AfterWrites(entry, chunks[..i + 1]) == AfterWrite(entry, AfterWrites(entry, chunks[..i]), chunks[i])
  {
    assert chunks[..i + 1][..i] == chunks[..i];
  }

  predicate Bounded(log: seq<Bytes>) {
    forall text :: text in log ==> 1 <= |text| <= MAX_LINE
  }

  // What holds between writes.
  predicate Within(w: Sink) {
    |w.buffer| < MAX_LINE && Bounded(w.log)
  }

  ghost predicate LogsBounded(entry: Logger) {
    forall line :: Bounded(entry(line))
  }

  lemma EntryIsBounded()
    ensures LogsBounded(Entry)
  {
  }

  lemma EmitKeepsBounds(entry: Logger, w: Sink)
    requires LogsBounded(entry) && Bounded(w.log)
    ensures Emitted(entry, w).buffer == [] && Bounded(Emitted(entry, w).log)
  {
  }

  lemma PlainKeepsBounds(entry: Logger, w: Sink, chunk: Bytes)
    requires LogsBounded(entry) && Bounded(w.log)
    ensures Within(AfterPlain(entry, w, chunk))
  {
    EmitKeepsBounds(entry, Sink(w.buffer + chunk, w.log));
  }

  /** For all inputs: the buffer stays below the limit and every entry has 1 to MAX_LINE bytes. */
  lemma {:induction false} WriteKeepsBounds(entry: Logger, w: Sink, chunk: Bytes)
    requires LogsBounded(entry) && Bounded(w.log)
    ensures Within(AfterWrite(entry, w, chunk))
    decreases |chunk|
  {
    var index := IndexOf(chunk, LF);
    if index < |chunk| {
      var line := Sink(w.buffer + chunk[..index], w.log);
      EmitKeepsBounds(entry, line);
      WriteKeepsBounds(entry, Emitted(entry, line), chunk[index + 1..]);
    } else {
      PlainKeepsBounds(entry, w, chunk);
    }
  }

  lemma {:induction false} WritesAreBounded(entry: Logger, chunks: seq<Bytes>)
    requires LogsBounded(entry)
    ensures Within(AfterWrites(entry, chunks))
  {
    if chunks != [] {
      WritesAreBounded(entry, chunks[..|chunks| - 1]);
      WriteKeepsBounds(entry, AfterWrites(entry, chunks[..|chunks| - 1]), chunks[|chunks| - 1]);
    }
  }

  // ---- The reference: a stream split at its newlines ----

  // The finished lines of a stream and its unfinished last one.
  function LinesOf(stream: Bytes): (lines: seq<Bytes>)
    ensures lines != []
  {
    SplitOn(stream, LF)
  }

  function Entries(entry: Logger, lines: seq<Bytes>): seq<Bytes> {
    if lines == [] then [] else Entries(entry, lines[..|lines| - 1]) + entry(lines[|lines| - 1])
  }

  function TrimmedLines(lines: seq<Bytes>): seq<Bytes> {
    if lines == [] then [] else
      var last := TrimCR(lines[|lines| - 1]);
      TrimmedLines(lines[..|lines| - 1]) + if last == [] then [] else [last]
  }

  lemma EntriesStep(entry: Logger, lines: seq<Bytes>, line: Bytes)
    ensures Entries(entry, lines + [line]) == Entries(entry, lines) + entry(line)
  {
    assert (lines + [line])[..|lines|] == lines;
  }

  lemma {:induction false} EntriesOfSum(entry: Logger, one: seq<Bytes>, two: seq<Bytes>)
    ensures Entries(entry, one + two) == Entries(entry, one) + Entries(entry, two)
  {
    if two == [] {
      assert one + two == one && Entries(entry, one) + [] == Entries(entry, one);
    } else {
      var front, last := two[..|two| - 1], two[|two| - 1];
      EntriesOfSum(entry, one, front);
      LastOfSum(one, two);
      EntriesStep(entry, one + front, last);
      SumOfThree(Entries(entry, one), Entries(entry, front), entry(last));
    }
  }

  lemma EntriesOfFirst(entry: Logger, line: Bytes, lines: seq<Bytes>)
    ensures Entries(entry, [line] + lines) == entry(line) + Entries(entry, lines)
  {
    EntriesOfSum(entry, [line], lines);
    EntriesStep(entry, [], line);
    assert [] + [line] == [line] && [] + entry(line) == entry(line);
  }

  // ---- What one write does, in terms of lines ----

  // Every finished line is logged; the unfinished one is held until it is full.
  function Landed(entry: Logger, log: seq<Bytes>, lines: seq<Bytes>): Sink
    requires lines != []
  {
    var done, open := log + Entries(entry, lines[..|lines| - 1]), lines[|lines| - 1];
    if |open| >= MAX_LINE then Sink([], done + entry(open)) else Sink(open, done)
  }

  lemma LandedAfterFirst(entry: Logger, log: seq<Bytes>, line: Bytes, lines: seq<Bytes>)
    requires lines != []
    ensures Landed(entry, log, [line] + lines) == Landed(entry, log + entry(line), lines)
  {
    var all, front := [line] + lines, lines[..|lines| - 1];
    assert all[..|all| - 1] == [line] + front;
    EntriesOfFirst(entry, line, front);
    SumOfThree(log, entry(line), Entries(entry, front));
  }

  lemma LandedPlain(entry: Logger, w: Sink, piece: Bytes)
    ensures Landed(entry, w.log, [w.buffer + piece]) == AfterPlain(entry, w, piece)
  {
    assert w.log + Entries(entry, []) == w.log;
  }

  lemma LineFirst(buffer: Bytes, chunk: Bytes, index: nat)
    requires index < |chunk| && chunk[index] == LF && LF !in buffer && LF !in chunk[..index]
    ensures LinesOf(buffer + chunk) == [buffer + chunk[..index]] + LinesOf(chunk[index + 1..])
  {
    var line, rest := buffer + chunk[..index], chunk[index + 1..];
    assert buffer + chunk == (line + [LF]) + rest;
    SplitOfSum(line + [LF], rest, LF);
    SplitStep(line, LF, LF);
    SplitPlain(line, LF);
    var lines := LinesOf(rest);
    assert [] + lines[0] == lines[0] && [lines[0]] + lines[1..] == lines;
    assert Glue([line, []], lines) == [line] + ([[] + lines[0]] + lines[1..]);
  }

  /** For all inputs: a write logs the lines it finishes, and the unfinished one when it fills the buffer. */
  lemma {:induction false} WriteInLines(entry: Logger, w: Sink, chunk: Bytes)
    requires LF !in w.buffer
    ensures AfterWrite(entry, w, chunk) == Landed(entry, w.log, LinesOf(w.buffer + chunk))
    decreases |chunk|
  {
    var index := IndexOf(chunk, LF);
    NothingBefore(chunk, LF);
    if index == |chunk| {
      assert chunk[..index] == chunk;
      SplitPlain(w.buffer + chunk, LF);
      LandedPlain(entry, w, chunk);
    } else {
      var line, rest := w.buffer + chunk[..index], chunk[index + 1..];
      WriteInLines(entry, Emitted(entry, Sink(line, w.log)), rest);
      assert [] + rest == rest;
      LineFirst(w.buffer, chunk, index);
      LandedAfterFirst(entry, w.log, line, LinesOf(rest));
    }
  }

  lemma {:induction false} BufferIsOneLine(entry: Logger, chunks: seq<Bytes>)
    ensures LF !in AfterWrites(entry, chunks).buffer
  {
    if chunks != [] {
      var front, last := chunks[..|chunks| - 1], chunks[|chunks| - 1];
      BufferIsOneLine(entry, front);
      var w := AfterWrites(entry, front);
      WriteInLines(entry, w, last);
      PartsAreFree(w.buffer + last, LF);
    }
  }

  // ---- When the chunks make no difference ----

  // The line is within the limit, or one CR beyond it that is the only one at its end.
  predicate Fits(line: Bytes) {
    |line| <= MAX_LINE || (|line| == MAX_LINE + 1 && line[MAX_LINE] == CR && line[MAX_LINE - 1] != CR)
  }

  predicate FittingLines(lines: seq<Bytes>) {
    forall i :: 0 <= i < |lines| ==> Fits(lines[i])
  }

  predicate AllFit(stream: Bytes) {
    FittingLines(LinesOf(stream))
  }

  // Everything logged for a stream that comes in these chunks and ends.
  function Logged(chunks: seq<Bytes>): seq<Bytes> {
    Emitted(Entry, AfterWrites(Entry, chunks)).log
  }

  // A writer, the entries before the open line, and the open line so far.
  datatype Open = Open(w: Sink, done: seq<Bytes>, open: Bytes)

  // A full open line has already been logged.
  predicate Holds(entry: Logger, o: Open) {
    if |o.open| < MAX_LINE then o.w == Sink(o.open, o.done)
    else (o.w.buffer == [] || o.w.buffer == o.open[MAX_LINE..]) && o.w.log == o.done + entry(o.open)
  }

  // Where a writer stands after part of a fitting stream: a full unfinished line has already been logged.
  predicate Caught(entry: Logger, w: Sink, lines: seq<Bytes>)
    requires lines != []
  {
    Holds(entry, Open(w, Entries(entry, lines[..|lines| - 1]), lines[|lines| - 1]))
  }

  // What follows a full line that fits is logged neither with it nor on its own.
  ghost predicate CutsAtLimit(entry: Logger) {
    entry([]) == [] &&
    forall open, buffer, piece ::
      FullAndFitting(open, buffer, piece) ==> entry(buffer + piece) == [] && entry(open + piece) == entry(open)
  }

  predicate FullAndFitting(open: Bytes, buffer: Bytes, piece: Bytes) {
    |open| >= MAX_LINE && (buffer == [] || buffer == open[MAX_LINE..]) && Fits(open + piece)
  }

  lemma EntryCuts()
    ensures CutsAtLimit(Entry)
  {
    assert Entry([]) == [];
    forall open, buffer, piece | FullAndFitting(open, buffer, piece)
      ensures Entry(buffer + piece) == [] && Entry(open + piece) == Entry(open)
    {
      FullLineEnds(open, buffer, piece);
    }
  }

  lemma FullLineEnds(open: Bytes, buffer: Bytes, piece: Bytes)
    requires FullAndFitting(open, buffer, piece)
    ensures Entry(buffer + piece) == [] && Entry(open + piece) == Entry(open)
  {
    if piece == [] {
      assert buffer + piece == buffer && open + piece == open;
    } else {
      assert (open + piece)[MAX_LINE] == piece[0] && (open + piece)[MAX_LINE - 1] == open[MAX_LINE - 1];
      assert piece == [CR] && buffer == [] && buffer + piece == piece;
      FullLineWithCR(open);
    }
  }

  lemma FullLineWithCR(open: Bytes)
    requires |open| == MAX_LINE && open[MAX_LINE - 1] != CR
    ensures Entry(open) == [open] && Entry(open + [CR]) == [open] && Entry([CR]) == []
  {
    assert (open + [CR])[..MAX_LINE] == open && [CR][..0] == [];
  }

  // A newline, or the end of the stream, logs a fitting line once, whether or not it has been logged as full.
  lemma LineEnds(entry: Logger, o: Open, piece: Bytes)
    requires CutsAtLimit(entry) && Holds(entry, o) && Fits(o.open + piece)
    ensures o.w.log + entry(o.w.buffer + piece) == o.done + entry(o.open + piece)
  {
    if |o.open| >= MAX_LINE {
      assert FullAndFitting(o.open, o.w.buffer, piece);
    }
  }

  lemma LineGrows(entry: Logger, o: Open, piece: Bytes)
    requires CutsAtLimit(entry) && Holds(entry, o) && Fits(o.open + piece)
    ensures Holds(entry, Open(AfterPlain(entry, o.w, piece), o.done, o.open + piece))
  {
    if |o.open| >= MAX_LINE {
      assert FullAndFitting(o.open, o.w.buffer, piece);
      if piece == [] {
        assert o.w.buffer + piece == o.w.buffer && o.open + piece == o.open;
      } else {
        assert o.w.buffer == [] && o.w.buffer + piece == piece == (o.open + piece)[MAX_LINE..];
      }
    }
  }

  /** A write takes the writer from where one part of a fitting stream leaves it to where the longer part does. */
  lemma CatchUp(entry: Logger, w: Sink, seen: Bytes, chunk: Bytes)
    requires CutsAtLimit(entry) && LF !in w.buffer && Caught(entry, w, LinesOf(seen)) && AllFit(seen + chunk)
    ensures Caught(entry, AfterWrite(entry, w, chunk), LinesOf(seen + chunk))
  {
    var lines, more := LinesOf(seen), LinesOf(chunk);
    var front, open := lines[..|lines| - 1], lines[|lines| - 1];
    LinesOfSum(seen, chunk);
    LinesAfterBuffer(w.buffer, chunk);
    WriteInLines(entry, w, chunk);
    MeetingLineFits(front, open + more[0], more[1..]);
    CatchUpInLines(entry, Open(w, Entries(entry, front), open), front, more[0], more[1..]);
  }

  lemma LinesOfSum(seen: Bytes, chunk: Bytes)
    ensures var lines, more := LinesOf(seen), LinesOf(chunk);
      LinesOf(seen + chunk) == lines[..|lines| - 1] + [lines[|lines| - 1] + more[0]] + more[1..]
  {
    SplitOfSum(seen, chunk, LF);
  }

  lemma LinesAfterBuffer(buffer: Bytes, chunk: Bytes)
    requires LF !in buffer
    ensures LinesOf(buffer + chunk) == [buffer + LinesOf(chunk)[0]] + LinesOf(chunk)[1..]
  {
    SplitOfSum(buffer, chunk, LF);
    SplitPlain(buffer, LF);
  }

  lemma MeetingLineFits(front: seq<Bytes>, line: Bytes, rest: seq<Bytes>)
    requires FittingLines(front + [line] + rest)
    ensures Fits(line)
  {
    assert (front + [line] + rest)[|front|] == line;
  }

  lemma CatchUpInLines(entry: Logger, o: Open, front: seq<Bytes>, piece: Bytes, rest: seq<Bytes>)
    requires CutsAtLimit(entry) && Holds(entry, o) && o.done == Entries(entry, front) && Fits(o.open + piece)
    ensures Caught(entry, Landed(entry, o.w.log, [o.w.buffer + piece] + rest), front + [o.open + piece] + rest)
  {
    var lines := front + [o.open + piece] + rest;
    if rest == [] {
      assert [o.w.buffer + piece] + rest == [o.w.buffer + piece];
      assert lines[..|lines| - 1] == front;
      LandedPlain(entry, o.w, piece);
      LineGrows(entry, o, piece);
    } else {
      LineEnds(entry, o, piece);
      EntriesStep(entry, front, o.open + piece);
      LandedAfterFirst(entry, o.w.log, o.w.buffer + piece, rest);
      LandedIsCaught(entry, front + [o.open + piece], rest);
    }
  }

  lemma LandedIsCaught(entry: Logger, done: seq<Bytes>, rest: seq<Bytes>)
    requires rest != []
    ensures Caught(entry, Landed(entry, Entries(entry, done), rest), done + rest)
  {
    var front, open := rest[..|rest| - 1], rest[|rest| - 1];
    EntriesOfSum(entry, done, front);
    FreshLineHolds(entry, Entries(entry, done) + Entries(entry, front), open);
    LastOfSum(done, rest);
    assert ((done + front) + [open])[..|done + front|] == done + front;
  }

  lemma FreshLineHolds(entry: Logger, logged: seq<Bytes>, open: Bytes)
    ensures var w := if |open| >= MAX_LINE then Sink([], logged + entry(open)) else Sink(open, logged);
      Holds(entry, Open(w, logged, open))
  {
  }

  lemma FitPrefix(seen: Bytes, more: Bytes)
    requires AllFit(seen + more)
    ensures AllFit(seen)
  {
    SplitOfSum(seen, more, LF);
    var lines, all := LinesOf(seen), LinesOf(seen + more);
    forall i | 0 <= i < |lines| ensures Fits(lines[i]) {
      assert Fits(all[i]);
      assert i < |lines| - 1 ==> all[i] == lines[i];
      assert i == |lines| - 1 ==> all[i][..|lines[i]|] == lines[i];
    }
  }

  lemma {:induction false} CatchUpAll(entry: Logger, chunks: seq<Bytes>)
    requires CutsAtLimit(entry) && AllFit(Concat(chunks))
    ensures Caught(entry, AfterWrites(entry, chunks), LinesOf(Concat(chunks)))
  {
    if chunks != [] {
      var front := chunks[..|chunks| - 1];
      FitPrefix(Concat(front), chunks[|chunks| - 1]);
      CatchUpAll(entry, front);
      BufferIsOneLine(entry, front);
      CatchUp(entry, AfterWrites(entry, front), Concat(front), chunks[|chunks| - 1]);
    }
  }

  lemma FittingStreamIsLogged(chunks: seq<Bytes>)
    requires AllFit(Concat(chunks))
    ensures Logged(chunks) == Entries(Entry, LinesOf(Concat(chunks)))
  {
    EntryCuts();
    CatchUpAll(Entry, chunks);
    var lines := LinesOf(Concat(chunks));
    assert Fits(lines[|lines| - 1]);
    FlushEnds(Entry, AfterWrites(Entry, chunks), lines);
  }

  lemma FlushEnds(entry: Logger, w: Sink, lines: seq<Bytes>)
    requires CutsAtLimit(entry) && lines != [] && Caught(entry, w, lines) && Fits(lines[|lines| - 1])
    ensures Emitted(entry, w).log == Entries(entry, lines)
  {
    var o := Open(w, Entries(entry, lines[..|lines| - 1]), lines[|lines| - 1]);
    assert o.open + [] == o.open && w.buffer + [] == w.buffer;
    LineEnds(entry, o, []);
  }

  /** Fitting lines lose one trailing CR and nothing else. */
  lemma {:induction false} FittingLinesAreTrimmed(lines: seq<Bytes>)
    requires FittingLines(lines)
    ensures Entries(Entry, lines) == TrimmedLines(lines)
  {
    if lines != [] {
      assert Fits(lines[|lines| - 1]);
      FittingLinesAreTrimmed(lines[..|lines| - 1]);
    }
  }

  // ---- When they do ----

  /** In a single write each line is logged once, and what exceeds the limit is dropped. */
  lemma LongLineInOneWrite(stream: Bytes)
    ensures Logged([stream]) == Entries(Entry, LinesOf(stream))
  {
    assert Entry([]) == [];
    OneWrite(Entry, stream);
  }

  lemma OneWrite(entry: Logger, stream: Bytes)
    requires entry([]) == []
    ensures AfterWrites(entry, [stream]) == Landed(entry, [], LinesOf(stream))
    ensures Emitted(entry, AfterWrites(entry, [stream])).log == Entries(entry, LinesOf(stream))
  {
    FewWrites(entry, stream, []);
    assert [] + stream == stream;
    WriteInLines(entry, Sink([], []), stream);
    LandedThenFlushed(entry, [], LinesOf(stream));
    assert [] + Entries(entry, LinesOf(stream)) == Entries(entry, LinesOf(stream));
  }

  lemma FewWrites(entry: Logger, one: Bytes, two: Bytes)
    ensures AfterWrites(entry, [one]) == AfterWrite(entry, Sink([], []), one)
    ensures AfterWrites(entry, [one, two]) == AfterWrite(entry, AfterWrites(entry, [one]), two)
  {
    assert [one][..0] == [] && [one, two][..1] == [one];
  }

  lemma LandedThenFlushed(entry: Logger, log: seq<Bytes>, lines: seq<Bytes>)
    requires entry([]) == [] && lines != []
    ensures Emitted(entry, Landed(entry, log, lines)).log == log + Entries(entry, lines)
  {
    var front, last := lines[..|lines| - 1], lines[|lines| - 1];
    SumOfThree(log, Entries(entry, front), entry(last));
    assert log + Entries(entry, lines) + entry([]) == log + Entries(entry, lines);
  }

  /** Two writes that meet right after the limit log the rest of the line as a further entry. */
  lemma LongLineInTwoWrites(front: seq<Bytes>, line: Bytes, tail: seq<Bytes>)
    requires |line| > MAX_LINE && NoneHolds(front + [line] + tail, LF)
    ensures var one, two := JoinOn(front + [line[..MAX_LINE]], LF), JoinOn([line[MAX_LINE..]] + tail, LF);
      && one + two == JoinOn(front + [line] + tail, LF)
      && Logged([one, two]) == Entries(Entry, front) + Entry(line[..MAX_LINE])
        + (Entry(line[MAX_LINE..]) + Entries(Entry, tail))
  {
    var before, after := front + [line[..MAX_LINE]], [line[MAX_LINE..]] + tail;
    var one, two := JoinOn(before, LF), JoinOn(after, LF);
    PartsOfLongLine(front, line, tail);
    SplitOfJoin(before, LF);
    SplitOfJoin(after, LF);
    SplitOfSum(one, two, LF);
    assert line[..MAX_LINE] + line[MAX_LINE..] == line;
    assert Glue(before, after) == front + [line] + tail;
    JoinOfSplit(one + two, LF);
    TwoWrites(Entry, one, two);
    EntriesStep(Entry, front, line[..MAX_LINE]);
    EntriesOfFirst(Entry, line[MAX_LINE..], tail);
  }

  lemma PartsOfLongLine(front: seq<Bytes>, line: Bytes, tail: seq<Bytes>)
    requires |line| > MAX_LINE && NoneHolds(front + [line] + tail, LF)
    ensures NoneHolds(front + [line[..MAX_LINE]], LF) && NoneHolds([line[MAX_LINE..]] + tail, LF)
  {
    var all := front + [line] + tail;
    assert all[|front|] == line;
    assert forall i :: 0 <= i < |front| ==> all[i] == front[i];
    assert forall i :: 0 <= i < |tail| ==> all[|front| + 1 + i] == tail[i];
  }

  // The first write ends with a full buffer.
  lemma TwoWrites(entry: Logger, one: Bytes, two: Bytes)
    requires entry([]) == [] && |LinesOf(one)[|LinesOf(one)| - 1]| >= MAX_LINE
    ensures Emitted(entry, AfterWrites(entry, [one, two])).log == Entries(entry, LinesOf(one))
      + Entries(entry, LinesOf(two))
  {
    OneWrite(entry, one);
    FewWrites(entry, one, two);
    var w := AfterWrites(entry, [one]);
    assert w.buffer == [] && w.log == Entries(entry, LinesOf(one)) by {
      assert [] + Entries(entry, LinesOf(one)) == Entries(entry, LinesOf(one));
      LandedFull(entry, LinesOf(one));
    }
    assert [] + two == two;
    WriteInLines(entry, w, two);
    LandedThenFlushed(entry, w.log, LinesOf(two));
  }

  lemma LandedFull(entry: Logger, lines: seq<Bytes>)
    requires lines != [] && |lines[|lines| - 1]| >= MAX_LINE
    ensures Landed(entry, [], lines) == Sink([], Entries(entry, lines))
  {
    assert [] + Entries(entry, lines[..|lines| - 1]) == Entries(entry, lines[..|lines| - 1]);
  }

  lemma TwoEntriesAreNotOne(line: Bytes)
    requires !Fits(line)
    ensures Entry(line[..MAX_LINE]) + Entry(line[MAX_LINE..]) != Entry(line)
  {
    var one, two := line[..MAX_LINE], line[MAX_LINE..];
    assert |Entry(line)| == 1 && |Entry(one)| == 1;
    if |line| == MAX_LINE + 1 && line[MAX_LINE] == CR {
      assert Entry(two) == [] && Entry(one) + [] == Entry(one);
      assert one[MAX_LINE - 1] == CR && |Entry(one)[0]| == MAX_LINE - 1;
      assert |Entry(line)[0]| == MAX_LINE;
    } else {
      assert |Entry(two)| == 1;
    }
  }

  lemma SameAroundIt<T>(front: seq<T>, x: seq<T>, y: seq<T>, tail: seq<T>)
    requires front + x + tail == front + y + tail
    ensures x == y
  {
    assert |x| == |y|;
    assert (front + x + tail)[|front|..|front| + |x|] == x && (front + y + tail)[|front|..|front| + |y|] == y;
  }

  // Cutting the stream inside a line that does not fit changes the log.
  lemma SomeSplitDiffers(stream: Bytes, i: nat) returns (chunks: seq<Bytes>)
    requires i < |LinesOf(stream)| && !Fits(LinesOf(stream)[i])
    ensures Concat(chunks) == stream && Logged(chunks) != Logged([stream])
  {
    var lines := LinesOf(stream);
    var front, line, tail := lines[..i], lines[i], lines[i + 1..];
    assert lines == front + [line] + tail;
    PartsAreFree(stream, LF);
    LongLineInTwoWrites(front, line, tail);
    JoinOfSplit(stream, LF);
    var one, two := JoinOn(front + [line[..MAX_LINE]], LF), JoinOn([line[MAX_LINE..]] + tail, LF);
    chunks := [one, two];
    ConcatTwo(one, two);
    LongLineInOneWrite(stream);
    EntriesOfSum(Entry, front + [line], tail);
    EntriesStep(Entry, front, line);
    TwoEntriesAreNotOne(line);
    LogsDiffer(Entries(Entry, front), Entry(line[..MAX_LINE]), Entry(line[MAX_LINE..]), Entry(line),
      Entries(Entry, tail));
  }

  lemma LogsDiffer(front: seq<Bytes>, one: seq<Bytes>, two: seq<Bytes>, whole: seq<Bytes>, tail: seq<Bytes>)
    requires one + two != whole
    ensures front + one + (two + tail) != front + whole + tail
  {
    if front + one + (two + tail) == front + whole + tail {
      assert front + (one + two) + tail == front + one + (two + tail);
      SameAroundIt(front, one + two, whole, tail);
    }
  }

  lemma ConcatTwo(one: Bytes, two: Bytes)
    ensures Concat([one, two]) == one + two
  {
    assert [one, two][..1] == [one] && [one][..0] == [];
    assert Concat([one]) == [] + one == one;
  }

  ghost predicate SameForAllSplits(stream: Bytes) {
    forall chunks :: Concat(chunks) == stream ==> Logged(chunks) == Logged([stream])
  }

  /** The chunks make no difference to the log exactly when every line of the stream fits. */
  lemma ChunksDoNotMatter(stream: Bytes)
    ensures SameForAllSplits(stream) <==> AllFit(stream)
    ensures AllFit(stream) ==> Logged([stream]) == TrimmedLines(LinesOf(stream))
  {
    LongLineInOneWrite(stream);
    if AllFit(stream) {
      FittingLinesAreTrimmed(LinesOf(stream));
      forall chunks | Concat(chunks) == stream ensures Logged(chunks) == Logged([stream]) {
        FittingStreamIsLogged(chunks);
      }
    } else {
      var i :| 0 <= i < |LinesOf(stream)| && !Fits(LinesOf(stream)[i]);
      var chunks := SomeSplitDiffers(stream, i);
      assert Concat(chunks) == stream;
    }
  }
}
