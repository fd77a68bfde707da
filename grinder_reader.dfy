/** The reader of Grinder's KPI data log (`DataLogReader`, bzt/modules/grinder.py).

    The log is a comma-separated text file written by the Grinder process while
    the test runs. Its first line names the columns; every later line is one
    test execution. The reader opens the file once it exists and is non-empty,
    maps the header's column names to positions, and on every call reads the
    text appended since the previous call, carrying an unterminated last line
    over to the next call. */
module GrinderReader {
  import opened Wrappers
  import opened PyStr

  const Delimiter: char := ','

  const StartTimeColumn: string := "Start time (ms since Epoch)"
  const TestTimeColumn: string := "Test time"
  const FirstByteColumn: string := "Time to first byte"
  const ResponseCodeColumn: string := "HTTP response code"
  const ResolveHostColumn: string := "Time to resolve host"
  const ConnectColumn: string := "Time to establish connection"
  const ErrorsColumn: string := "Errors"

  const ErrorMessage: string := "There were some errors in Grinder test"

  /** One sample, in the order of the tuple the reader yields. Durations are
      kept in integer milliseconds; the reader reports them as seconds
      (the value divided by 1000.0). The timestamp is in whole seconds. */
  datatype Sample = Sample(
    timestamp: int,
    requestLabel: string,
    concurrency: Option<int>,
    responseTimeMs: int,
    connectTimeMs: int,
    latencyMs: int,
    responseCode: string,
    error: Option<string>)

  /** The Python exceptions a data line can raise while it is parsed. */
  datatype ReadError =
    | IndexError              // a field position past the end of the line
    | KeyError(key: string)   // a column the header does not name
    | ValueError(text: string) // a field `int()` cannot read

  datatype LineResult = Skipped | Emitted(sample: Sample) | Failed(error: ReadError)

  /** The fields of a complete line: stripped, then split on commas. */
  function Fields(raw: string): (fields: seq<string>)
    ensures |fields| >= 1
  {
    Split(Strip(raw), Delimiter)
  }

  /** `fields[idx[name]]`, with the two ways that lookup can raise. */
  function Column(idx: map<string, nat>, fields: seq<string>, name: string): Result<string, ReadError> {
    if name !in idx then Failure(KeyError(name))
    else if idx[name] >= |fields| then Failure(IndexError)
    else Success(fields[idx[name]])
  }

  /** `int(fields[idx[name]])`. */
  function IntColumn(idx: map<string, nat>, fields: seq<string>, name: string): Result<int, ReadError> {
    var text :- Column(idx, fields, name);
    match ParseInt(text)
    case Some(n) => Success(n)
    case None => Failure(ValueError(text))
  }

  /** The sample of an accepted line, columns read in the source's order. */
  function SampleOf(idx: map<string, nat>, fields: seq<string>): (r: Result<Sample, ReadError>)
    ensures r.Success? ==> r.value.requestLabel == "" && r.value.concurrency == None
    ensures r.Success? && r.value.error.Some? ==> r.value.error.value == ErrorMessage
  {
    var startMs :- IntColumn(idx, fields, StartTimeColumn);
    var testMs :- IntColumn(idx, fields, TestTimeColumn);
    var firstByteMs :- IntColumn(idx, fields, FirstByteColumn);
    var code :- Column(idx, fields, ResponseCodeColumn);
    var resolveMs :- IntColumn(idx, fields, ResolveHostColumn);
    var connectMs :- IntColumn(idx, fields, ConnectColumn);
    var errors :- IntColumn(idx, fields, ErrorsColumn);
    Success(Sample(
      TruncDiv(startMs, 1000), "", None, testMs, resolveMs + connectMs, firstByteMs,
      Strip(code), if errors != 0 then Some(ErrorMessage) else None))
  }

  /** One complete line (the carried-over fragment already in front of it).
      Validity is judged on the second field by position, whatever the header
      says; a line without a second field raises. */
  function ParseLine(idx: map<string, nat>, raw: string): (r: LineResult)
    ensures |Fields(raw)| < 2 ==> r == Failed(IndexError)
    ensures r.Emitted? ==> r.sample.requestLabel == "" && r.sample.concurrency == None
    ensures r.Emitted? && r.sample.error.Some? ==> r.sample.error.value == ErrorMessage
  {
    var fields := Fields(raw);
    if |fields| < 2 then Failed(IndexError)
    else if !IsDigits(Strip(fields[1])) then Skipped
    else
      match SampleOf(idx, fields)
      case Success(s) => Emitted(s)
      case Failure(e) => Failed(e)
  }

  /** The integer columns, and the value `int()` reads from each. */
  ghost predicate IntReadable(idx: map<string, nat>, fields: seq<string>, name: string) {
    name in idx && idx[name] < |fields| && ParseInt(fields[idx[name]]).Some?
  }

  ghost function IntAt(idx: map<string, nat>, fields: seq<string>, name: string): int
    requires IntReadable(idx, fields, name)
  {
    ParseInt(fields[idx[name]]).value
  }

  /** Every column the reader looks up is named by the header, lies within
      the line, and (except the response code) holds an integer. */
  ghost predicate ColumnsReadable(idx: map<string, nat>, fields: seq<string>) {
    && IntReadable(idx, fields, StartTimeColumn)
    && IntReadable(idx, fields, TestTimeColumn)
    && IntReadable(idx, fields, FirstByteColumn)
    && ResponseCodeColumn in idx && idx[ResponseCodeColumn] < |fields|
    && IntReadable(idx, fields, ResolveHostColumn)
    && IntReadable(idx, fields, ConnectColumn)
    && IntReadable(idx, fields, ErrorsColumn)
  }

  /** A line is skipped exactly when its second field, stripped, is not a
      run of digits; it never raises in that case. */
  lemma ParseLineSkips(idx: map<string, nat>, raw: string)
    ensures ParseLine(idx, raw).Skipped? <==>
              |Fields(raw)| >= 2 && !IsDigits(Strip(Fields(raw)[1]))
  {
  }

  /** A line yields a sample exactly when it is not skipped and every column
      can be read; the sample then carries the start time in whole seconds
      (truncated), the test time, the time to first byte, the sum of the
      resolve and connect times, the stripped response code, and the fixed
      error message exactly when the error count is not zero. */
  lemma ParseLineEmits(idx: map<string, nat>, raw: string)
    ensures ParseLine(idx, raw).Emitted? <==>
              && |Fields(raw)| >= 2 && IsDigits(Strip(Fields(raw)[1]))
              && ColumnsReadable(idx, Fields(raw))
    ensures ParseLine(idx, raw).Emitted? ==>
              var f := Fields(raw);
              var s := ParseLine(idx, raw).sample;
              && s.timestamp == TruncDiv(IntAt(idx, f, StartTimeColumn), 1000)
              && s.responseTimeMs == IntAt(idx, f, TestTimeColumn)
              && s.latencyMs == IntAt(idx, f, FirstByteColumn)
              && s.connectTimeMs == IntAt(idx, f, ResolveHostColumn) + IntAt(idx, f, ConnectColumn)
              && s.responseCode == Strip(f[idx[ResponseCodeColumn]])
              && (s.error.Some? <==> IntAt(idx, f, ErrorsColumn) != 0)
  {
  }

  /** What one batch of lines produced: the samples, the fragment carried to
      the next batch, and the exception that ended the batch, if any. */
  datatype Batch = Batch(records: seq<Sample>, buffer: string, error: Option<ReadError>)

  /** How the reader turns one complete line into a result. */
  type LineParser = string -> LineResult

  /** The reader's line parser once the header has given it `idx`. */
  function LineParserFor(idx: map<string, nat>): LineParser {
    raw => ParseLine(idx, raw)
  }

  /** The loop over one `readlines()` batch, starting from fragment `buffer`:
      an unterminated line is appended to the fragment; a terminated one is
      parsed with the fragment in front of it, and the fragment emptied. */
  function ParseLines(parse: LineParser, buffer: string, lines: seq<string>): (b: Batch)
    ensures b.error.Some? ==> b.buffer == []
    ensures |b.records| <= |lines|
    decreases |lines|
  {
    if lines == [] then Batch([], buffer, None)
    else if !EndsWithNewline(lines[0]) then ParseLines(parse, buffer + lines[0], lines[1..])
    else
      match parse(buffer + lines[0])
      case Failed(e) => Batch([], [], Some(e))
      case Skipped => ParseLines(parse, [], lines[1..])
      case Emitted(s) =>
        var rest := ParseLines(parse, [], lines[1..]);
        Batch([s] + rest.records, rest.buffer, rest.error)
  }

  /** Carrying on with more lines after a batch that did not raise. */
  function Resume(parse: LineParser, b: Batch, lines: seq<string>): Batch {
    if b.error.Some? then b
    else
      var r := ParseLines(parse, b.buffer, lines);
      Batch(b.records + r.records, r.buffer, r.error)
  }

  /** Parsing two runs of lines one after the other is parsing them together. */
  lemma {:induction false} ParseLinesAppend(parse: LineParser, buffer: string, l1: seq<string>, l2: seq<string>)
    ensures ParseLines(parse, buffer, l1 + l2) == Resume(parse, ParseLines(parse, buffer, l1), l2)
    decreases |l1|
  {
    if l1 == [] {
      assert l1 + l2 == l2;
      var r := ParseLines(parse, buffer, l2);
      assert [] + r.records == r.records;
    } else {
      assert (l1 + l2)[0] == l1[0];
      assert (l1 + l2)[1..] == l1[1..] + l2;
      if !EndsWithNewline(l1[0]) {
        ParseLinesAppend(parse, buffer + l1[0], l1[1..], l2);
      } else {
        match parse(buffer + l1[0])
        case Failed(e) =>
        case Skipped =>
          ParseLinesAppend(parse, [], l1[1..], l2);
        case Emitted(x) =>
          ParseLinesAppend(parse, [], l1[1..], l2);
          var r1 := ParseLines(parse, [], l1[1..]);
          if r1.error.None? {
            var r2 := ParseLines(parse, r1.buffer, l2);
            assert [x] + r1.records + r2.records == [x] + (r1.records + r2.records);
          }
      }
    }
  }

  /** An unterminated line followed by another reads as the two glued together. */
  lemma GlueFragment(parse: LineParser, buffer: string, l: string, m: string, rest: seq<string>)
    requires !EndsWithNewline(l)
    ensures ParseLines(parse, buffer, [l, m] + rest) == ParseLines(parse, buffer, [l + m] + rest)
  {
    assert ([l, m] + rest)[1..] == [m] + rest;
    assert ([m] + rest)[1..] == rest;
    assert ([l + m] + rest)[1..] == rest;
    assert buffer + l + m == buffer + (l + m);
    assert EndsWithNewline(l + m) <==> EndsWithNewline(m) by {
      if m != [] { assert (l + m)[|l + m| - 1] == m[|m| - 1]; }
    }
  }

  /** The glued case of chunk independence: the first piece ends in the
      fragment `l` and the second starts with the rest of that line, `m`. */
  lemma ParseGlued(parse: LineParser, buffer: string, a: seq<string>, l: string, m: string, b: seq<string>)
    requires !EndsWithNewline(l)
    ensures ParseLines(parse, buffer, a + ([l + m] + b)) ==
            Resume(parse, ParseLines(parse, buffer, a + [l]), [m] + b)
  {
    ParseLinesAppend(parse, buffer, a, [l + m] + b);
    ParseLinesAppend(parse, buffer, a, [l]);
    var x := ParseLines(parse, buffer, a);
    if x.error.None? {
      GlueFragment(parse, x.buffer, l, m, b);
      assert [l, m] + b == [l] + ([m] + b);
      assert ParseLines(parse, x.buffer, [l]) == Batch([], x.buffer + l, None) by {
        assert [l][1..] == [];
      }
      assert x.records + [] == x.records;
    }
  }

  /** Parsing the glued lines of two pieces of text is parsing the lines of
      the first piece and carrying on with those of the second. */
  lemma ParseGlueLines(parse: LineParser, buffer: string, a: seq<string>, b: seq<string>)
    ensures ParseLines(parse, buffer, GlueLines(a, b)) == Resume(parse, ParseLines(parse, buffer, a), b)
  {
    if a == [] || b == [] || EndsWithNewline(a[|a| - 1]) {
      ParseLinesAppend(parse, buffer, a, b);
    } else {
      var a', l := a[..|a| - 1], a[|a| - 1];
      assert a == a' + [l];
      assert b == [b[0]] + b[1..];
      assert GlueLines(a, b) == a' + ([l + b[0]] + b[1..]);
      ParseGlued(parse, buffer, a', l, b[0], b[1..]);
    }
  }

  /** Chunk independence: reading a text in two pieces yields what reading it
      in one piece yields, whatever the cut. */
  lemma ChunkSplit(parse: LineParser, buffer: string, t1: string, t2: string)
    ensures ParseLines(parse, buffer, Lines(t1 + t2)) ==
            Resume(parse, ParseLines(parse, buffer, Lines(t1)), Lines(t2))
  {
    LinesAppend(t1, t2);
    ParseGlueLines(parse, buffer, Lines(t1), Lines(t2));
  }

  /** The samples and the fragment left are what parsing all the text read
      so far, `consumed`, with the column map `idx` gives. */
  ghost predicate Agrees(idx: map<string, nat>, consumed: string, emitted: seq<Sample>, buffer: string) {
    ParseLines(LineParserFor(idx), [], Lines(consumed)) == Batch(emitted, buffer, None)
  }

  /** What the reader keeps between calls stays a function of all the text
      read: reading `chunk` after `consumed` from the batch `consumed` left
      behind is reading `consumed + chunk` at once. */
  lemma ReadStep(idx: map<string, nat>, consumed: string, chunk: string, emitted: seq<Sample>, buffer: string)
    requires Agrees(idx, consumed, emitted, buffer)
    ensures var b := ParseLines(LineParserFor(idx), buffer, Lines(chunk));
            b.error.None? ==> Agrees(idx, consumed + chunk, emitted + b.records, b.buffer)
  {
    ChunkSplit(LineParserFor(idx), [], consumed, chunk);
  }

  /** The column map built from the header fields up to position `n`: every
      stripped name maps to its position, a later duplicate overriding. */
  function IndexUpTo(fields: seq<string>, n: nat): map<string, nat>
    requires n <= |fields|
  {
    if n == 0 then map[] else IndexUpTo(fields, n - 1)[Strip(fields[n - 1]) := n - 1]
  }

  /** The fields of the header: the log's first line, stripped and split. */
  function HeaderFields(text: string): seq<string> {
    Fields(FirstLine(text))
  }

  /** The header map names exactly the stripped header fields, and maps each
      name to the LAST position holding it. */
  lemma {:induction false} IndexUpToSpec(fields: seq<string>, n: nat, name: string)
    requires n <= |fields|
    ensures name in IndexUpTo(fields, n) <==> exists i :: 0 <= i < n && Strip(fields[i]) == name
    ensures name in IndexUpTo(fields, n) ==>
              var k := IndexUpTo(fields, n)[name];
              && k < n && Strip(fields[k]) == name
              && forall j :: k < j < n ==> Strip(fields[j]) != name
  {
    if n > 0 {
      IndexUpToSpec(fields, n - 1, name);
    }
  }

  /** The loop of `__open_fds` over the header fields: each stripped name is
      mapped to its position. */
  method BuildIndex(fields: seq<string>) returns (index: map<string, nat>)
    ensures index == IndexUpTo(fields, |fields|)
  {
    index := map[];
    var ix := 0;
    while ix < |fields|
      invariant 0 <= ix <= |fields|
      invariant index == IndexUpTo(fields, ix)
    {
      index := index[Strip(fields[ix]) := ix];
      ix := ix + 1;
    }
  }

  /** The loop of `_read` over one `readlines()` batch, starting from the
      carried-over fragment `buffer`. */
  method ParseBatch(parse: LineParser, buffer: string, lines: seq<string>)
    returns (records: seq<Sample>, rest: string, error: Option<ReadError>)
    ensures Batch(records, rest, error) == ParseLines(parse, buffer, lines)
  {
    records, rest, error := [], buffer, None;
    var i := 0;
    while i < |lines| && error.None?
      invariant 0 <= i <= |lines|
      invariant ParseLines(parse, buffer, lines) == Resume(parse, Batch(records, rest, error), lines[i..])
      decreases |lines| - i, if error.None? then 1 else 0
    {
      var line := lines[i];
      ResumeCons(parse, records, rest, lines[i..]);
      if !EndsWithNewline(line) {
        rest := rest + line;
        i := i + 1;
        continue;
      }
      line := rest + line;
      rest := [];
      match parse(line)
      case Failed(e) =>
        error := Some(e);
      case Skipped =>
        i := i + 1;
      case Emitted(s) =>
        records := records + [s];
        i := i + 1;
    }
    if error.None? {
      assert Resume(parse, Batch(records, rest, error), []) == Batch(records + [], rest, None);
      assert records + [] == records;
    }
  }

  /** One step of the batch loop: carrying on from a batch that has not raised
      with the first of the remaining lines. */
  lemma ResumeCons(parse: LineParser, records: seq<Sample>, rest: string, lines: seq<string>)
    requires lines != []
    ensures var line, more := lines[0], lines[1..];
            Resume(parse, Batch(records, rest, None), lines) ==
            if !EndsWithNewline(line) then Resume(parse, Batch(records, rest + line, None), more)
            else match parse(rest + line)
              case Failed(e) => Batch(records, [], Some(e))
              case Skipped => Resume(parse, Batch(records, [], None), more)
              case Emitted(s) => Resume(parse, Batch(records + [s], [], None), more)
  {
    var line, more := lines[0], lines[1..];
    if EndsWithNewline(line) {
      match parse(rest + line)
      case Failed(e) =>
        assert records + [] == records;
      case Skipped =>
      case Emitted(s) =>
        var r := ParseLines(parse, [], more);
        assert records + ([s] + r.records) == records + [s] + r.records;
    }
  }

  /** The log can be opened: it exists and is not empty. */
  predicate Openable(file: Option<string>) {
    file.Some? && file.value != []
  }

  function Min(a: nat, b: nat): nat { if a <= b then a else b }

  /** The text one `readlines()` call returns from read offset `pos`: up to the
      end of the file on the last pass, otherwise at most `budget` characters
      (the size hint, left to the environment). A missing or shorter file
      reads as nothing. */
  function Available(file: Option<string>, pos: nat, lastPass: bool, budget: nat): (chunk: string)
    ensures file.Some? && pos <= |file.value| ==>
              pos + |chunk| <= |file.value| && file.value[pos..pos + |chunk|] == chunk
    ensures lastPass && file.Some? && pos <= |file.value| ==> pos + |chunk| == |file.value|
    ensures !lastPass ==> |chunk| <= budget
  {
    if file.None? || pos >= |file.value| then []
    else file.value[pos..if lastPass then |file.value| else Min(pos + budget, |file.value|)]
  }

  /** Where the read of a call starts: the handle's offset, or, on the call
      that opens the file, just past the header line. */
  function StartOffset(fds: Option<nat>, file: Option<string>): nat {
    if fds.Some? then fds.value else if file.Some? then |FirstLine(file.value)| else 0
  }

  class DataLogReader {
    /** The open log: `None` until opened; then the handle's read offset. */
    var fds: Option<nat>
    /** Column name to position, from the header. */
    var idx: map<string, nat>
    /** The unterminated text read so far after the last complete line. */
    var partialBuffer: string

    /** All text read through the handle after the header. */
    ghost var consumed: string
    /** All samples produced so far. */
    ghost var emitted: seq<Sample>
    /** Whether some call raised. */
    ghost var failed: bool

    /** Until a call raises, what was produced is a function of the text read
        alone: the samples of its complete lines, with its unterminated tail
        left in the buffer. */
    ghost predicate Valid()
      reads this
    {
      && (fds.None? ==> idx == map[] && partialBuffer == [] && consumed == [] && emitted == [] && !failed)
      && (!failed ==> Agrees(idx, consumed, emitted, partialBuffer))
    }

    constructor ()
      ensures Valid()
      ensures fds == None && idx == map[] && partialBuffer == []
    {
      fds := None;
      idx := map[];
      partialBuffer := [];
      consumed := [];
      emitted := [];
      failed := false;
    }

    /** `__open_fds`: open the log if it exists and is non-empty, read its
        header line and build the column map. */
    method OpenFds(file: Option<string>) returns (isOpen: bool)
      requires Valid() && fds.None?
      modifies this
      ensures Valid()
      ensures isOpen <==> Openable(file)
      ensures !isOpen ==> unchanged(this)
      ensures isOpen ==> fds == Some(|FirstLine(file.value)|)
      ensures isOpen ==> idx == IndexUpTo(HeaderFields(file.value), |HeaderFields(file.value)|)
      ensures partialBuffer == old(partialBuffer) && consumed == old(consumed)
      ensures emitted == old(emitted) && failed == old(failed)
    {
      if file.None? {
        return false;
      }
      if |file.value| == 0 {
        return false;
      }
      var text := file.value;
      fds := Some(|FirstLine(text)|);
      var fields := HeaderFields(text);
      idx := BuildIndex(fields);
      return true;
    }

    /** The part of `_read` after the log is open: read what is available
        from the handle's offset and parse it, after the carried fragment. */
    method ReadChunk(file: Option<string>, lastPass: bool, budget: nat)
      returns (records: seq<Sample>, error: Option<ReadError>)
      requires Valid() && fds.Some?
      modifies this
      ensures Valid()
      ensures idx == old(idx)
      ensures var chunk := Available(file, old(fds).value, lastPass, budget);
              var b := ParseLines(LineParserFor(idx), old(partialBuffer), Lines(chunk));
              && fds == Some(old(fds).value + |chunk|)
              && records == b.records && partialBuffer == b.buffer && error == b.error
              && consumed == old(consumed) + chunk
      ensures emitted == old(emitted) + records
      ensures failed == (old(failed) || error.Some?)
    {
      var pos := fds.value;
      var chunk := Available(file, pos, lastPass, budget);
      fds := Some(pos + |chunk|);
      var parser := LineParserFor(idx);
      ghost var buffer := partialBuffer;
      records, partialBuffer, error := ParseBatch(parser, partialBuffer, Lines(chunk));
      if !failed {
        ReadStep(idx, consumed, chunk, emitted, buffer);
      }
      consumed := consumed + chunk;
      emitted := emitted + records;
      failed := failed || error.Some?;
    }

    /** `_read`: one call of the reader. While the log cannot be opened it
        produces nothing and raises nothing. Otherwise it reads the text
        available since the last call and parses its lines; the samples come
        out in file order, the unterminated tail waits in the buffer, and a
        line that raises ends the call (the rest of the batch is lost, as the
        handle has already moved past it). */
    method Read(file: Option<string>, lastPass: bool, budget: nat)
      returns (records: seq<Sample>, error: Option<ReadError>)
      requires Valid()
      modifies this
      ensures Valid()
      ensures old(fds).None? && !Openable(file) ==>
                unchanged(this) && records == [] && error == None
      ensures old(fds).Some? ==> idx == old(idx)
      ensures old(fds).None? && Openable(file) ==> idx == IndexUpTo(HeaderFields(file.value), |HeaderFields(file.value)|)
      ensures old(fds).Some? || Openable(file) ==>
                var pos := StartOffset(old(fds), file);
                var chunk := Available(file, pos, lastPass, budget);
                var b := ParseLines(LineParserFor(idx), old(partialBuffer), Lines(chunk));
                && fds == Some(pos + |chunk|)
                && records == b.records && partialBuffer == b.buffer && error == b.error
                && consumed == old(consumed) + chunk
      ensures emitted == old(emitted) + records
      ensures failed == (old(failed) || error.Some?)
    {
      if fds.None? {
        var ok := OpenFds(file);
        if !ok {
          records, error := [], None;
          return;
        }
      }
      records, error := ReadChunk(file, lastPass, budget);
    }
  }
}
