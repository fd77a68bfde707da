/** The parts of the Grinder executor (`GrinderExecutor`, bzt/modules/grinder.py)
    that decide things: the run-status check, and the `.properties` file the
    executor writes for the Grinder process, section by section, as
    `key=value` lines between comment markers. */
module GrinderExecutor {
  import opened Wrappers
  import opened PyStr

  /** The open `.properties` file: all that has been written to it. */
  class PropertiesFile {
    var text: string

    constructor ()
      ensures text == []
    {
      text := [];
    }

    method Write(s: string)
      modifies this
      ensures text == old(text) + s
    {
      text := text + s;
    }
  }

  /** A property: its key and its value as `"%s"` renders it. */
  type Pair = (string, string)

  function TextLine(s: string): string { s + "\n" }

  /** `"%s=%s\n" % (key, val)`. */
  function PairLine(p: Pair): string { TextLine(p.0 + "=" + p.1) }

  function RenderPairs(ps: seq<Pair>): string {
    if ps == [] then [] else PairLine(ps[0]) + RenderPairs(ps[1..])
  }

  // The comment markers, spelled as the executor spells them.
  function FileStart(kind: string, name: string): string {
    TextLine("# " + kind + " Properies File Start: " + name)
  }

  function FileEnd(kind: string, name: string): string {
    TextLine("# " + kind + " Properies File End: " + name) + TextLine("")
  }

  function BlockStart(kind: string): string { TextLine("# " + kind + " Properies Start") }

  function BlockEnd(kind: string): string {
    TextLine("# " + kind + " Properies End") + TextLine("")
  }

  /** Where one section's properties come from: the name of a properties file
      to copy in verbatim (empty for none), and a dictionary of properties in
      its iteration order. */
  datatype PropsSource = PropsSource(propertiesFile: string, properties: seq<Pair>)

  /** What a writer leaves in the file, and the included file it could not
      open, if any (Python raises `IOError` there). */
  datatype Written = Written(text: string, missing: Option<string>)

  /** A dictionary's `key=value` lines between its two markers; nothing at all
      for an empty dictionary. */
  function BlockText(kind: string, props: seq<Pair>): string {
    if props == [] then [] else BlockStart(kind) + RenderPairs(props) + BlockEnd(kind)
  }

  /** The included file between its markers; nothing when no file is named.
      The start marker is written before the file is opened, so a missing
      file leaves that marker behind. `files` is the file system's content. */
  function IncludedText(kind: string, name: string, files: map<string, string>): Written {
    if name == [] then Written([], None)
    else if name !in files then Written(FileStart(kind, name), Some(name))
    else Written(FileStart(kind, name) + files[name] + FileEnd(kind, name), None)
  }

  /** One section, as `__write_base_props` and `__write_scenario_props` write
      it: the included file, then the dictionary, unless the file is missing. */
  function SectionText(fileKind: string, blockKind: string, src: PropsSource, files: map<string, string>): (w: Written)
    ensures w.missing.Some? ==> w.missing.value == src.propertiesFile && w.text == FileStart(fileKind, src.propertiesFile)
  {
    var included := IncludedText(fileKind, src.propertiesFile, files);
    if included.missing.Some? then included
    else Written(included.text + BlockText(blockKind, src.properties), None)
  }

  /** A section fails exactly when it names a properties file that does not
      exist, and then holds only the file's start marker; otherwise it holds
      the included file, if any, and then the dictionary. */
  lemma SectionOutcome(fileKind: string, blockKind: string, src: PropsSource, files: map<string, string>)
    ensures var w := SectionText(fileKind, blockKind, src, files);
            var name := src.propertiesFile;
            && (w.missing.Some? <==> name != [] && name !in files)
            && (w.missing.Some? ==> w.missing.value == name && w.text == FileStart(fileKind, name))
            && (name == [] ==> w.text == BlockText(blockKind, src.properties))
            && (name != [] && name in files ==>
                  w.text == FileStart(fileKind, name) + files[name] + FileEnd(fileKind, name)
                            + BlockText(blockKind, src.properties))
  {
    if src.propertiesFile == [] {
      assert [] + BlockText(blockKind, src.properties) == BlockText(blockKind, src.properties);
    }
  }

  /** The load settings the BZT section depends on. Ramp-up and duration are
      in whole seconds; the iteration limit may be absent. */
  datatype Load = Load(concurrency: int, rampUp: int, iterations: Option<int>, duration: int)

  /** `"%s" % load.iterations`. */
  function RunsText(iterations: Option<int>): string {
    match iterations
    case None => "None"
    case Some(n) => IntToString(n)
  }

  /** The ramp-up interval, when there is a ramp-up:
      `int(1000 * ramp_up / concurrency)`, truncated toward zero. */
  function IntervalPairs(load: Load): seq<Pair>
    requires load.concurrency != 0
  {
    if load.rampUp != 0
    then [("grinder.processIncrementInterval", IntToString(TruncDiv(1000 * load.rampUp, load.concurrency)))]
    else []
  }

  /** The process count, the run limit and the increment of one. */
  function CountPairs(load: Load): seq<Pair> {
    [("grinder.processes", IntToString(load.concurrency)),
     ("grinder.runs", RunsText(load.iterations)),
     ("grinder.processIncrement", "1")]
  }

  /** The duration in milliseconds, when there is one. */
  function DurationPairs(load: Load): seq<Pair> {
    if load.duration != 0 then [("grinder.duration", IntToString(load.duration * 1000))] else []
  }

  /** The load properties: none without concurrency. */
  function LoadPairs(load: Load): seq<Pair> {
    if load.concurrency == 0 then []
    else IntervalPairs(load) + CountPairs(load) + DurationPairs(load)
  }

  /** The fixed head of the BZT section: the host name, and the script and
      log directory as resolved paths. */
  function BztHead(script: string, logDirectory: string): seq<Pair> {
    [("grinder.hostID", "grinder-bzt"), ("grinder.script", script), ("grinder.logDirectory", logDirectory)]
  }

  /** The BZT section's properties, in the order they are written. */
  function BztPairs(script: string, logDirectory: string, load: Load): seq<Pair> {
    BztHead(script, logDirectory) + LoadPairs(load)
  }

  function BztText(script: string, logDirectory: string, load: Load): string {
    TextLine("# BZT Properies Start") + RenderPairs(BztPairs(script, logDirectory, load))
    + TextLine("# BZT Properies End")
  }

  /** How a `.properties` reader takes one line: blank lines and `#`
      comments hold nothing; otherwise the key runs up to the first `=` and
      the value is the rest of the line without its newline. This is the
      part of the Java format the writer relies on. */
  function PairOf(line: string): Option<Pair> {
    if line == [] || line[0] == '#' || line[0] == '\n' then None
    else Some((KeyOf(line), ValueOf(line)))
  }

  /** The text before the first `=` (or before the newline, without one). */
  function KeyOf(s: string): string {
    if s == [] || s[0] == '=' || s[0] == '\n' then [] else [s[0]] + KeyOf(s[1..])
  }

  /** The text after the first `=` up to the newline; empty without one. */
  function ValueOf(s: string): string {
    if s == [] then []
    else if s[0] == '=' then LineBody(s[1..])
    else ValueOf(s[1..])
  }

  /** A line without its newline. */
  function LineBody(s: string): string {
    if EndsWithNewline(s) then s[..|s| - 1] else s
  }

  function ReadPairs(lines: seq<string>): seq<Pair> {
    if lines == [] then []
    else
      (match PairOf(lines[0]) case Some(p) => [p] case None => []) + ReadPairs(lines[1..])
  }

  /** The properties a reader finds in a text, in file order. */
  function ReadProperties(text: string): seq<Pair> {
    ReadPairs(Lines(text))
  }

  /** A key the reader reads back as written: no `=`, no newline, and not
      taken for a comment. */
  predicate PlainKey(k: string) {
    '=' !in k && '\n' !in k && (k == [] || k[0] != '#')
  }

  predicate PlainPairs(ps: seq<Pair>) {
    forall i :: 0 <= i < |ps| ==> PlainKey(ps[i].0) && '\n' !in ps[i].1
  }

  /** The value a reader finds last for `key`, as later lines override. */
  function Lookup(ps: seq<Pair>, key: string): Option<string> {
    if ps == [] then None
    else
      var later := Lookup(ps[1..], key);
      if later.Some? then later else if ps[0].0 == key then Some(ps[0].1) else None
  }

  lemma {:induction false} KeyOfLine(k: string, v: string)
    requires '=' !in k && '\n' !in k
    ensures KeyOf(k + "=" + v) == k
  {
    var s := k + "=" + v;
    if k == [] {
      assert s[0] == '=';
    } else {
      assert s[0] == k[0] && s[1..] == k[1..] + "=" + v;
      KeyOfLine(k[1..], v);
      assert [k[0]] + k[1..] == k;
    }
  }

  lemma {:induction false} ValueOfLine(k: string, v: string)
    requires '=' !in k && '\n' !in v
    ensures ValueOf(k + "=" + TextLine(v)) == v
  {
    var s := k + "=" + TextLine(v);
    if k == [] {
      assert s[0] == '=' && s[1..] == TextLine(v);
      assert TextLine(v)[..|v|] == v;
    } else {
      assert s[0] == k[0] && s[1..] == k[1..] + "=" + TextLine(v);
      ValueOfLine(k[1..], v);
    }
  }

  /** A rendered property reads back as itself. */
  lemma PairOfLine(p: Pair)
    requires PlainKey(p.0) && '\n' !in p.1
    ensures PairOf(PairLine(p)) == Some(p)
  {
    var line := PairLine(p);
    assert line == p.0 + "=" + TextLine(p.1);
    KeyOfLine(p.0, TextLine(p.1));
    ValueOfLine(p.0, p.1);
    assert line[0] == if p.0 == [] then '=' else p.0[0];
  }

  /** A line holding `s` alone is the first line of any text it starts. */
  lemma LinesOfTextLine(s: string, rest: string)
    requires '\n' !in s
    ensures Lines(TextLine(s) + rest) == [TextLine(s)] + Lines(rest)
  {
    var l := TextLine(s);
    assert forall j :: 0 <= j < |l| - 1 ==> l[j] == s[j];
    LinesCons(l, rest);
  }

  /** Comment lines and blank lines carry no property. */
  lemma ReadSkip(s: string, rest: string)
    requires '\n' !in s && (s == [] || s[0] == '#')
    ensures ReadProperties(TextLine(s) + rest) == ReadProperties(rest)
  {
    LinesOfTextLine(s, rest);
    var ls := [TextLine(s)] + Lines(rest);
    assert ls[1..] == Lines(rest);
    assert TextLine(s)[..|TextLine(s)| - 1] == s;
  }

  /** The lines of rendered properties: one per property. */
  function PairLines(ps: seq<Pair>): seq<string> {
    if ps == [] then [] else [PairLine(ps[0])] + PairLines(ps[1..])
  }

  lemma PlainTail(ps: seq<Pair>)
    requires ps != [] && PlainPairs(ps)
    ensures PlainPairs(ps[1..])
  {
    assert forall i :: 0 <= i < |ps| - 1 ==> ps[1..][i] == ps[i + 1];
  }

  lemma {:induction false} LinesOfRendered(ps: seq<Pair>, rest: string)
    requires PlainPairs(ps)
    ensures Lines(RenderPairs(ps) + rest) == PairLines(ps) + Lines(rest)
  {
    if ps == [] {
      assert RenderPairs(ps) + rest == rest;
    } else {
      var p, ps' := ps[0], ps[1..];
      var more := RenderPairs(ps') + rest;
      assert RenderPairs(ps) + rest == PairLine(p) + more;
      LinesOfTextLine(p.0 + "=" + p.1, more);
      PlainTail(ps);
      LinesOfRendered(ps', rest);
    }
  }

  lemma ReadPairLines(ps: seq<Pair>, more: seq<string>)
    requires PlainPairs(ps)
    ensures ReadPairs(PairLines(ps) + more) == ps + ReadPairs(more)
  {
    PairLinesRead(ps);
    ReadLines(PairLines(ps), ps, more);
  }

  /** Each of the lines `ls` holds the property at the same place in `ps`. */
  ghost predicate ReadsAs(ls: seq<string>, ps: seq<Pair>) {
    |ls| == |ps| && forall i :: 0 <= i < |ls| ==> PairOf(ls[i]) == Some(ps[i])
  }

  lemma {:induction false} PairLinesRead(ps: seq<Pair>)
    requires PlainPairs(ps)
    ensures ReadsAs(PairLines(ps), ps)
  {
    if ps != [] {
      PairLinesRead(ps[1..]) by { PlainTail(ps); }
      PairOfLine(ps[0]);
      var ls := PairLines(ps);
      assert ls == [PairLine(ps[0])] + PairLines(ps[1..]);
      forall i | 1 <= i < |ls|
        ensures PairOf(ls[i]) == Some(ps[i])
      {
        assert ls[i] == PairLines(ps[1..])[i - 1];
      }
    }
  }

  lemma {:induction false} ReadLines(ls: seq<string>, ps: seq<Pair>, more: seq<string>)
    requires ReadsAs(ls, ps)
    ensures ReadPairs(ls + more) == ps + ReadPairs(more)
  {
    if ls == [] {
      assert ls + more == more && ps == [];
    } else {
      ReadsAsTail(ls, ps);
      ReadLines(ls[1..], ps[1..], more);
      assert ls + more == [ls[0]] + (ls[1..] + more);
      ReadPairsCons(ls[0], ls[1..] + more, ps[0]);
      assert ps == [ps[0]] + ps[1..];
    }
  }

  lemma ReadsAsTail(ls: seq<string>, ps: seq<Pair>)
    requires ls != [] && ReadsAs(ls, ps)
    ensures ReadsAs(ls[1..], ps[1..]) && PairOf(ls[0]) == Some(ps[0])
  {
    forall i | 0 <= i < |ls| - 1
      ensures PairOf(ls[1..][i]) == Some(ps[1..][i])
    {
      assert ls[1..][i] == ls[i + 1];
    }
  }

  lemma ReadPairsCons(line: string, rest: seq<string>, p: Pair)
    requires PairOf(line) == Some(p)
    ensures ReadPairs([line] + rest) == [p] + ReadPairs(rest)
  {
    assert ([line] + rest)[0] == line && ([line] + rest)[1..] == rest;
  }

  /** Rendered properties read back as themselves, in order. */
  lemma ReadRendered(ps: seq<Pair>, rest: string)
    requires PlainPairs(ps)
    ensures ReadProperties(RenderPairs(ps) + rest) == ps + ReadProperties(rest)
  {
    LinesOfRendered(ps, rest);
    ReadPairLines(ps, Lines(rest));
  }

  lemma {:induction false} ReadPairsAppend(a: seq<string>, b: seq<string>)
    ensures ReadPairs(a + b) == ReadPairs(a) + ReadPairs(b)
  {
    if a != [] {
      assert (a + b)[0] == a[0] && (a + b)[1..] == a[1..] + b;
      ReadPairsAppend(a[1..], b);
    } else {
      assert a + b == b;
    }
  }

  /** A dictionary block reads back as the dictionary. */
  lemma ReadBlock(kind: string, props: seq<Pair>, rest: string)
    requires '\n' !in kind && PlainPairs(props)
    ensures ReadProperties(BlockText(kind, props) + rest) == props + ReadProperties(rest)
  {
    if props != [] {
      var start, end := "# " + kind + " Properies Start", "# " + kind + " Properies End";
      var tail := TextLine(end) + (TextLine("") + rest);
      assert BlockText(kind, props) + rest == TextLine(start) + (RenderPairs(props) + tail);
      ReadSkip(start, RenderPairs(props) + tail);
      ReadRendered(props, tail);
      ReadSkip(end, TextLine("") + rest);
      ReadSkip("", rest);
    } else {
      assert BlockText(kind, props) + rest == rest;
    }
  }

  /** An included file reads back as its own properties, provided it ends
      its last line. */
  lemma ReadIncluded(kind: string, name: string, c: string, rest: string)
    requires '\n' !in kind && '\n' !in name
    requires c == [] || EndsWithNewline(c)
    ensures ReadProperties(FileStart(kind, name) + c + FileEnd(kind, name) + rest) ==
            ReadProperties(c) + ReadProperties(rest)
  {
    var start := "# " + kind + " Properies File Start: " + name;
    var end := "# " + kind + " Properies File End: " + name;
    var tail := TextLine(end) + (TextLine("") + rest);
    assert FileStart(kind, name) + c + FileEnd(kind, name) + rest == TextLine(start) + (c + tail);
    ReadSkip(start, c + tail);
    LinesAfterNewline(c, tail);
    ReadPairsAppend(Lines(c), Lines(tail));
    ReadSkip(end, TextLine("") + rest);
    ReadSkip("", rest);
  }

  /** The file is copied verbatim, so when its last line has no newline the
      end marker lands on that line: the file's earlier lines `c` read back
      as themselves, and its last property `k=v` reads back with the marker's
      text appended to its value. */
  lemma ReadIncludedUnterminated(kind: string, name: string, c: string, k: string, v: string, rest: string)
    requires '\n' !in kind && '\n' !in name && '\n' !in v
    requires c == [] || EndsWithNewline(c)
    requires PlainKey(k) && k != []
    ensures var end := "# " + kind + " Properies File End: " + name;
            ReadProperties(FileStart(kind, name) + c + (k + "=" + v) + FileEnd(kind, name) + rest) ==
              ReadProperties(c) + [(k, v + end)] + ReadProperties(rest)
  {
    var start := "# " + kind + " Properies File Start: " + name;
    var end := "# " + kind + " Properies File End: " + name;
    var glued := (k, v + end);
    var tail := RenderPairs([glued]) + (TextLine("") + rest);
    GluedEnd(k, v, end);
    Regroup(TextLine(start), c, k + "=" + v, TextLine(end), TextLine(""), rest);
    ReadSkip(start, c + tail);
    LinesAfterNewline(c, tail);
    ReadPairsAppend(Lines(c), Lines(tail));
    assert PlainPairs([glued]);
    ReadRendered([glued], TextLine("") + rest);
    ReadSkip("", rest);
    Associate3(ReadProperties(c), [glued], ReadProperties(rest));
  }

  /** The end marker written after an unterminated line `k=v` completes it
      into the property line of `k` with the marker appended to `v`. */
  lemma GluedEnd(k: string, v: string, end: string)
    ensures (k + "=" + v) + TextLine(end) == RenderPairs([(k, v + end)])
  {
    assert RenderPairs([(k, v + end)]) == PairLine((k, v + end)) + RenderPairs([]);
    Associate(k, "=", v, end);
    Associate3(k + "=", v, end);
    Associate3(k + "=" + v, end, "\n");
  }

  lemma Regroup<T>(a: seq<T>, c: seq<T>, x: seq<T>, y: seq<T>, z: seq<T>, r: seq<T>)
    ensures a + c + x + (y + z) + r == a + (c + ((x + y) + (z + r)))
  {
  }

  /** A written section reads back as the properties of the included file
      followed by the dictionary, provided the included file ends its last
      line. */
  lemma ReadSection(fileKind: string, blockKind: string, src: PropsSource, files: map<string, string>)
    requires '\n' !in fileKind && '\n' !in blockKind && '\n' !in src.propertiesFile
    requires PlainPairs(src.properties)
    requires src.propertiesFile in files ==>
               files[src.propertiesFile] == [] || EndsWithNewline(files[src.propertiesFile])
    ensures var w := SectionText(fileKind, blockKind, src, files);
            w.missing.None? ==>
              ReadProperties(w.text) ==
                (if src.propertiesFile == [] then [] else ReadProperties(files[src.propertiesFile]))
                + src.properties
  {
    var name, props := src.propertiesFile, src.properties;
    var block := BlockText(blockKind, props);
    ReadBlock(blockKind, props, []);
    assert block + [] == block;
    assert ReadProperties([]) == [];
    if name != [] && name in files {
      ReadIncluded(fileKind, name, files[name], block);
    } else if name == [] {
      assert SectionText(fileKind, blockKind, src, files).text == [] + block == block;
      assert [] + props == props;
    }
  }

  /** A later part of the file overrides an earlier one. */
  lemma {:induction false} LookupAppend(a: seq<Pair>, b: seq<Pair>, key: string)
    ensures Lookup(a + b, key) == if Lookup(b, key).Some? then Lookup(b, key) else Lookup(a, key)
  {
    if a == [] {
      assert a + b == b;
    } else {
      assert (a + b)[0] == a[0] && (a + b)[1..] == a[1..] + b;
      LookupAppend(a[1..], b, key);
    }
  }

  lemma IntToStringPlain(n: int)
    ensures '\n' !in IntToString(n)
  {
    NatToStringSpec(if n < 0 then -n else n);
    var d := NatToString(if n < 0 then -n else n);
    assert forall i :: 0 <= i < |d| ==> IsDigit(d[i]);
  }

  lemma PlainAppend(a: seq<Pair>, b: seq<Pair>)
    requires PlainPairs(a) && PlainPairs(b)
    ensures PlainPairs(a + b)
  {
    forall i | 0 <= i < |a + b|
      ensures PlainKey((a + b)[i].0) && '\n' !in (a + b)[i].1
    {
      if i >= |a| { assert (a + b)[i] == b[i - |a|]; }
    }
  }

  lemma HeadPlain(script: string, logDirectory: string)
    requires '\n' !in script && '\n' !in logDirectory
    ensures PlainPairs(BztHead(script, logDirectory))
  {
    assert PlainKey("grinder.hostID") && '\n' !in "grinder-bzt";
    assert PlainKey("grinder.script");
    assert PlainKey("grinder.logDirectory");
  }

  lemma IntervalPlain(load: Load)
    requires load.concurrency != 0
    ensures PlainPairs(IntervalPairs(load))
  {
    if load.rampUp != 0 {
      IntToStringPlain(TruncDiv(1000 * load.rampUp, load.concurrency));
      assert PlainKey("grinder.processIncrementInterval");
    }
  }

  lemma CountPlain(load: Load)
    ensures PlainPairs(CountPairs(load))
  {
    IntToStringPlain(load.concurrency);
    if load.iterations.Some? {
      IntToStringPlain(load.iterations.value);
    } else {
      assert '\n' !in "None";
    }
    assert PlainKey("grinder.processes");
    assert PlainKey("grinder.runs");
    assert PlainKey("grinder.processIncrement") && '\n' !in "1";
  }

  lemma DurationPlain(load: Load)
    ensures PlainPairs(DurationPairs(load))
  {
    if load.duration != 0 {
      IntToStringPlain(load.duration * 1000);
      assert PlainKey("grinder.duration");
    }
  }

  lemma BztPlain(script: string, logDirectory: string, load: Load)
    requires '\n' !in script && '\n' !in logDirectory
    ensures PlainPairs(BztPairs(script, logDirectory, load))
  {
    var head := BztHead(script, logDirectory);
    HeadPlain(script, logDirectory);
    if load.concurrency != 0 {
      var i, n, d := IntervalPairs(load), CountPairs(load), DurationPairs(load);
      IntervalPlain(load);
      CountPlain(load);
      DurationPlain(load);
      PlainAppend(i, n);
      PlainAppend(i + n, d);
      PlainAppend(head, i + n + d);
    } else {
      assert BztPairs(script, logDirectory, load) == head + [];
    }
  }

  /** The BZT section reads back as its properties, in order. */
  lemma ReadBzt(script: string, logDirectory: string, load: Load)
    requires '\n' !in script && '\n' !in logDirectory
    ensures ReadProperties(BztText(script, logDirectory, load)) == BztPairs(script, logDirectory, load)
  {
    var ps := BztPairs(script, logDirectory, load);
    var end := TextLine("# BZT Properies End");
    BztPlain(script, logDirectory, load);
    assert BztText(script, logDirectory, load) == TextLine("# BZT Properies Start") + (RenderPairs(ps) + end);
    ReadSkip("# BZT Properies Start", RenderPairs(ps) + end);
    ReadRendered(ps, end);
    assert end == end + [];
    ReadSkip("# BZT Properies End", []);
    assert ReadProperties([]) == [];
    assert ps + [] == ps;
  }

  /** `Lookup` on three properties, spelled out. */
  function LookupThree(ps: seq<Pair>, key: string): Option<string>
    requires |ps| == 3
  {
    if ps[2].0 == key then Some(ps[2].1)
    else if ps[1].0 == key then Some(ps[1].1)
    else if ps[0].0 == key then Some(ps[0].1)
    else None
  }

  lemma LookupTriple(ps: seq<Pair>, key: string)
    requires |ps| == 3
    ensures Lookup(ps, key) == LookupThree(ps, key)
  {
    assert ps == ps[..2] + [ps[2]] && ps[..2] == [ps[0]] + [ps[1]];
    LookupAppend(ps[..2], [ps[2]], key);
    LookupAppend([ps[0]], [ps[1]], key);
  }

  /** With concurrency, a key's value comes from the last part that has it. */
  lemma BztLookup(script: string, logDirectory: string, load: Load, key: string)
    requires load.concurrency != 0
    ensures var head, i, n, d := BztHead(script, logDirectory), IntervalPairs(load), CountPairs(load), DurationPairs(load);
            Lookup(BztPairs(script, logDirectory, load), key) ==
              if Lookup(d, key).Some? then Lookup(d, key)
              else if Lookup(n, key).Some? then Lookup(n, key)
              else if Lookup(i, key).Some? then Lookup(i, key)
              else Lookup(head, key)
  {
    var head, i, n, d := BztHead(script, logDirectory), IntervalPairs(load), CountPairs(load), DurationPairs(load);
    LookupAppend(head, i + n + d, key);
    LookupAppend(i + n, d, key);
    LookupAppend(i, n, key);
  }

  /** Without concurrency the section holds no load property at all. */
  lemma IdleLookup(script: string, logDirectory: string, load: Load, key: string)
    requires load.concurrency == 0
    requires key in LoadKeys
    ensures Lookup(BztPairs(script, logDirectory, load), key) == None
    ensures Lookup(BztPairs(script, logDirectory, load), "grinder.hostID") == Some("grinder-bzt")
    ensures Lookup(BztPairs(script, logDirectory, load), "grinder.script") == Some(script)
    ensures Lookup(BztPairs(script, logDirectory, load), "grinder.logDirectory") == Some(logDirectory)
  {
    var head := BztHead(script, logDirectory);
    assert BztPairs(script, logDirectory, load) == head + [] == head;
    LookupTriple(head, key);
    LookupTriple(head, "grinder.hostID");
    LookupTriple(head, "grinder.script");
    LookupTriple(head, "grinder.logDirectory");
  }

  /** The keys `__write_bzt_props` derives from the load. */
  const LoadKeys: seq<string> :=
    ["grinder.processes", "grinder.runs", "grinder.processIncrement",
     "grinder.processIncrementInterval", "grinder.duration"]

  /** With concurrency, the process count, run limit and increment are the
      load's. */
  lemma CountLookup(script: string, logDirectory: string, load: Load)
    requires load.concurrency != 0
    ensures var ps := BztPairs(script, logDirectory, load);
            && Lookup(ps, "grinder.processes") == Some(IntToString(load.concurrency))
            && Lookup(ps, "grinder.runs") == Some(RunsText(load.iterations))
            && Lookup(ps, "grinder.processIncrement") == Some("1")
  {
    var n := CountPairs(load);
    BztLookup(script, logDirectory, load, "grinder.processes");
    LookupTriple(n, "grinder.processes");
    BztLookup(script, logDirectory, load, "grinder.runs");
    LookupTriple(n, "grinder.runs");
    BztLookup(script, logDirectory, load, "grinder.processIncrement");
    LookupTriple(n, "grinder.processIncrement");
  }

  /** With concurrency, the increment interval is present exactly when there
      is a ramp-up, and the duration exactly when there is one. */
  lemma TimingLookup(script: string, logDirectory: string, load: Load)
    requires load.concurrency != 0
    ensures var ps := BztPairs(script, logDirectory, load);
            && Lookup(ps, "grinder.processIncrementInterval") ==
                 (if load.rampUp != 0
                  then Some(IntToString(TruncDiv(1000 * load.rampUp, load.concurrency))) else None)
            && Lookup(ps, "grinder.duration") ==
                 (if load.duration != 0 then Some(IntToString(load.duration * 1000)) else None)
  {
    var head, n := BztHead(script, logDirectory), CountPairs(load);
    LookupTriple(head, "grinder.processIncrementInterval");
    LookupTriple(n, "grinder.processIncrementInterval");
    LookupTriple(head, "grinder.duration");
    LookupTriple(n, "grinder.duration");
    BztLookup(script, logDirectory, load, "grinder.processIncrementInterval");
    BztLookup(script, logDirectory, load, "grinder.duration");
  }

  /** What the Grinder process reads from the BZT section: the number of
      worker processes is the concurrency, the run limit the iteration count,
      and the increment interval and the duration, present exactly when the
      load has a ramp-up or a duration, are the ramp-up spread over the
      processes and the duration, both in milliseconds. */
  lemma LoadReadBack(script: string, logDirectory: string, load: Load)
    requires '\n' !in script && '\n' !in logDirectory
    requires load.concurrency != 0
    ensures var props := ReadProperties(BztText(script, logDirectory, load));
            var processes := Lookup(props, "grinder.processes");
            var runs := Lookup(props, "grinder.runs");
            var interval := Lookup(props, "grinder.processIncrementInterval");
            var duration := Lookup(props, "grinder.duration");
            && processes.Some? && ParseInt(processes.value) == Some(load.concurrency)
            && runs.Some?
            && (load.iterations.Some? ==> ParseInt(runs.value) == Some(load.iterations.value))
            && (load.iterations.None? ==> runs.value == "None")
            && (interval.Some? <==> load.rampUp != 0)
            && (interval.Some? ==> ParseInt(interval.value) == Some(TruncDiv(1000 * load.rampUp, load.concurrency)))
            && (duration.Some? <==> load.duration != 0)
            && (duration.Some? ==> ParseInt(duration.value) == Some(load.duration * 1000))
  {
    ReadBzt(script, logDirectory, load);
    CountLookup(script, logDirectory, load);
    TimingLookup(script, logDirectory, load);
    ParseIntToString(load.concurrency);
    if load.iterations.Some? {
      ParseIntToString(load.iterations.value);
    }
    if load.rampUp != 0 {
      ParseIntToString(TruncDiv(1000 * load.rampUp, load.concurrency));
    }
    ParseIntToString(load.duration * 1000);
  }

  /** Without concurrency the Grinder process finds no load setting at all,
      only the BZT host name. */
  lemma IdleReadBack(script: string, logDirectory: string, load: Load, key: string)
    requires '\n' !in script && '\n' !in logDirectory
    requires load.concurrency == 0
    requires key in LoadKeys
    ensures var props := ReadProperties(BztText(script, logDirectory, load));
            && Lookup(props, key) == None
            && Lookup(props, "grinder.hostID") == Some("grinder-bzt")
            && Lookup(props, "grinder.script") == Some(script)
            && Lookup(props, "grinder.logDirectory") == Some(logDirectory)
  {
    ReadBzt(script, logDirectory, load);
    IdleLookup(script, logDirectory, load, key);
  }

  /** How `check` judges the run once the process has been polled. */
  datatype CheckOutcome =
    | Running                  // `check` returns False
    | Finished                 // `check` returns True
    | ExitedWithError(code: int) // `RuntimeError`
    | EmptyResults             // `RuntimeWarning`: the results log is missing or empty

  /** The decision of `check` from the poll result (`None` while the process
      runs), the results log's path (empty when unset) and the log's size
      (`None` when the file does not exist). */
  function Decide(poll: Option<int>, kpiFile: string, kpiSize: Option<nat>): (r: CheckOutcome)
    ensures r == Running <==> poll.None?
    ensures r.ExitedWithError? <==> poll.Some? && poll.value != 0
    ensures r.ExitedWithError? ==> r.code == poll.value
    ensures r == EmptyResults <==> poll == Some(0) && kpiFile != [] && (kpiSize.None? || kpiSize.value == 0)
    ensures r == Finished <==> poll == Some(0) && (kpiFile == [] || (kpiSize.Some? && kpiSize.value != 0))
  {
    if poll.None? then Running
    else if poll.value != 0 then ExitedWithError(poll.value)
    else if kpiFile != [] && (kpiSize.None? || kpiSize.value == 0) then EmptyResults
    else Finished
  }

  /** The writing of one section: the included file, then the dictionary. */
  method WriteSection(fds: PropertiesFile, fileKind: string, blockKind: string, src: PropsSource, files: map<string, string>)
    returns (missing: Option<string>)
    modifies fds
    ensures var w := SectionText(fileKind, blockKind, src, files);
            fds.text == old(fds.text) + w.text && missing == w.missing
  {
    ghost var before := fds.text;
    ghost var included := IncludedText(fileKind, src.propertiesFile, files);
    missing := WriteIncluded(fds, fileKind, src.propertiesFile, files);
    if missing.None? {
      ghost var block := BlockText(blockKind, src.properties);
      assert SectionText(fileKind, blockKind, src, files) == Written(included.text + block, None);
      WriteBlock(fds, blockKind, src.properties);
      Associate3(before, included.text, block);
    } else {
      assert SectionText(fileKind, blockKind, src, files) == included;
    }
  }

  /** The included file: its start marker, its content, its end marker. */
  method WriteIncluded(fds: PropertiesFile, kind: string, name: string, files: map<string, string>)
    returns (missing: Option<string>)
    modifies fds
    ensures var w := IncludedText(kind, name, files);
            fds.text == old(fds.text) + w.text && missing == w.missing
  {
    if name == [] {
      assert old(fds.text) + [] == fds.text;
      return None;
    }
    fds.Write(FileStart(kind, name));
    if name !in files {
      return Some(name);
    }
    fds.Write(files[name]);
    fds.Write(FileEnd(kind, name));
    Associate(old(fds.text), FileStart(kind, name), files[name], FileEnd(kind, name));
    return None;
  }

  /** The dictionary: its start marker, one line per property in iteration
      order, its end marker; nothing for an empty dictionary. */
  method WriteBlock(fds: PropertiesFile, kind: string, props: seq<Pair>)
    modifies fds
    ensures fds.text == old(fds.text) + BlockText(kind, props)
  {
    if props == [] {
      assert old(fds.text) + [] == fds.text;
      return;
    }
    ghost var prefix := fds.text + BlockStart(kind);
    fds.Write(BlockStart(kind));
    WritePairs(fds, props, prefix);
    fds.Write(BlockEnd(kind));
    Associate(old(fds.text), BlockStart(kind), RenderPairs(props), BlockEnd(kind));
  }

  /** Regrouping of appended writes, stated once for any text so that the
      writers need not reason about their markers' characters. */
  lemma Associate<T>(a: seq<T>, b: seq<T>, c: seq<T>, d: seq<T>)
    ensures a + b + c + d == a + (b + c + d)
  {
  }

  lemma Associate3<T>(a: seq<T>, b: seq<T>, c: seq<T>)
    ensures a + b + c == a + (b + c)
  {
  }

  /** The `for` loop over a dictionary: one line per property, in order. */
  method WritePairs(fds: PropertiesFile, props: seq<Pair>, ghost prefix: string)
    requires fds.text == prefix
    modifies fds
    ensures fds.text == prefix + RenderPairs(props)
  {
    assert fds.text == prefix + RenderPairs(props[..0]);
    var i := 0;
    while i < |props|
      invariant 0 <= i <= |props|
      invariant fds.text == prefix + RenderPairs(props[..i])
    {
      WritePair(fds, props[i], prefix, props[..i]);
      assert props[..i + 1] == props[..i] + [props[i]];
      i := i + 1;
    }
    assert props[..i] == props;
  }

  /** One `fds.write("%s=%s\n" % ...)`: the file holds one more rendered
      property after `prefix`. */
  method WritePair(fds: PropertiesFile, p: Pair, ghost prefix: string, ghost done: seq<Pair>)
    requires fds.text == prefix + RenderPairs(done)
    modifies fds
    ensures fds.text == prefix + RenderPairs(done + [p])
  {
    RenderPairsSnoc(done, p);
    fds.Write(PairLine(p));
    Associate3(prefix, RenderPairs(done), PairLine(p));
  }

  lemma {:induction false} RenderPairsSnoc(ps: seq<Pair>, p: Pair)
    ensures RenderPairs(ps + [p]) == RenderPairs(ps) + PairLine(p)
  {
    if ps == [] {
      assert [] + [p] == [p] && [p][1..] == [];
    } else {
      assert (ps + [p])[1..] == ps[1..] + [p];
      RenderPairsSnoc(ps[1..], p);
    }
  }

  /** The load lines of `__write_bzt_props`, written after the properties
      `done` that follow `prefix`. */
  method WriteLoadProps(fds: PropertiesFile, load: Load, ghost prefix: string, ghost done: seq<Pair>)
    requires fds.text == prefix + RenderPairs(done)
    modifies fds
    ensures fds.text == prefix + RenderPairs(done + LoadPairs(load))
  {
    if load.concurrency != 0 {
      WriteInterval(fds, load, prefix, done);
      ghost var counted := done + IntervalPairs(load);
      WriteCounts(fds, load, prefix, counted);
      ghost var timed := counted + CountPairs(load);
      WriteDuration(fds, load, prefix, timed);
      Associate(done, IntervalPairs(load), CountPairs(load), DurationPairs(load));
    } else {
      assert done + LoadPairs(load) == done;
    }
  }

  method WriteInterval(fds: PropertiesFile, load: Load, ghost prefix: string, ghost done: seq<Pair>)
    requires load.concurrency != 0
    requires fds.text == prefix + RenderPairs(done)
    modifies fds
    ensures fds.text == prefix + RenderPairs(done + IntervalPairs(load))
  {
    if load.rampUp != 0 {
      var interval := TruncDiv(1000 * load.rampUp, load.concurrency);
      WritePair(fds, ("grinder.processIncrementInterval", IntToString(interval)), prefix, done);
    } else {
      assert done + IntervalPairs(load) == done;
    }
  }

  method WriteCounts(fds: PropertiesFile, load: Load, ghost prefix: string, ghost done: seq<Pair>)
    requires fds.text == prefix + RenderPairs(done)
    modifies fds
    ensures fds.text == prefix + RenderPairs(done + CountPairs(load))
  {
    var processes := ("grinder.processes", IntToString(load.concurrency));
    var runs := ("grinder.runs", RunsText(load.iterations));
    var increment := ("grinder.processIncrement", "1");
    WritePair(fds, processes, prefix, done);
    WritePair(fds, runs, prefix, done + [processes]);
    WritePair(fds, increment, prefix, done + [processes] + [runs]);
    assert done + [processes] + [runs] + [increment] == done + CountPairs(load);
  }

  method WriteDuration(fds: PropertiesFile, load: Load, ghost prefix: string, ghost done: seq<Pair>)
    requires fds.text == prefix + RenderPairs(done)
    modifies fds
    ensures fds.text == prefix + RenderPairs(done + DurationPairs(load))
  {
    if load.duration != 0 {
      WritePair(fds, ("grinder.duration", IntToString(load.duration * 1000)), prefix, done);
    } else {
      assert done + DurationPairs(load) == done;
    }
  }

  /** The host name, script and log directory lines. */
  method WriteHead(fds: PropertiesFile, script: string, logDirectory: string, ghost prefix: string)
    requires fds.text == prefix
    modifies fds
    ensures fds.text == prefix + RenderPairs(BztHead(script, logDirectory))
  {
    var host := ("grinder.hostID", "grinder-bzt");
    var scriptPair := ("grinder.script", script);
    var logPair := ("grinder.logDirectory", logDirectory);
    assert fds.text == prefix + RenderPairs([]);
    WritePair(fds, host, prefix, []);
    WritePair(fds, scriptPair, prefix, [] + [host]);
    WritePair(fds, logPair, prefix, [] + [host] + [scriptPair]);
    assert [] + [host] + [scriptPair] + [logPair] == BztHead(script, logDirectory);
  }

  class GrinderExecutor {
    /** The executor's settings: `properties_file` and `properties`. */
    var settings: PropsSource
    /** The resolved path of the script Grinder runs. */
    var script: string
    /** The resolved artifacts directory, where Grinder writes its logs. */
    var logDirectory: string
    var load: Load
    /** The results log's path; empty until it is set. */
    var kpiFile: string
    /** The process's exit code, once it has exited. */
    var retcode: Option<int>

    constructor (settings: PropsSource, script: string, logDirectory: string, load: Load, kpiFile: string)
      ensures this.settings == settings && this.script == script && this.logDirectory == logDirectory
      ensures this.load == load && this.kpiFile == kpiFile && retcode == None
    {
      this.settings := settings;
      this.script := script;
      this.logDirectory := logDirectory;
      this.load := load;
      this.kpiFile := kpiFile;
      retcode := None;
    }

    /** `__write_base_props`. */
    method WriteBaseProps(fds: PropertiesFile, files: map<string, string>) returns (missing: Option<string>)
      modifies fds
      ensures var w := SectionText("Base", "Base", settings, files);
              fds.text == old(fds.text) + w.text && missing == w.missing
    {
      missing := WriteSection(fds, "Base", "Base", settings, files);
    }

    /** `__write_scenario_props`: the scenario's own properties file and
        dictionary. */
    method WriteScenarioProps(fds: PropertiesFile, scenario: PropsSource, files: map<string, string>)
      returns (missing: Option<string>)
      modifies fds
      ensures var w := SectionText("Script", "Scenario", scenario, files);
              fds.text == old(fds.text) + w.text && missing == w.missing
    {
      missing := WriteSection(fds, "Script", "Scenario", scenario, files);
    }

    /** `__write_bzt_props`. */
    method WriteBztProps(fds: PropertiesFile)
      modifies fds
      ensures fds.text == old(fds.text) + BztText(script, logDirectory, load)
    {
      ghost var prefix := fds.text + TextLine("# BZT Properies Start");
      fds.Write(TextLine("# BZT Properies Start"));
      WriteHead(fds, script, logDirectory, prefix);
      WriteLoadProps(fds, load, prefix, BztHead(script, logDirectory));
      fds.Write(TextLine("# BZT Properies End"));
      Associate(old(fds.text), TextLine("# BZT Properies Start"), RenderPairs(BztPairs(script, logDirectory, load)),
                TextLine("# BZT Properies End"));
    }

    /** `check`: poll the process, remember its exit code, and judge the run. */
    method Check(poll: Option<int>, kpiSize: Option<nat>) returns (outcome: CheckOutcome)
      modifies this
      ensures retcode == poll
      ensures outcome == Decide(poll, kpiFile, kpiSize)
      ensures settings == old(settings) && script == old(script) && logDirectory == old(logDirectory)
      ensures load == old(load) && kpiFile == old(kpiFile)
    {
      retcode := poll;
      outcome := Decide(retcode, kpiFile, kpiSize);
    }
  }
}
