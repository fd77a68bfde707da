/** The few Python 2 `str` operations the Grinder reader and the properties
    writer rely on: `strip()`, `split(d)`, `isdigit()`, `int(s)`, `"%s" % n`
    and the line boundaries that `file.readlines()` produces. */
module PyStr {
  import opened Wrappers

  /** Whitespace as Python 2's byte-string methods see it (C `isspace`). */
  predicate IsSpace(c: char) {
    c == ' ' || c == '\t' || c == '\n' || c == '\r' || c == '\U{0B}' || c == '\U{0C}'
  }

  predicate IsDigit(c: char) { '0' <= c <= '9' }

  /** `s.isdigit()`: at least one character, and every character a digit. */
  predicate IsDigits(s: string) {
    |s| > 0 && forall i :: 0 <= i < |s| ==> IsDigit(s[i])
  }

  /** `s.lstrip()`: the suffix of `s` left after its leading whitespace. */
  function LStrip(s: string): (r: string)
  {
    if s != [] && IsSpace(s[0]) then LStrip(s[1..]) else s
  }

  /** `s.rstrip()`: the prefix of `s` left before its trailing whitespace. */
  function RStrip(s: string): (r: string)
  {
    if s != [] && IsSpace(s[|s| - 1]) then RStrip(s[..|s| - 1]) else s
  }

  /** `s.strip()`: `s` without its leading and trailing whitespace. */
  function Strip(s: string): (r: string)
  {
    RStrip(LStrip(s))
  }

  /** `lstrip()` removes exactly the leading whitespace. */
  lemma {:induction false} LStripSpec(s: string)
    ensures |LStrip(s)| <= |s| && LStrip(s) == s[|s| - |LStrip(s)|..]
    ensures forall i :: 0 <= i < |s| - |LStrip(s)| ==> IsSpace(s[i])
    ensures LStrip(s) == [] || !IsSpace(LStrip(s)[0])
  {
    if s != [] && IsSpace(s[0]) {
      var t := s[1..];
      LStripSpec(t);
      var r := LStrip(t);
      assert t[|t| - |r|..] == s[|s| - |r|..];
      forall i | 0 <= i < |s| - |r|
        ensures IsSpace(s[i])
      {
        if i > 0 { assert s[i] == t[i - 1]; }
      }
    }
  }

  /** `rstrip()` removes exactly the trailing whitespace. */
  lemma {:induction false} RStripSpec(s: string)
    ensures |RStrip(s)| <= |s| && RStrip(s) == s[..|RStrip(s)|]
    ensures forall i :: |RStrip(s)| <= i < |s| ==> IsSpace(s[i])
    ensures RStrip(s) == [] || !IsSpace(RStrip(s)[|RStrip(s)| - 1])
  {
    if s != [] && IsSpace(s[|s| - 1]) {
      var t := s[..|s| - 1];
      RStripSpec(t);
      var r := RStrip(t);
      assert t[..|r|] == s[..|r|];
      forall i | |r| <= i < |s|
        ensures IsSpace(s[i])
      {
        if i < |t| { assert s[i] == t[i]; }
      }
    }
  }

  /** `strip()` leaves a piece of its input that neither starts nor ends
      with whitespace. */
  lemma StripSpec(s: string)
    ensures |Strip(s)| <= |s|
    ensures Strip(s) == [] || (!IsSpace(Strip(s)[0]) && !IsSpace(Strip(s)[|Strip(s)| - 1]))
  {
    LStripSpec(s);
    RStripSpec(LStrip(s));
  }

  /** A string that starts and ends with non-whitespace is its own strip. */
  lemma StripFixed(s: string)
    requires s == [] || (!IsSpace(s[0]) && !IsSpace(s[|s| - 1]))
    ensures Strip(s) == s
  {
  }

  /** The text between the separators: `Join(parts, d)` is `d.join(parts)`. */
  function Join(parts: seq<string>, d: char): string
    requires |parts| >= 1
  {
    if |parts| == 1 then parts[0] else parts[0] + [d] + Join(parts[1..], d)
  }

  /** `s.split(d)`: the maximal runs of `s` free of `d`, always at least one
      (the empty string splits into `[""]`). */
  function Split(s: string, d: char): (r: seq<string>)
    ensures |r| >= 1
  {
    if s == [] then [""]
    else
      var rest := Split(s[1..], d);
      if s[0] == d then [""] + rest else [[s[0]] + rest[0]] + rest[1..]
  }

  /** Joining the pieces of a split gives back the text. */
  lemma {:induction false} JoinSplit(s: string, d: char)
    ensures Join(Split(s, d), d) == s
  {
    if s != [] {
      var t, rest := s[1..], Split(s[1..], d);
      JoinSplit(t, d);
      assert s == [s[0]] + t;
      if s[0] == d {
        assert ([""] + rest)[1..] == rest;
        calc {
          Join(Split(s, d), d);
          Join([""] + rest, d);
          "" + [d] + Join(rest, d);
          s;
        }
      } else {
        JoinFirst(s[0], rest, d);
      }
    }
  }

  /** Putting a character in front of the first piece. */
  lemma JoinFirst(c: char, parts: seq<string>, d: char)
    requires |parts| >= 1
    ensures Join([[c] + parts[0]] + parts[1..], d) == [c] + Join(parts, d)
  {
    var ps := [[c] + parts[0]] + parts[1..];
    assert ps[0] == [c] + parts[0] && ps[1..] == parts[1..];
    if |parts| > 1 {
      calc {
        Join(ps, d);
        ps[0] + [d] + Join(ps[1..], d);
        [c] + (parts[0] + [d] + Join(parts[1..], d));
        [c] + Join(parts, d);
      }
    }
  }

  /** No piece of a split holds the separator. */
  lemma {:induction false} SplitPieces(s: string, d: char)
    ensures forall i :: 0 <= i < |Split(s, d)| ==> d !in Split(s, d)[i]
  {
    if s != [] {
      var rest := Split(s[1..], d);
      SplitPieces(s[1..], d);
      var r := Split(s, d);
      if s[0] == d {
        assert r == [""] + rest;
        forall i | 1 <= i < |r|
          ensures d !in r[i]
        {
          assert r[i] == rest[i - 1];
        }
      } else {
        assert r == [[s[0]] + rest[0]] + rest[1..];
        assert d !in r[0];
        forall i | 1 <= i < |r|
          ensures d !in r[i]
        {
          assert r[i] == rest[i];
        }
      }
    }
  }

  /** Splitting undoes joining, when no part contains the separator. */
  lemma {:induction false} SplitJoin(parts: seq<string>, d: char)
    requires |parts| >= 1
    requires forall i :: 0 <= i < |parts| ==> d !in parts[i]
    ensures Split(Join(parts, d), d) == parts
  {
    if |parts| == 1 {
      SplitNoSeparator(parts[0], d);
    } else {
      SplitJoin(parts[1..], d);
      SplitPrefix(parts[0], Join(parts[1..], d), d);
    }
  }

  lemma {:induction false} SplitNoSeparator(s: string, d: char)
    requires d !in s
    ensures Split(s, d) == [s]
  {
    if s != [] {
      SplitNoSeparator(s[1..], d);
      assert [s[0]] + s[1..] == s;
    }
  }

  lemma {:induction false} SplitPrefix(p: string, t: string, d: char)
    requires d !in p
    ensures Split(p + [d] + t, d) == [p] + Split(t, d)
  {
    if p == [] {
      assert ([] + [d] + t)[1..] == t;
    } else {
      assert (p + [d] + t)[1..] == p[1..] + [d] + t;
      SplitPrefix(p[1..], t, d);
      assert [p[0]] + p[1..] == p;
    }
  }

  /** The value of a run of decimal digits. */
  function DigitsValue(s: string): (n: nat)
    requires forall i :: 0 <= i < |s| ==> IsDigit(s[i])
  {
    if s == [] then 0
    else
      assert IsDigit(s[|s| - 1]);
      10 * DigitsValue(s[..|s| - 1]) + (s[|s| - 1] as int - '0' as int)
  }

  /** Python 2 `int(s)` on a byte string: surrounding whitespace, an optional
      sign, more whitespace after the sign (the C conversion skips it a second
      time), and at least one decimal digit; anything else is a `ValueError`,
      which is `None` here. */
  function ParseInt(s: string): (r: Option<int>)
    ensures IsDigits(Strip(s)) ==> r == Some(DigitsValue(Strip(s)))
    ensures r.Some? ==> Strip(s) != [] && (r.value < 0 ==> Strip(s)[0] == '-')
  {
    var t := Strip(s);
    if |t| > 0 && (t[0] == '-' || t[0] == '+') then
      var u := LStrip(t[1..]);
      if IsDigits(u) then
        var v: int := DigitsValue(u);
        Some(if t[0] == '-' then -v else v)
      else None
    else if IsDigits(t) then Some(DigitsValue(t))
    else None
  }

  function DigitChar(n: nat): char
    requires n < 10
  {
    ('0' as int + n) as char
  }

  /** `"%s" % n` for a non-negative integer. */
  function NatToString(n: nat): string {
    if n < 10 then [DigitChar(n)] else NatToString(n / 10) + [DigitChar(n % 10)]
  }

  /** The decimal rendering of `n` is a run of digits with value `n` and no
      leading zero. */
  lemma {:induction false} NatToStringSpec(n: nat)
    ensures IsDigits(NatToString(n))
    ensures DigitsValue(NatToString(n)) == n
    ensures NatToString(n)[0] != '0' || n == 0
  {
    if n >= 10 {
      NatToStringSpec(n / 10);
      var p := NatToString(n / 10);
      var s := NatToString(n);
      assert s == p + [DigitChar(n % 10)];
      assert s[..|s| - 1] == p;
      assert s[0] == p[0];
    }
  }

  /** `"%s" % n` for any integer. */
  function IntToString(n: int): (s: string)
  {
    if n < 0 then "-" + NatToString(-n) else NatToString(n)
  }

  /** Reading back what `"%s" % n` writes gives `n`. */
  lemma ParseIntToString(n: int)
    ensures ParseInt(IntToString(n)) == Some(n)
  {
    if n < 0 {
      NatToStringSpec(-n);
      ParseIntNegative(NatToString(-n));
    } else {
      NatToStringSpec(n);
      ParseIntDigits(NatToString(n));
    }
  }

  lemma ParseIntDigits(d: string)
    requires IsDigits(d)
    ensures ParseInt(d) == Some(DigitsValue(d))
  {
    assert IsDigit(d[0]) && IsDigit(d[|d| - 1]);
    StripFixed(d);
  }

  lemma ParseIntNegative(d: string)
    requires IsDigits(d)
    ensures ParseInt(['-'] + d) == Some(-(DigitsValue(d) as int))
  {
    ParseIntSigned('-', [], d);
    assert ['-'] + [] + d == ['-'] + d;
  }

  /** A sign, then whitespace, then digits: `int("- 5")` is `-5`. */
  lemma ParseIntSigned(sign: char, w: string, d: string)
    requires sign == '-' || sign == '+'
    requires forall i :: 0 <= i < |w| ==> IsSpace(w[i])
    requires IsDigits(d)
    ensures ParseInt([sign] + w + d) ==
              Some(if sign == '-' then -(DigitsValue(d) as int) else DigitsValue(d))
  {
    var s := [sign] + w + d;
    assert s[|s| - 1] == d[|d| - 1];
    StripFixed(s);
    assert s[1..] == w + d;
    LStripSpaces(w, d);
  }

  /** `lstrip()` drops a leading run of whitespace in front of a digit. */
  lemma {:induction false} LStripSpaces(w: string, d: string)
    requires forall i :: 0 <= i < |w| ==> IsSpace(w[i])
    requires IsDigits(d)
    ensures LStrip(w + d) == d
  {
    if w == [] {
      assert w + d == d;
    } else {
      assert (w + d)[1..] == w[1..] + d;
      assert (w + d)[0] == w[0];
      LStripSpaces(w[1..], d);
    }
  }

  /** The concatenation of a sequence of strings. */
  function Concat(ls: seq<string>): string {
    if ls == [] then [] else ls[0] + Concat(ls[1..])
  }

  predicate EndsWithNewline(s: string) {
    |s| > 0 && s[|s| - 1] == '\n'
  }

  /** The shape of what `readlines()` returns: non-empty lines, each with its
      only newline at its end, and every line but the last newline-terminated. */
  ghost predicate LineShaped(ls: seq<string>) {
    && (forall i :: 0 <= i < |ls| ==> ls[i] != [])
    && (forall i, j :: 0 <= i < |ls| && 0 <= j < |ls[i]| - 1 ==> ls[i][j] != '\n')
    && (forall i :: 0 <= i < |ls| - 1 ==> EndsWithNewline(ls[i]))
  }

  /** `readlines()` over a stretch of text `t`: the text cut after every newline. */
  function Lines(t: string): (ls: seq<string>)
    ensures |ls| <= |t|
    ensures ls == [] <==> t == []
  {
    if t == [] then []
    else
      var rest := Lines(t[1..]);
      if t[0] == '\n' || rest == [] then [[t[0]]] + rest
      else [[t[0]] + rest[0]] + rest[1..]
  }

  /** Nothing of the text is lost or reordered in its lines. */
  lemma {:induction false} LinesConcat(t: string)
    ensures Concat(Lines(t)) == t
  {
    if t != [] {
      LinesConcat(t[1..]);
      var rest := Lines(t[1..]);
      if !(t[0] == '\n' || rest == []) {
        var r := Lines(t);
        assert r[1..] == rest[1..];
        assert Concat(rest) == rest[0] + Concat(rest[1..]);
        assert t == [t[0]] + t[1..];
      } else {
        assert t == [t[0]] + t[1..];
      }
    }
  }

  /** The lines of a text are non-empty, each holds a newline only at its
      end, and all of them but the last end with one. */
  lemma {:induction false} LinesShape(t: string)
    ensures LineShaped(Lines(t))
  {
    if t != [] {
      LinesShape(t[1..]);
      var rest := Lines(t[1..]);
      if !(t[0] == '\n' || rest == []) {
        var r := Lines(t);
        assert r[0] == [t[0]] + rest[0];
        assert forall i :: 1 <= i < |r| ==> r[i] == rest[i];
        if |r| > 1 {
          assert EndsWithNewline(rest[0]);
          assert r[0][|r[0]| - 1] == rest[0][|rest[0]| - 1];
        }
      }
    }
  }

  /** A line whose only newline is its last character is the first of the
      lines of any text it starts. */
  lemma {:induction false} LinesCons(l: string, rest: string)
    requires EndsWithNewline(l)
    requires forall j :: 0 <= j < |l| - 1 ==> l[j] != '\n'
    ensures Lines(l + rest) == [l] + Lines(rest)
  {
    var t := l + rest;
    assert t[0] == l[0];
    if |l| == 1 {
      assert t[1..] == rest && [t[0]] == l;
    } else {
      var l' := l[1..];
      assert t[1..] == l' + rest;
      assert l'[|l'| - 1] == l[|l| - 1];
      assert forall j :: 0 <= j < |l'| - 1 ==> l'[j] == l[j + 1];
      LinesCons(l', rest);
      assert [l[0]] + l' == l;
    }
  }

  /** `readlines()` of two stretches of text glued: when the first does not end
      in a newline, its last line and the second's first line become one. */
  function GlueLines(a: seq<string>, b: seq<string>): seq<string> {
    if a == [] || b == [] || EndsWithNewline(a[|a| - 1]) then a + b
    else a[..|a| - 1] + [a[|a| - 1] + b[0]] + b[1..]
  }

  lemma GlueCons(x: string, a: seq<string>, b: seq<string>)
    requires a != []
    ensures GlueLines([x] + a, b) == [x] + GlueLines(a, b)
  {
    var xa := [x] + a;
    assert xa[|xa| - 1] == a[|a| - 1];
    if b == [] || EndsWithNewline(a[|a| - 1]) {
      assert GlueLines(xa, b) == [x] + (a + b);
    } else {
      var g := [a[|a| - 1] + b[0]] + b[1..];
      assert xa[..|xa| - 1] == [x] + a[..|a| - 1];
      assert GlueLines(a, b) == a[..|a| - 1] + g;
      assert GlueLines(xa, b) == [x] + (a[..|a| - 1] + g);
    }
  }

  /** Putting a character in front of the first of the lines. */
  lemma GlueFirst(c: char, r1: seq<string>, r2: seq<string>)
    requires r1 != [] && c != '\n'
    ensures GlueLines(r1, r2) != []
    ensures GlueLines([[c] + r1[0]] + r1[1..], r2) ==
            [[c] + GlueLines(r1, r2)[0]] + GlueLines(r1, r2)[1..]
  {
    if |r1| >= 2 {
      GlueCons([c] + r1[0], r1[1..], r2);
      GlueCons(r1[0], r1[1..], r2);
      assert r1 == [r1[0]] + r1[1..];
    } else {
      var l := [c] + r1[0];
      assert [l] + r1[1..] == [l];
      assert EndsWithNewline(l) <==> EndsWithNewline(r1[0]) by {
        if r1[0] != [] { assert l[|l| - 1] == r1[0][|r1[0]| - 1]; }
      }
      if r2 != [] && !EndsWithNewline(r1[0]) {
        assert [l][..0] == [] && r1[..0] == [];
        assert l + r2[0] == [c] + (r1[0] + r2[0]);
      }
    }
  }

  lemma {:induction false} LinesAppend(t1: string, t2: string)
    ensures Lines(t1 + t2) == GlueLines(Lines(t1), Lines(t2))
  {
    if t1 == [] {
      assert t1 + t2 == t2;
    } else {
      LinesAppend(t1[1..], t2);
      LinesAppendStep(t1, t2);
    }
  }

  /** One step of `LinesAppend`: putting the first character back. */
  lemma LinesAppendStep(t1: string, t2: string)
    requires t1 != []
    requires Lines(t1[1..] + t2) == GlueLines(Lines(t1[1..]), Lines(t2))
    ensures Lines(t1 + t2) == GlueLines(Lines(t1), Lines(t2))
  {
    var u := t1 + t2;
    assert u[1..] == t1[1..] + t2;
    var c, r1, r2 := t1[0], Lines(t1[1..]), Lines(t2);
    calc {
      Lines(u);
      PushChar(c, Lines(u[1..]));
      PushChar(c, GlueLines(r1, r2));
      { GluePush(c, r1, r2); }
      GlueLines(PushChar(c, r1), r2);
      GlueLines(Lines(t1), r2);
    }
  }

  /** The lines of a text with one more character in front. */
  function PushChar(c: char, lines: seq<string>): seq<string> {
    if c == '\n' || lines == [] then [[c]] + lines else [[c] + lines[0]] + lines[1..]
  }

  lemma GluePush(c: char, r1: seq<string>, r2: seq<string>)
    ensures GlueLines(PushChar(c, r1), r2) == PushChar(c, GlueLines(r1, r2))
  {
    if c == '\n' {
      if r1 != [] {
        GlueCons([c], r1, r2);
      } else {
        assert [[c]] + r1 == [[c]];
      }
    } else if r1 != [] {
      GlueFirst(c, r1, r2);
    }
  }

  /** The last line of a non-empty text ends with a newline exactly when the
      text does. */
  lemma {:induction false} LinesLast(t: string)
    requires t != []
    ensures Lines(t) != [] && Lines(t)[|Lines(t)| - 1] != []
    ensures EndsWithNewline(Lines(t)[|Lines(t)| - 1]) <==> EndsWithNewline(t)
  {
    var u := t[1..];
    if u != [] {
      LinesLast(u);
      var rest := Lines(u);
      var last := rest[|rest| - 1];
      assert EndsWithNewline(t) <==> EndsWithNewline(u) by {
        assert t[|t| - 1] == u[|u| - 1];
      }
      if t[0] == '\n' {
        assert Lines(t) == [[t[0]]] + rest;
        assert Lines(t)[|Lines(t)| - 1] == last;
      } else if |rest| == 1 {
        var l := [t[0]] + last;
        assert Lines(t) == [l];
        assert l[|l| - 1] == last[|last| - 1];
      } else {
        assert Lines(t) == [[t[0]] + rest[0]] + rest[1..];
        assert Lines(t)[|Lines(t)| - 1] == last;
      }
    }
  }

  /** Text that ends with a newline keeps its lines when more text follows. */
  lemma LinesAfterNewline(t: string, rest: string)
    requires t == [] || EndsWithNewline(t)
    ensures Lines(t + rest) == Lines(t) + Lines(rest)
  {
    LinesAppend(t, rest);
    if t != [] {
      LinesLast(t);
    } else {
      assert t + rest == rest;
    }
  }

  /** `readline()` at the start of a text: up to and including the first
      newline, or all of it when there is none. */
  function FirstLine(t: string): string {
    if t == [] then []
    else if t[0] == '\n' then ['\n']
    else [t[0]] + FirstLine(t[1..])
  }

  /** The first line is a non-empty prefix of a non-empty text, holds no
      newline but its last character, and ends with one unless it is the
      whole text. */
  lemma {:induction false} FirstLineSpec(t: string)
    ensures |FirstLine(t)| <= |t| && FirstLine(t) == t[..|FirstLine(t)|]
    ensures t != [] ==> FirstLine(t) != []
    ensures forall j :: 0 <= j < |FirstLine(t)| - 1 ==> FirstLine(t)[j] != '\n'
    ensures |FirstLine(t)| < |t| ==> EndsWithNewline(FirstLine(t))
  {
    if t != [] && t[0] != '\n' {
      var r := FirstLine(t[1..]);
      FirstLineSpec(t[1..]);
      assert FirstLine(t) == [t[0]] + r;
      assert t == [t[0]] + t[1..];
      forall j | 0 <= j < |FirstLine(t)| - 1
        ensures FirstLine(t)[j] != '\n'
      {
        if j > 0 { assert FirstLine(t)[j] == r[j - 1]; }
      }
    }
  }

  /** Python's `int(a / float(b))` for integers: the quotient truncated
      toward zero (Dafny's own `/` is Euclidean). */
  function TruncDiv(a: int, b: int): (q: int)
    requires b != 0
    ensures 0 <= a && 0 < b ==> q == a / b
    ensures a < 0 && 0 < b ==> q == -((-a) / b)
    ensures 0 < b && 0 <= a ==> 0 <= a - q * b < b
    ensures 0 < b && a < 0 ==> -b < a - q * b <= 0
  {
    var m := (if a < 0 then -a else a) / (if b < 0 then -b else b);
    if (a < 0) == (b < 0) then m else -m
  }
}
