/** Byte-level lines of an append-only JSONL log.

    `Split` is the separation at '\n' used by the chunked reader; `LinesBy` is
    the line iteration of Python text, with (`Wide`) or without (`Universal`)
    the extra line boundaries that `str.splitlines` honours. */
module LogLines {

  newtype byte = x: int | 0 <= x < 256

  type Line = seq<byte>

  const NEWLINE: byte := 10

  // ----- separation at '\n' -----

  function Split(s: seq<byte>): (r: seq<Line>)
    ensures |r| >= 1
  {
    if s == [] then
      [[]]
    else
      var rest := Split(s[1..]);
      if s[0] == NEWLINE then [[]] + rest else [[s[0]] + rest[0]] + rest[1..]
  }

  function Join(lines: seq<Line>): seq<byte>
    requires |lines| >= 1
  {
    if |lines| == 1 then lines[0] else lines[0] + [NEWLINE] + Join(lines[1..])
  }

  // Split is the inverse of joining with '\n', and none of its lines holds a '\n'.
  lemma {:induction false} JoinSplit(s: seq<byte>)
    ensures Join(Split(s)) == s
    ensures forall i :: 0 <= i < |Split(s)| ==> NEWLINE !in Split(s)[i]
  {
    if s != [] {
      var rest := Split(s[1..]);
      JoinSplit(s[1..]);
      assert s == [s[0]] + s[1..];
      if s[0] == NEWLINE {
        assert Split(s)[1..] == rest;
      } else {
        assert Split(s)[1..] == rest[1..];
        if |rest| > 1 {
          assert Join(rest) == rest[0] + [NEWLINE] + Join(rest[1..]);
        }
      }
    }
  }

  lemma {:induction false} SplitWithoutNewline(s: seq<byte>)
    requires NEWLINE !in s
    ensures Split(s) == [s]
  {
    if s != [] {
      SplitWithoutNewline(s[1..]);
      assert [s[0]] + s[1..] == s;
    }
  }

  // Two line lists with the last line of `l` and the first of `r` made one.
  function Fuse(l: seq<Line>, r: seq<Line>): (f: seq<Line>)
    requires |l| >= 1 && |r| >= 1
    ensures |f| == |l| + |r| - 1
  {
    if |l| == 1 then [l[0] + r[0]] + r[1..] else [l[0]] + Fuse(l[1..], r)
  }

  lemma {:induction false} FuseTail(l: seq<Line>, r: seq<Line>)
    requires |l| >= 1 && |r| >= 1
    ensures Fuse(l, r) == Fuse(l, [r[0]]) + r[1..]
    ensures Fuse(l, r)[|l|..] == r[1..]
  {
    if |l| > 1 {
      FuseTail(l[1..], r);
      assert Fuse(l, r)[|l|..] == Fuse(l[1..], r)[|l| - 1..];
    }
  }

  // Splitting a concatenation fuses the last line of the left part with the
  // first line of the right part and leaves every other line alone.
  lemma {:induction false} SplitConcat(a: seq<byte>, b: seq<byte>)
    ensures Split(a + b) == Fuse(Split(a), Split(b))
  {
    var r := Split(b);
    if a == [] {
      assert a + b == b;
      assert [] + r[0] == r[0];
      assert [[] + r[0]] + r[1..] == r;
    } else {
      SplitConcat(a[1..], b);
      assert (a + b)[1..] == a[1..] + b;
      SplitConcatStep(a[0], Split(a[1..]), r);
    }
  }

  lemma {:induction false} SplitConcatStep(x: byte, l: seq<Line>, r: seq<Line>)
    requires |l| >= 1 && |r| >= 1
    ensures Fuse([[]] + l, r) == [[]] + Fuse(l, r)
    ensures Fuse([[x] + l[0]] + l[1..], r) == [[x] + Fuse(l, r)[0]] + Fuse(l, r)[1..]
  {
    assert ([[]] + l)[1..] == l;
    var f := [[x] + l[0]] + l[1..];
    if |l| == 1 {
      assert ([x] + l[0]) + r[0] == [x] + (l[0] + r[0]);
    } else {
      assert f[1..] == l[1..];
    }
  }

  // ----- the tail window -----

  function WindowStart(size: nat, maxBytes: int): (start: nat)
    ensures start <= size
    ensures size - start == if maxBytes <= 0 then 0 else if maxBytes <= size then maxBytes else size
  {
    if maxBytes <= 0 then size else if size <= maxBytes then 0 else size - maxBytes
  }

  // The complete lines of a window: its first segment may be the end of a
  // longer line, so it is dropped unless the window starts the file.
  function Complete(atStart: bool, window: seq<byte>): seq<Line> {
    if atStart then Split(window) else Split(window)[1..]
  }

  function WindowLines(file: seq<byte>, maxBytes: int): seq<Line> {
    var start := WindowStart(|file|, maxBytes);
    Complete(start == 0, file[start..])
  }

  // No partial line is ever in a window: its lines are exactly the file's own
  // lines from the first one that starts behind a '\n' inside the window.
  lemma {:induction false} WindowHoldsWholeLines(file: seq<byte>, maxBytes: int)
    ensures var start := WindowStart(|file|, maxBytes);
            var k := if start == 0 then 0 else |Split(file[..start])|;
            k <= |Split(file)| && WindowLines(file, maxBytes) == Split(file)[k..]
  {
    var start := WindowStart(|file|, maxBytes);
    if start == 0 {
      assert file[0..] == file;
    } else {
      SplitConcat(file[..start], file[start..]);
      FuseTail(Split(file[..start]), Split(file[start..]));
      assert file[..start] + file[start..] == file;
    }
  }

  function NonEmpty(lines: seq<Line>): (r: seq<Line>) {
    if lines == [] then []
    else if lines[0] == [] then NonEmpty(lines[1..])
    else [lines[0]] + NonEmpty(lines[1..])
  }

  lemma {:induction false} NonEmptyConcat(a: seq<Line>, b: seq<Line>)
    ensures NonEmpty(a + b) == NonEmpty(a) + NonEmpty(b)
  {
    if a == [] {
      assert a + b == b;
    } else {
      NonEmptyConcat(a[1..], b);
      NonEmptyFirst(a[0], a[1..]);
      NonEmptyFirst(a[0], a[1..] + b);
      assert a == [a[0]] + a[1..] && a + b == [a[0]] + (a[1..] + b);
    }
  }

  lemma {:induction false} NonEmptyFirst(line: Line, rest: seq<Line>)
    ensures NonEmpty([line] + rest) == (if line == [] then [] else [line]) + NonEmpty(rest)
  {
    assert ([line] + rest)[1..] == rest;
  }

  // ----- line iteration of Python text -----

  datatype Convention = Universal | Wide

  // Text files end a line at \n, \r and \r\n only.
  lemma {:induction false} UniversalBreaks(s: seq<byte>)
    requires s != []
    ensures BreakLen(Universal, s) > 0 <==> s[0] == 0x0A || s[0] == 0x0D
    ensures BreakLen(Universal, s) == 2 <==> |s| > 1 && s[0] == 0x0D && s[1] == 0x0A
  {
  }

  // Length in bytes of the line boundary that starts `s`, or 0.  Text files
  // end a line at \n, \r and \r\n; `str.splitlines` also ends one at \v, \f,
  // the three separators 0x1c to 0x1e, U+0085, U+2028 and U+2029.
  function BreakLen(c: Convention, s: seq<byte>): (n: nat)
    requires s != []
    ensures n <= 3 && n <= |s|
  {
    if s[0] == 10 then 1
    else if s[0] == 13 then (if |s| > 1 && s[1] == 10 then 2 else 1)
    else if c == Universal then 0
    else if s[0] == 11 || s[0] == 12 || 28 <= s[0] <= 30 then 1
    else if |s| > 1 && s[0] == 0xC2 && s[1] == 0x85 then 2
    else if |s| > 2 && s[0] == 0xE2 && s[1] == 0x80 && (s[2] == 0xA8 || s[2] == 0xA9) then 3
    else 0
  }

  // The lines of `s`; text after the last boundary is a line only if non-empty.
  function LinesBy(c: Convention, s: seq<byte>): (r: seq<Line>)
    ensures s != [] <==> r != []
  {
    if s == [] then
      []
    else
      var n := BreakLen(c, s);
      if n > 0 then
        [[]] + LinesBy(c, s[n..])
      else
        var rest := LinesBy(c, s[1..]);
        if rest == [] then [[s[0]]] else [[s[0]] + rest[0]] + rest[1..]
  }

  lemma {:induction false} OneLine(c: Convention, s: seq<byte>)
    requires s != [] && forall i :: 0 <= i < |s| ==> BreakLen(c, s[i..]) == 0
    ensures LinesBy(c, s) == [s]
  {
    assert s[0..] == s;
    if |s| > 1 {
      assert forall i :: 0 <= i < |s[1..]| ==> s[1..][i..] == s[i + 1..];
      OneLine(c, s[1..]);
      assert [s[0]] + s[1..] == s;
    } else {
      assert s == [s[0]] && s[1..] == [];
    }
  }

  // Appending to a text whose last line is ended adds lines and changes none.
  lemma {:induction false} LinesConcat(c: Convention, a: seq<byte>, b: seq<byte>)
    requires a == [] || a[|a| - 1] == NEWLINE
    ensures LinesBy(c, a + b) == LinesBy(c, a) + LinesBy(c, b)
    decreases |a|
  {
    if a == [] {
      assert a + b == b;
    } else {
      var k, rest := Peel(c, a, b);
      LinesConcat(c, rest, b);
      OneStep(c, a + b, a, k, rest + b, rest, LinesBy(c, b));
    }
  }

  // The first byte or boundary of a text is that of the longer one.
  lemma {:induction false} Peel(c: Convention, a: seq<byte>, b: seq<byte>) returns (k: nat, rest: seq<byte>)
    requires a != [] && a[|a| - 1] == NEWLINE
    ensures BreakLen(c, a + b) == BreakLen(c, a) && (BreakLen(c, a) == 0 ==> |a| > 1 && (a + b)[0] == a[0])
    ensures 0 < k <= |a| && k == (if BreakLen(c, a) == 0 then 1 else BreakLen(c, a))
    ensures rest == a[k..] && (a + b)[k..] == rest + b && (rest == [] || rest[|rest| - 1] == NEWLINE)
  {
    BreakLenConcat(c, a, b);
    k := if BreakLen(c, a) == 0 then 1 else BreakLen(c, a);
    rest := a[k..];
    assert (a + b)[k..] == rest + b;
  }

  // If what follows the first byte or boundary of two texts differs by some more
  // lines at the end, so do the texts.
  lemma {:induction false} OneStep(c: Convention, s: seq<byte>, a: seq<byte>, k: nat, sRest: seq<byte>,
          aRest: seq<byte>, more: seq<Line>)
    requires s != [] && a != [] && BreakLen(c, s) == BreakLen(c, a) && (BreakLen(c, a) == 0 ==> |a| > 1 && s[0] == a[0])
    requires k == (if BreakLen(c, a) == 0 then 1 else BreakLen(c, a)) && k <= |s| && k <= |a|
    requires sRest == s[k..] && aRest == a[k..]
    requires LinesBy(c, sRest) == LinesBy(c, aRest) + more
    ensures LinesBy(c, s) == LinesBy(c, a) + more
  {
    if BreakLen(c, a) == 0 {
      ExtendLines(a[0], LinesBy(c, aRest), more);
    } else {
      assert [[]] + (LinesBy(c, aRest) + more) == ([[]] + LinesBy(c, aRest)) + more;
    }
  }

  lemma {:induction false} BreakLenConcat(c: Convention, a: seq<byte>, b: seq<byte>)
    requires a != [] && a[|a| - 1] == NEWLINE
    ensures BreakLen(c, a + b) == BreakLen(c, a)
    ensures BreakLen(c, a) == 0 ==> |a| > 1
  {
  }

  function Rest(lines: seq<Line>): seq<Line> {
    if lines == [] then [] else lines[1..]
  }

  ghost predicate Suffix<T>(t: seq<T>, s: seq<T>) {
    |t| <= |s| && t == s[|s| - |t|..]
  }

  lemma {:induction false} SuffixTransitive<T>(a: seq<T>, b: seq<T>, c: seq<T>)
    requires Suffix(a, b) && Suffix(b, c)
    ensures Suffix(a, c)
  {
    assert a == c[|c| - |b|..][|b| - |a|..];
  }

  // Whatever byte a tail starts at (inside a line, a character or a line
  // boundary), dropping its first line leaves only lines of the whole text.
  lemma {:induction false} TailLinesAreLines(c: Convention, s: seq<byte>, k: nat)
    requires k <= |s|
    ensures Suffix(Rest(LinesBy(c, s[k..])), Rest(LinesBy(c, s)))
    decreases |s|
  {
    if k == 0 {
      assert s[0..] == s;
    } else if k < BreakLen(c, s) {
      TailInsideBreak(c, s, k);
      FirstLineEnds(c, s);
    } else {
      var step := if BreakLen(c, s) == 0 then 1 else BreakLen(c, s);
      TailLinesAreLines(c, s[step..], k - step);
      assert s[step..][k - step..] == s[k..];
      FirstLineEnds(c, s);
      if BreakLen(c, s) > 0 {
        SuffixTransitive(Rest(LinesBy(c, s[k..])), Rest(LinesBy(c, s[step..])), LinesBy(c, s[step..]));
      }
    }
  }

  lemma {:induction false} FirstLineEnds(c: Convention, s: seq<byte>)
    requires s != []
    ensures var n := BreakLen(c, s);
            Rest(LinesBy(c, s)) == if n == 0 then Rest(LinesBy(c, s[1..])) else LinesBy(c, s[n..])
  {
  }

  // The case where the tail starts inside a boundary of two or three bytes.
  lemma {:induction false} TailInsideBreak(c: Convention, s: seq<byte>, k: nat)
    requires s != [] && 0 < k < BreakLen(c, s)
    ensures Suffix(Rest(LinesBy(c, s[k..])), LinesBy(c, s[BreakLen(c, s)..]))
  {
    var n, t := BreakLen(c, s), s[k..];
    assert t[0] == s[k];
    assert t[n - k..] == s[n..];
    if n - k == 1 {
      LinesAfterFirstByte(c, t);
    } else {
      assert t[1] == s[2];
      assert BreakLen(c, t) == 0;
      assert BreakLen(c, t[1..]) == 0;
      LinesAfterFirstByte(c, t[1..]);
      assert t[1..][1..] == s[n..];
      assert Rest(LinesBy(c, t)) == Rest(LinesBy(c, t[1..]));
    }
  }

  lemma {:induction false} LinesAfterFirstByte(c: Convention, t: seq<byte>)
    requires t != [] && BreakLen(c, t) <= 1
    ensures Suffix(Rest(LinesBy(c, t)), LinesBy(c, t[1..]))
  {
    var rest := LinesBy(c, t[1..]);
    if BreakLen(c, t) == 1 {
      assert Rest(LinesBy(c, t)) == rest;
    } else if rest == [] {
      assert Rest(LinesBy(c, t)) == [];
    } else {
      assert Rest(LinesBy(c, t)) == rest[1..];
    }
  }

  // Text whose only line boundaries are '\n' bytes.
  ghost predicate OnlyNewlines(s: seq<byte>) {
    forall i :: 0 <= i < |s| && s[i] != NEWLINE ==> BreakLen(Wide, s[i..]) == 0
  }

  // The empty line that `Split` reports behind a final '\n' (or in no text).
  function Ending(s: seq<byte>): seq<Line> {
    if s == [] || s[|s| - 1] == NEWLINE then [[]] else []
  }

  lemma {:induction false} FirstBreak(c: Convention, s: seq<byte>)
    requires OnlyNewlines(s) && s != []
    ensures BreakLen(c, s) == if s[0] == NEWLINE then 1 else 0
  {
    assert s[0..] == s;
  }

  lemma {:induction false} ExtendLines(x: byte, lines: seq<Line>, end: seq<Line>)
    ensures [[]] + (lines + end) == ([[]] + lines) + end
    ensures lines != [] ==>
              [[x] + (lines + end)[0]] + (lines + end)[1..] == ([[x] + lines[0]] + lines[1..]) + end
  {
    if lines != [] {
      assert (lines + end)[1..] == lines[1..] + end;
    }
  }

  lemma {:induction false} CutsDiffer(c: Convention, s: seq<byte>)
    requires OnlyNewlines(s)
    ensures Split(s) == LinesBy(c, s) + Ending(s)
  {
    if s != [] {
      FirstBreak(c, s);
      OnlyNewlinesTail(s, 1);
      CutsDiffer(c, s[1..]);
      ExtendLines(s[0], LinesBy(c, s[1..]), Ending(s[1..]));
      if |s| == 1 {
        SingleByteCut(c, s);
      } else {
        assert Ending(s) == Ending(s[1..]);
      }
    }
  }

  lemma {:induction false} SingleByteCut(c: Convention, s: seq<byte>)
    requires |s| == 1 && BreakLen(c, s) == if s[0] == NEWLINE then 1 else 0
    ensures Split(s) == LinesBy(c, s) + Ending(s)
  {
    assert s[1..] == [] && s == [s[0]];
    assert Split(s[1..]) == [[]];
    assert [s[0]] + [] == s;
  }

  // On such text the three ways of cutting lines differ only in empty lines.
  lemma {:induction false} CutsAgree(c: Convention, s: seq<byte>)
    requires OnlyNewlines(s)
    ensures NonEmpty(LinesBy(c, s)) == NonEmpty(Split(s))
  {
    CutsDiffer(c, s);
    NonEmptyConcat(LinesBy(c, s), Ending(s));
    assert NonEmpty(Ending(s)) == [];
  }

  lemma {:induction false} OnlyNewlinesTail(s: seq<byte>, k: nat)
    requires k <= |s| && OnlyNewlines(s)
    ensures OnlyNewlines(s[k..])
  {
    forall i | 0 <= i < |s[k..]| && s[k..][i] != NEWLINE
      ensures BreakLen(Wide, s[k..][i..]) == 0
    {
      assert s[k..][i..] == s[k + i..];
      assert s[k + i] != NEWLINE;
    }
  }

  // ----- where the two conventions part -----

  // A boundary that `splitlines` knows and text-file iteration does not: vertical
  // tab, form feed, a separator 0x1c to 0x1e, U+0085, U+2028 or U+2029.
  predicate WideBreakAt(s: seq<byte>, i: nat) {
    && i < |s|
    && (s[i] in {0x0B, 0x0C, 0x1C, 0x1D, 0x1E}
        || (i + 1 < |s| && s[i] == 0xC2 && s[i + 1] == 0x85)
        || (i + 2 < |s| && s[i] == 0xE2 && s[i + 1] == 0x80 && s[i + 2] in {0xA8, 0xA9}))
  }

  lemma {:induction false} WideBreakIs(s: seq<byte>, i: nat)
    requires i < |s|
    ensures WideBreakAt(s, i) <==> BreakLen(Universal, s[i..]) == 0 && BreakLen(Wide, s[i..]) > 0
  {
    var t := s[i..];
    assert t[0] == s[i] && (|t| > 1 ==> t[1] == s[i + 1]) && (|t| > 2 ==> t[2] == s[i + 2]);
  }

  predicate HasWideBreak(s: seq<byte>) {
    exists i :: 0 <= i < |s| && WideBreakAt(s, i)
  }

  lemma {:induction false} WideBreakShift(s: seq<byte>, k: nat, i: nat)
    requires k + i < |s|
    ensures WideBreakAt(s[k..], i) <==> WideBreakAt(s, k + i)
  {
    assert s[k..][i..] == s[k + i..];
  }

  // Without such a boundary both conventions cut alike.
  lemma {:induction false} SameCuts(s: seq<byte>)
    requires !HasWideBreak(s)
    ensures LinesBy(Wide, s) == LinesBy(Universal, s)
    decreases |s|
  {
    if s != [] {
      assert s[0..] == s && !WideBreakAt(s, 0);
      var n := BreakLen(Universal, s);
      var k := if n == 0 then 1 else n;
      forall i | 0 <= i < |s[k..]|
        ensures !WideBreakAt(s[k..], i)
      {
        WideBreakShift(s, k, i);
      }
      SameCuts(s[k..]);
    }
  }

  lemma {:induction false} FirstLineIsPrefix(c: Convention, s: seq<byte>)
    requires s != []
    ensures LinesBy(c, s)[0] <= s
  {
    if BreakLen(c, s) == 0 && s[1..] != [] {
      FirstLineIsPrefix(c, s[1..]);
      assert s == [s[0]] + s[1..];
    }
  }

  // A boundary at the start of a piece of text is one at the start of the text.
  lemma {:induction false} BreakOfPrefix(p: seq<byte>, s: seq<byte>)
    requires p != [] && p <= s && WideBreakAt(p, 0)
    ensures WideBreakAt(s, 0)
  {
    assert p[0..] == p && s[0..] == s;
  }

  // No line that `splitlines` gives holds one.
  lemma {:induction false} WideLinesHoldNone(s: seq<byte>)
    ensures forall l <- LinesBy(Wide, s) :: !HasWideBreak(l)
    decreases |s|
  {
    if s != [] {
      var n := BreakLen(Wide, s);
      WideLinesHoldNone(s[if n == 0 then 1 else n..]);
      if n == 0 {
        FirstWideLine(s);
      }
    }
  }

  lemma {:induction false} FirstWideLine(s: seq<byte>)
    requires s != [] && BreakLen(Wide, s) == 0
    requires forall l <- LinesBy(Wide, s[1..]) :: !HasWideBreak(l)
    ensures !HasWideBreak(LinesBy(Wide, s)[0])
  {
    var first := LinesBy(Wide, s)[0];
    FirstLineIsPrefix(Wide, s);
    forall j | 0 <= j < |first|
      ensures !WideBreakAt(first, j)
    {
      if j == 0 {
        assert s[0..] == s && !WideBreakAt(s, 0);
        if WideBreakAt(first, 0) {
          BreakOfPrefix(first, s);
        }
      } else {
        var rest := LinesBy(Wide, s[1..]);
        assert rest[0] in rest && first[1..] == rest[0];
        assert !WideBreakAt(rest[0], j - 1);
        WideBreakShift(first, 1, j - 1);
      }
    }
  }

  // Some line of text-file iteration holds each of them.
  lemma {:induction false} UniversalLineHolds(s: seq<byte>, i: nat) returns (k: nat)
    requires i < |s| && WideBreakAt(s, i)
    ensures k < |LinesBy(Universal, s)| && HasWideBreak(LinesBy(Universal, s)[k])
    decreases |s|
  {
    assert s[0..] == s;
    var n := BreakLen(Universal, s);
    if n > 0 {
      NotInsideBreak(s, i);
      WideBreakShift(s, n, i - n);
      var j := UniversalLineHolds(s[n..], i - n);
      k := j + 1;
    } else if i == 0 {
      k := 0;
      BreakStaysInLine(s);
    } else {
      WideBreakShift(s, 1, i - 1);
      var j := UniversalLineHolds(s[1..], i - 1);
      k := j;
      var rest := LinesBy(Universal, s[1..]);
      if j == 0 {
        LongerLine(s[0], rest[0]);
      }
    }
  }

  lemma {:induction false} LongerLine(x: byte, line: Line)
    requires HasWideBreak(line)
    ensures HasWideBreak([x] + line)
  {
    var i :| 0 <= i < |line| && WideBreakAt(line, i);
    assert ([x] + line)[1..] == line;
    WideBreakShift([x] + line, 1, i);
  }

  lemma {:induction false} NotInsideBreak(s: seq<byte>, i: nat)
    requires WideBreakAt(s, i) && BreakLen(Universal, s) > 0
    ensures i >= BreakLen(Universal, s)
  {
    assert s[0..] == s;
    assert s[i..][0] == s[i];
  }

  lemma {:induction false} BreakStaysInLine(s: seq<byte>)
    requires WideBreakAt(s, 0)
    ensures HasWideBreak(LinesBy(Universal, s)[0])
  {
    assert s[0..] == s;
    var line := LinesBy(Universal, s)[0];
    var n := BreakLen(Wide, s);
    FirstLineIsPrefix(Universal, s);
    FirstLineCovers(s, n);
    assert line[0..] == line && line[..n] == s[..n];
    assert line[0] == s[0] && (n > 1 ==> line[1] == s[1]) && (n > 2 ==> line[2] == s[2]);
    assert WideBreakAt(line, 0);
  }

  // A line reaches at least over bytes that are neither \n nor \r.
  lemma {:induction false} FirstLineCovers(s: seq<byte>, n: nat)
    requires 0 < n <= |s| && forall j :: 0 <= j < n ==> s[j] != 10 && s[j] != 13
    ensures |LinesBy(Universal, s)[0]| >= n
  {
    if n > 1 {
      assert forall j :: 0 <= j < n - 1 ==> s[1..][j] == s[j + 1];
      FirstLineCovers(s[1..], n - 1);
    }
  }

  // Text cut in two by one boundary.
  lemma {:induction false} CutAt(c: Convention, head: seq<byte>, mark: seq<byte>, tail: seq<byte>)
    requires forall j :: 0 <= j < |head| ==> BreakLen(c, (head + mark + tail)[j..]) == 0
    requires mark != [] && BreakLen(c, mark + tail) == |mark|
    ensures LinesBy(c, head + mark + tail) == [head] + LinesBy(c, tail)
  {
    var s := head + mark + tail;
    assert s[0..] == s;
    if head == [] {
      assert s == mark + tail && s[|mark|..] == tail;
    } else {
      assert s[1..] == head[1..] + mark + tail;
      forall j | 0 <= j < |head[1..]|
        ensures BreakLen(c, (head[1..] + mark + tail)[j..]) == 0
      {
        assert s[1..][j..] == s[j + 1..];
      }
      CutAt(c, head[1..], mark, tail);
      assert [head[0]] + head[1..] == head;
    }
  }
}
