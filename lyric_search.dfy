/** Lyric lines for reverse search (`lyric_search_t5.py`): a stored lyric is
    rewritten by replacing every timestamp `[...]` and every line that carries
    a lyricist or composer credit with a line break, split into stripped,
    non-empty lines, and every line but the first becomes a search term. */
module LyricSearch {
  import opened Wrappers
  import opened Text

  /** The length of the line `s` starts with, up to the first line break. */
  function LineLen(s: string): (n: nat)
    ensures n <= |s| && '\n' !in s[..n]
    ensures n < |s| ==> s[n] == '\n'
    decreases |s|
  {
    if s == [] || s[0] == '\n' then 0
    else
      var n := LineLen(s[1..]);
      assert s[..n + 1] == [s[0]] + s[1..][..n];
      n + 1
  }

  /** The group `(作词|作曲)` finds a credit in the line: `作` followed by
      `词` or `曲`. */
  predicate HasCredit(line: string) {
    exists i :: 0 <= i < |line| - 1 && line[i] == '作' && (line[i + 1] == '词' || line[i + 1] == '曲')
  }

  /** One step of `re.sub(r'\[.*?\]|\n.*(作词|作曲).*', '\n', s)` at the
      start of `s`: what it emits and how many characters it consumes. A `[`
      closed by a `]` before any line break is replaced up to that `]`; a line
      break followed by a line with a credit is replaced together with that
      whole line; any other character is kept. */
  function Step(s: string): (r: (string, nat))
    requires s != []
    ensures 1 <= r.1 <= |s|
  {
    if s[0] == '[' && TermEnd(s[1..], "]").Some? then ("\n", TermEnd(s[1..], "]").value + 2)
    else if s[0] == '\n' && HasCredit(s[1..][..LineLen(s[1..])]) then ("\n", LineLen(s[1..]) + 1)
    else ([s[0]], 1)
  }

  /** `re.sub` of the timestamp and credit pattern by a line break, scanning
      from the left. */
  function Rewrite(s: string): string
    decreases |s|
  {
    if s == [] then [] else Step(s).0 + Rewrite(s[Step(s).1..])
  }

  /** The line the text starts with does not change when a line break and
      more text follow it. */
  lemma {:induction false} LineLenBeforeBreak(x: string, b: string)
    requires b == [] || b[0] == '\n'
    ensures LineLen(x + b) == LineLen(x)
    decreases |x|
  {
    if x == [] {
      assert x + b == b;
    } else {
      assert (x + b)[1..] == x[1..] + b;
      LineLenBeforeBreak(x[1..], b);
    }
  }

  /** A match never reaches across a line break that starts the rest. */
  lemma StepBeforeBreak(a: string, b: string)
    requires a != [] && (b == [] || b[0] == '\n')
    ensures Step(a + b) == Step(a)
  {
    var s, x := a + b, a[1..];
    assert s[0] == a[0];
    DropAppend(a, b, 1);
    TermEndBeforeBreak(x, b, ']');
    LineLenBeforeBreak(x, b);
    TakeAppend(x, b, LineLen(x));
    StepSame(s, a);
  }

  /** `Step` looks only at the first character, the stop of a `]` and the
      line that follows it. */
  lemma StepSame(s: string, t: string)
    requires s != [] && t != [] && s[0] == t[0]
    requires TermEnd(s[1..], "]") == TermEnd(t[1..], "]")
    requires LineLen(s[1..]) == LineLen(t[1..])
    requires s[1..][..LineLen(s[1..])] == t[1..][..LineLen(t[1..])]
    ensures Step(s) == Step(t)
  {
  }

  lemma TakeAppend(a: string, b: string, n: nat)
    requires n <= |a|
    ensures (a + b)[..n] == a[..n]
  {
  }

  /** Text that starts at a line break is rewritten on its own: no match
      reaches across the break into the text before it. */
  lemma {:induction false} RewriteAppend(a: string, b: string)
    requires b == [] || b[0] == '\n'
    ensures Rewrite(a + b) == Rewrite(a) + Rewrite(b)
    decreases |a|
  {
    if a == [] {
      assert a + b == b;
    } else {
      StepBeforeBreak(a, b);
      var e, c := Step(a).0, Step(a).1;
      RewriteStep(a + b, e, c);
      RewriteStep(a, e, c);
      DropAppend(a, b, c);
      RewriteAppend(a[c..], b);
      AppendAssoc(e, Rewrite(a[c..]), Rewrite(b));
    }
  }

  lemma DropAppend(a: string, b: string, c: nat)
    requires c <= |a|
    ensures (a + b)[c..] == a[c..] + b
  {
  }

  /** One step of the scan, unfolded. */
  lemma RewriteStep(s: string, e: string, c: nat)
    requires s != [] && Step(s) == (e, c)
    ensures c <= |s| && Rewrite(s) == e + Rewrite(s[c..])
  {
  }

  /** A line after a line break is dropped when it carries a credit and
      otherwise kept with its timestamps replaced. */
  lemma RewriteLine(line: string, b: string)
    requires '\n' !in line && (b == [] || b[0] == '\n')
    ensures Rewrite(['\n'] + line + b)
      == ['\n'] + (if HasCredit(line) then [] else Rewrite(line)) + Rewrite(b)
  {
    var s := ['\n'] + line + b;
    assert s[1..] == line + b;
    LineLenBeforeBreak(line, b);
    LineLenOfLine(line);
    TakeAppend(line, b, |line|);
    assert line[..|line|] == line;
    StepAtBreak(s);
    if HasCredit(line) {
      RewriteStep(s, ['\n'], |line| + 1);
      assert s[|line| + 1..] == b;
    } else {
      RewriteStep(s, ['\n'], 1);
      RewriteAppend(line, b);
      AppendAssoc(['\n'], Rewrite(line), Rewrite(b));
    }
  }

  /** At a line break the scan drops the following line when it holds a
      credit, and otherwise keeps the break alone. */
  lemma StepAtBreak(s: string)
    requires s != [] && s[0] == '\n'
    ensures Step(s) == if HasCredit(s[1..][..LineLen(s[1..])]) then (['\n'], LineLen(s[1..]) + 1) else (['\n'], 1)
  {
  }

  /** A text without a line break is one line. */
  lemma {:induction false} LineLenOfLine(line: string)
    requires '\n' !in line
    ensures LineLen(line) == |line|
    decreases |line|
  {
    if line != [] {
      LineLenOfLine(line[1..]);
    }
  }

  /** What a line after a line break becomes: empty when it carries a
      credit, otherwise with its timestamps replaced. */
  function KeepLine(line: string): string {
    if HasCredit(line) then [] else Rewrite(line)
  }

  /** `KeepLine` of each line. */
  function Kept(lines: seq<string>): (r: seq<string>)
    ensures |r| == |lines|
    ensures forall i :: 0 <= i < |lines| ==> r[i] == KeepLine(lines[i])
    decreases |lines|
  {
    if lines == [] then [] else [KeepLine(lines[0])] + Kept(lines[1..])
  }

  /** What each line of a lyric becomes: the first line only has its
      timestamps replaced, and so does every later line without a credit;
      every later line with a credit becomes empty. */
  function RewrittenLines(lines: seq<string>): (r: seq<string>)
    requires |lines| >= 1
    ensures |r| == |lines| && r[0] == Rewrite(lines[0])
    ensures forall i :: 1 <= i < |lines| ==> r[i] == KeepLine(lines[i])
  {
    var tail := lines[1..];
    assert forall i :: 1 <= i < |lines| ==> tail[i - 1] == lines[i];
    [Rewrite(lines[0])] + Kept(tail)
  }

  /** The rewrite works line by line: a lyric made of lines is rewritten into
      the rewritten lines, joined at the same line breaks. */
  lemma RewriteByLines(lines: seq<string>)
    requires |lines| >= 1
    requires forall i :: 0 <= i < |lines| ==> '\n' !in lines[i]
    ensures Rewrite(Join(lines, '\n')) == Join(RewrittenLines(lines), '\n')
  {
    if |lines| > 1 {
      var rest := Join(lines[1..], '\n');
      JoinCons(lines, '\n');
      RewriteAppend(lines[0], ['\n'] + rest);
      RewriteFollowingLines(lines[1..]);
      var r := RewrittenLines(lines);
      assert r[1..] == Kept(lines[1..]);
      JoinCons(r, '\n');
      AppendAssoc(r[0], ['\n'], Join(r[1..], '\n'));
    }
  }

  /** The lines that follow a line break, each checked for a credit. */
  lemma {:induction false} RewriteFollowingLines(lines: seq<string>)
    requires |lines| >= 1
    requires forall i :: 0 <= i < |lines| ==> '\n' !in lines[i]
    ensures Rewrite(['\n'] + Join(lines, '\n')) == ['\n'] + Join(Kept(lines), '\n')
    decreases |lines|
  {
    var k0 := KeepLine(lines[0]);
    if |lines| == 1 {
      assert ['\n'] + Join(lines, '\n') == ['\n'] + lines[0] + [];
      RewriteLine(lines[0], []);
      assert Join(Kept(lines), '\n') == k0;
    } else {
      var tail := lines[1..];
      assert forall i :: 0 <= i < |tail| ==> '\n' !in tail[i] by {
        forall i | 0 <= i < |tail| ensures '\n' !in tail[i] {
          assert tail[i] == lines[i + 1];
        }
      }
      var rest := Join(tail, '\n');
      var s := ['\n'] + lines[0] + (['\n'] + rest);
      assert ['\n'] + Join(lines, '\n') == s;
      RewriteLine(lines[0], ['\n'] + rest);
      RewriteFollowingLines(tail);
      var jt := Join(Kept(tail), '\n');
      assert Kept(lines) == [k0] + Kept(tail);
      assert Join(Kept(lines), '\n') == k0 + ['\n'] + jt;
      BreakAround(k0, jt);
    }
  }

  lemma BreakAround(x: string, y: string)
    ensures ['\n'] + x + (['\n'] + y) == ['\n'] + (x + ['\n'] + y)
  {
  }

  /** A line without brackets or line breaks is kept as it is. */
  lemma {:induction false} RewritePlainText(x: string)
    requires '[' !in x && '\n' !in x
    ensures Rewrite(x) == x
    decreases |x|
  {
    if x != [] {
      RewritePlainText(x[1..]);
    }
  }

  /** A timestamp `[t]` is replaced with a line break. */
  lemma TimestampReplaced(t: string, b: string)
    requires ']' !in t && '\n' !in t
    ensures Rewrite("[" + t + "]" + b) == "\n" + Rewrite(b)
  {
    var s := "[" + t + "]" + b;
    TermEndAfter(t, "]", b);
    assert s[1..] == t + "]" + b;
    assert s[1..][|t| + 1..] == b;
  }

  /** `[line.strip() for line in parts]`. */
  function Stripped(parts: seq<string>): (r: seq<string>)
    ensures |r| == |parts| && forall i :: 0 <= i < |r| ==> r[i] == Strip(parts[i])
  {
    seq(|parts|, i requires 0 <= i < |parts| => Strip(parts[i]))
  }

  /** Every piece `Stripped` gives is already stripped. */
  lemma StrippedAreFixed(parts: seq<string>)
    ensures forall i :: 0 <= i < |parts| ==> Strip(Stripped(parts)[i]) == Stripped(parts)[i]
  {
    forall i | 0 <= i < |parts|
      ensures Strip(Stripped(parts)[i]) == Stripped(parts)[i]
    {
      StripIdempotent(parts[i]);
    }
  }

  /** The non-empty pieces of `parts`, in order. */
  function NonEmpty(parts: seq<string>): (r: seq<string>)
    ensures |r| <= |parts|
    ensures forall i :: 0 <= i < |r| ==> r[i] != [] && r[i] in parts
    ensures forall j :: 0 <= j < |parts| && parts[j] != [] ==> parts[j] in r
    decreases |parts|
  {
    if parts == [] then []
    else
      var n := |parts| - 1;
      var before := NonEmpty(parts[..n]);
      assert forall x :: x in parts[..n] ==> x in parts;
      assert forall j :: 0 <= j < n ==> parts[j] == parts[..n][j];
      before + (if parts[n] != [] then [parts[n]] else [])
  }

  /** Stripping twice strips nothing more. */
  lemma StripIdempotent(s: string)
    ensures Strip(Strip(s)) == Strip(s)
  {
    var r := Strip(s);
    if r != [] {
      assert TrimStart(r) == r;
      assert TrimEnd(r) == r;
    }
  }

  /** `lyrics_list`: the stripped, non-empty lines of the rewritten lyric. */
  function LyricLines(rawLyrics: string): seq<string> {
    NonEmpty(Stripped(Split(Rewrite(rawLyrics), '\n')))
  }

  /** Every line of `lyrics_list` is a stripped piece between two line
      breaks of the text. */
  lemma LyricLineIsStrippedPiece(text: string, x: string)
    requires x in NonEmpty(Stripped(Split(text, '\n')))
    ensures x != [] && Strip(x) == x && '\n' !in x
  {
    var parts := Split(text, '\n');
    var j :| 0 <= j < |parts| && Stripped(parts)[j] == x;
    StripIdempotent(parts[j]);
    assert '\n' !in parts[j];
  }

  /** `clean_lyrics(raw_lyrics)`: the distinct lines after the first, as a
      set (the order `list(set(...))` gives them is left out); each is
      non-empty, stripped and a single line. */
  function CleanLyrics(rawLyrics: string): (r: set<string>)
    ensures forall x :: x in r <==> exists i :: 1 <= i < |LyricLines(rawLyrics)| && LyricLines(rawLyrics)[i] == x
    ensures forall x :: x in r ==> x != "" && Strip(x) == x && '\n' !in x
  {
    var lines := LyricLines(rawLyrics);
    LyricLinesAreStripped(rawLyrics);
    set i | 1 <= i < |lines| :: lines[i]
  }

  lemma LyricLinesAreStripped(rawLyrics: string)
    ensures forall x :: x in LyricLines(rawLyrics) ==> x != "" && Strip(x) == x && '\n' !in x
  {
    var text := Rewrite(rawLyrics);
    forall x | x in LyricLines(rawLyrics) ensures x != "" && Strip(x) == x && '\n' !in x {
      LyricLineIsStrippedPiece(text, x);
    }
  }

  /** A credit stays a credit with text in front of it. */
  lemma CreditAfterPrefix(p: string, line: string)
    requires HasCredit(line)
    ensures HasCredit(p + line)
  {
    var i :| 0 <= i < |line| - 1 && line[i] == '作' && (line[i + 1] == '词' || line[i + 1] == '曲');
    assert (p + line)[|p| + i] == line[i] && (p + line)[|p| + i + 1] == line[i + 1];
  }

  /** A line without `作` has no credit. */
  lemma NoCreditWithout(line: string)
    requires '作' !in line
    ensures !HasCredit(line)
  {
  }

  /** A character other than `]` and a line break in front of a text does
      not move where a `]` stops the scan. */
  lemma CloseAfterOther(c: char, x: string)
    requires c != ']' && c != '\n'
    ensures TermEnd([c] + x, "]").None? <==> TermEnd(x, "]").None?
  {
    assert ([c] + x)[1..] == x;
    assert !StartsWith([c] + x, "]");
  }

  /** A text that starts with a line break has no `]` before one. */
  lemma CloseAfterBreak(x: string)
    ensures TermEnd(['\n'] + x, "]").None?
  {
    assert !StartsWith(['\n'] + x, "]");
  }

  /** When no `]` comes before the first line break of a text, none comes
      before the first line break of its rewrite either. */
  lemma {:induction false} RewriteKeepsUnclosed(t: string)
    requires TermEnd(t, "]").None?
    ensures TermEnd(Rewrite(t), "]").None?
    decreases |t|
  {
    if t != [] {
      var e, c := Step(t).0, Step(t).1;
      assert Rewrite(t) == e + Rewrite(t[c..]);
      if e == ['\n'] {
        CloseAfterBreak(Rewrite(t[c..]));
      } else {
        assert e == [t[0]] && c == 1 && t[0] != '\n';
        assert t[0] != ']' by {
          assert t[0] == ']' ==> StartsWith(t, "]");
        }
        assert t == [t[0]] + t[1..];
        CloseAfterOther(t[0], t[1..]);
        RewriteKeepsUnclosed(t[1..]);
        CloseAfterOther(t[0], Rewrite(t[1..]));
      }
    }
  }

  /** No `[` is closed by a `]` before the next line break. */
  predicate NoClosedSegment(r: string) {
    forall p :: 0 <= p < |r| && r[p] == '[' ==> TermEnd(r[p + 1..], "]").None?
  }

  /** Every single-line `[...]` segment is gone from the rewritten text: a
      `[` that is left has no `]` after it on its line. */
  lemma {:induction false} RewriteClosesNoSegment(s: string)
    ensures NoClosedSegment(Rewrite(s))
    decreases |s|
  {
    if s != [] {
      var e, c := Step(s).0, Step(s).1;
      var rest := Rewrite(s[c..]);
      var r := Rewrite(s);
      assert r == e + rest;
      RewriteClosesNoSegment(s[c..]);
      forall p | 0 <= p < |r| && r[p] == '['
        ensures TermEnd(r[p + 1..], "]").None?
      {
        if p < |e| {
          assert e == [s[0]] && c == 1 && s[0] == '[';
          assert TermEnd(s[1..], "]").None?;
          RewriteKeepsUnclosed(s[1..]);
          assert r[p + 1..] == rest;
        } else {
          assert r[p + 1..] == rest[p - |e| + 1..];
          assert rest[p - |e|] == r[p];
        }
      }
    }
  }

  /** The filter acts on the two parts of a list separately. */
  lemma {:induction false} NonEmptyAppend(a: seq<string>, b: seq<string>)
    ensures NonEmpty(a + b) == NonEmpty(a) + NonEmpty(b)
    decreases |b|
  {
    if b == [] {
      assert a + b == a;
    } else {
      var n := |b| - 1;
      assert (a + b)[..|a + b| - 1] == a + b[..n];
      assert (a + b)[|a + b| - 1] == b[n];
      NonEmptyAppend(a, b[..n]);
    }
  }

  /** A line that is a timestamp and text loses its timestamp. */
  lemma TimestampedLine(t: string, x: string)
    requires ']' !in t && '\n' !in t && '[' !in x && '\n' !in x
    ensures Rewrite(['['] + t + [']'] + x) == ['\n'] + x
  {
    TimestampReplaced(t, x);
    RewritePlainText(x);
  }

  /** The three lines of a timestamped lyric, rewritten. */
  lemma TimestampedRewrite(t0: string, lyricist: string, t1: string, composer: string, t2: string, words: string)
    requires ']' !in t0 && '\n' !in t0 && ']' !in t1 && '\n' !in t1 && ']' !in t2 && '\n' !in t2
    requires '[' !in lyricist && '\n' !in lyricist
    requires '\n' !in composer && HasCredit(composer)
    requires '[' !in words && '\n' !in words && '作' !in t2 && '作' !in words
    ensures Rewrite(Join([['['] + t0 + [']'] + lyricist, ['['] + t1 + [']'] + composer,
                          ['['] + t2 + [']'] + words], '\n'))
      == Join([[], lyricist, [], [], words], '\n')
  {
    var l0, l1, l2 := ['['] + t0 + [']'] + lyricist, ['['] + t1 + [']'] + composer, ['['] + t2 + [']'] + words;
    var lines := [l0, l1, l2];
    NotInTimestamped('\n', t0, lyricist);
    NotInTimestamped('\n', t1, composer);
    NotInTimestamped('\n', t2, words);
    RewriteByLines(lines);
    TimestampedLine(t0, lyricist);
    CreditAfterPrefix(['['] + t1 + [']'], composer);
    NotInTimestamped('作', t2, words);
    NoCreditWithout(l2);
    TimestampedLine(t2, words);
    RewrittenThree(lines);
    var r0, r1, r2 := Rewrite(l0), KeepLine(l1), KeepLine(l2);
    assert r1 == [];
    assert r2 == Rewrite(l2);
    JoinedPieces(lyricist, words);
    JoinOfEqual([r0, r1, r2], [['\n'] + lyricist, [], ['\n'] + words], '\n');
  }

  lemma JoinOfEqual(p: seq<string>, q: seq<string>, sep: char)
    requires |p| == 3 && |q| == 3 && p[0] == q[0] && p[1] == q[1] && p[2] == q[2]
    ensures Join(p, sep) == Join(q, sep)
  {
    assert p == q;
  }

  lemma NotInTimestamped(c: char, t: string, x: string)
    requires c != '[' && c != ']' && c !in t && c !in x
    ensures c !in ['['] + t + [']'] + x
  {
  }

  lemma RewrittenThree(lines: seq<string>)
    requires |lines| == 3
    ensures RewrittenLines(lines) == [Rewrite(lines[0]), KeepLine(lines[1]), KeepLine(lines[2])]
  {
  }

  /** The joined rewritten lines are the line breaks around the text. */
  lemma JoinedPieces(lyricist: string, words: string)
    ensures Join([['\n'] + lyricist, [], ['\n'] + words], '\n') == Join([[], lyricist, [], [], words], '\n')
  {
    var e: string := [];
    var nl: string := ['\n'];
    var p := [nl + lyricist, e, nl + words];
    assert p[1..] == [e, nl + words] && p[1..][1..] == [nl + words];
    var q := [e, lyricist, e, e, words];
    assert q[1..] == [lyricist, e, e, words] && q[1..][1..] == [e, e, words];
    assert q[1..][1..][1..] == [e, words] && q[1..][1..][1..][1..] == [words];
    assert Join(p[1..][1..], '\n') == nl + words;
    assert Join(p[1..], '\n') == e + nl + (nl + words);
    assert Join(p, '\n') == nl + lyricist + nl + (e + nl + (nl + words));
    assert Join(q[1..][1..][1..][1..], '\n') == words;
    assert Join(q[1..][1..][1..], '\n') == e + nl + words;
    assert Join(q[1..][1..], '\n') == e + nl + (e + nl + words);
    assert Join(q[1..], '\n') == lyricist + nl + (e + nl + (e + nl + words));
    assert Join(q, '\n') == e + nl + (lyricist + nl + (e + nl + (e + nl + words)));
  }

  /** The pieces of the rewritten lyric, stripped and filtered. */
  lemma TimestampedPieces(lyricist: string, words: string)
    requires '\n' !in lyricist && '\n' !in words && Strip(lyricist) != [] && Strip(words) != []
    ensures NonEmpty(Stripped(Split(Join([[], lyricist, [], [], words], '\n'), '\n')))
      == [Strip(lyricist), Strip(words)]
  {
    var pieces := [[], lyricist, [], [], words];
    SplitJoin(pieces, '\n');
    StrippedPieces(lyricist, words);
    FilteredPieces(Strip(lyricist), Strip(words));
  }

  lemma StrippedPieces(lyricist: string, words: string)
    ensures Stripped([[], lyricist, [], [], words]) == [[], Strip(lyricist), [], [], Strip(words)]
  {
    StrippedFive([[], lyricist, [], [], words]);
    StripEmpty();
  }

  lemma StrippedFive(p: seq<string>)
    requires |p| == 5
    ensures Stripped(p) == [Strip(p[0]), Strip(p[1]), Strip(p[2]), Strip(p[3]), Strip(p[4])]
  {
    FiveOf(Stripped(p), Strip(p[0]), Strip(p[1]), Strip(p[2]), Strip(p[3]), Strip(p[4]));
  }

  lemma FiveOf<T>(r: seq<T>, a: T, b: T, c: T, d: T, e: T)
    requires |r| == 5 && r[0] == a && r[1] == b && r[2] == c && r[3] == d && r[4] == e
    ensures r == [a, b, c, d, e]
  {
  }

  lemma StripEmpty()
    ensures Strip([]) == []
  {
  }

  lemma FilteredPieces(a: string, b: string)
    requires a != [] && b != []
    ensures NonEmpty([[], a, [], [], b]) == [a, b]
  {
    var e: string := [];
    var p1 := [e];
    var p2 := p1 + [a];
    var p3 := p2 + [e];
    var p4 := p3 + [e];
    var p5 := p4 + [b];
    NonEmptySnoc([], e);
    NonEmptySnoc(p1, a);
    NonEmptySnoc(p2, e);
    NonEmptySnoc(p3, e);
    NonEmptySnoc(p4, b);
    assert p5 == [e, a, e, e, b];
  }

  /** One more piece is appended to the kept pieces exactly when it is
      non-empty. */
  lemma NonEmptySnoc(p: seq<string>, x: string)
    ensures NonEmpty(p + [x]) == NonEmpty(p) + if x == [] then [] else [x]
  {
    assert (p + [x])[..|p|] == p;
  }

  /** A lyric in the site's timestamped form: a lyricist line, a composer
      line and one line of words. The timestamps go, the composer line goes
      with its credit, the lyricist line is the first and is skipped, and
      the words alone are left as a search term. */
  lemma TimestampedLyric(t0: string, lyricist: string, t1: string, composer: string, t2: string, words: string)
    requires ']' !in t0 && '\n' !in t0 && ']' !in t1 && '\n' !in t1 && ']' !in t2 && '\n' !in t2
    requires '[' !in lyricist && '\n' !in lyricist && Strip(lyricist) != []
    requires '\n' !in composer && HasCredit(composer)
    requires '[' !in words && '\n' !in words && '作' !in t2 && '作' !in words && Strip(words) != []
    ensures CleanLyrics(Join([['['] + t0 + [']'] + lyricist, ['['] + t1 + [']'] + composer,
                              ['['] + t2 + [']'] + words], '\n')) == {Strip(words)}
  {
    var raw := Join([['['] + t0 + [']'] + lyricist, ['['] + t1 + [']'] + composer,
                     ['['] + t2 + [']'] + words], '\n');
    TimestampedRewrite(t0, lyricist, t1, composer, t2, words);
    TimestampedPieces(lyricist, words);
    var lines := LyricLines(raw);
    assert lines == [Strip(lyricist), Strip(words)];
    OnlySecondLine(raw, Strip(words));
  }

  /** A lyric with two lines gives its second line alone. */
  lemma OnlySecondLine(raw: string, w: string)
    requires |LyricLines(raw)| == 2 && LyricLines(raw)[1] == w
    ensures CleanLyrics(raw) == {w}
  {
    var r := CleanLyrics(raw);
    assert w in r;
    forall x | x in r ensures x == w {
    }
  }
}
