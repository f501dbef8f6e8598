/** The whitespace clean-up applied to a page's visible text before it is stored
    (`get_visible_text_without_mutation`, lines 115-117):

        lines  = each line of text.splitlines(), stripped
        chunks = each piece of line.split("  "), stripped
        result = ' '.join of the non-empty chunks

    The text extraction itself (BeautifulSoup's `get_text`) is outside the model: the
    crawl receives the extracted text as part of the fetched page. */
module VisibleText {
  import opened Strings

  /** Python's `str.isspace` on one character (Unicode White_Space plus the
      information separators U+001C..U+001F). */
  predicate IsSpace(c: char)
  {
    var n := c as int;
    (0x09 <= n <= 0x0D) || (0x1C <= n <= 0x20) || n == 0x85 || n == 0xA0 || n == 0x1680
    || (0x2000 <= n <= 0x200A) || n == 0x2028 || n == 0x2029 || n == 0x202F
    || n == 0x205F || n == 0x3000
  }

  /** The line boundaries of Python's `str.splitlines` ("\r\n" counts as one boundary). */
  predicate IsLineBreak(c: char)
  {
    var n := c as int;
    (0x0A <= n <= 0x0D) || (0x1C <= n <= 0x1E) || n == 0x85 || n == 0x2028 || n == 0x2029
  }

  predicate NoBreak(s: string) { forall k :: 0 <= k < |s| ==> !IsLineBreak(s[k]) }

  predicate NoDoubleSpace(s: string) { forall k :: 0 <= k < |s| - 1 ==> !(s[k] == ' ' && s[k + 1] == ' ') }

  /** Non-empty, and neither end is whitespace. */
  predicate Trimmed(s: string) { s != "" && !IsSpace(s[0]) && !IsSpace(s[|s| - 1]) }

  /** What survives the clean-up: the shape of every chunk and of the whole result. */
  predicate IsChunk(s: string) { Trimmed(s) && NoBreak(s) && NoDoubleSpace(s) }

  // ----- splitlines -----

  /** Index of the first line boundary at or after `from`, or `|s|`. */
  function BreakFrom(s: string, from: nat): (i: nat)
    requires from <= |s|
    ensures from <= i <= |s|
    ensures i < |s| ==> IsLineBreak(s[i])
    ensures forall k :: from <= k < i ==> !IsLineBreak(s[k])
    decreases |s| - from
  {
    if from == |s| || IsLineBreak(s[from]) then from else BreakFrom(s, from + 1)
  }

  /** Where the next line starts after the boundary at `i`. */
  function NextLine(s: string, i: nat): (j: nat)
    requires i < |s|
    ensures i < j <= |s|
  {
    if s[i] == '\r' && i + 1 < |s| && s[i + 1] == '\n' then i + 2 else i + 1
  }

  /** `s.splitlines()`: no lines for "", and a final boundary opens no empty line. */
  function SplitLines(s: string): (r: seq<string>)
    ensures forall k :: 0 <= k < |r| ==> NoBreak(r[k])
    decreases |s|
  {
    if s == "" then []
    else
      var i := BreakFrom(s, 0);
      if i == |s| then [s] else [s[..i]] + SplitLines(s[NextLine(s, i)..])
  }

  // ----- strip -----

  /** `s.lstrip()`. */
  function LStrip(s: string): (r: string)
    ensures |r| <= |s| && r == s[|s| - |r|..]
    ensures forall k :: 0 <= k < |s| - |r| ==> IsSpace(s[k])
    ensures r == [] || !IsSpace(r[0])
  {
    if s != [] && IsSpace(s[0]) then
      var r := LStrip(s[1..]);
      assert s[1..][|s| - 1 - |r|..] == s[|s| - |r|..];
      assert forall k :: 1 <= k < |s| - |r| ==> s[1..][k - 1] == s[k];
      r
    else s
  }

  /** `s.rstrip()`. */
  function RStripSpace(s: string): (r: string)
    ensures |r| <= |s| && r == s[..|r|]
    ensures forall k :: |r| <= k < |s| ==> IsSpace(s[k])
    ensures r == [] || !IsSpace(r[|r| - 1])
  {
    if s != [] && IsSpace(s[|s| - 1]) then RStripSpace(s[..|s| - 1]) else s
  }

  /** `s.strip()`: the result is a slice of `s` that is empty or `Trimmed`. */
  function Strip(s: string): (r: string)
    ensures r == "" || Trimmed(r)
    ensures exists a, b :: 0 <= a <= b <= |s| && r == s[a..b]
  {
    var l := LStrip(s);
    var r := RStripSpace(l);
    assert r == s[|s| - |l|..|s| - |l| + |r|];
    r
  }

  // ----- split("  ") -----

  /** Index of the first "  " at or after `from`, or `|s|`. */
  function DoubleFrom(s: string, from: nat): (i: nat)
    requires from <= |s|
    ensures from <= i <= |s|
    ensures i < |s| ==> i + 1 < |s| && s[i] == ' ' && s[i + 1] == ' '
    ensures forall k :: from <= k < i && k + 1 < |s| ==> !(s[k] == ' ' && s[k + 1] == ' ')
    decreases |s| - from
  {
    if from + 1 >= |s| then |s|
    else if s[from] == ' ' && s[from + 1] == ' ' then from
    else DoubleFrom(s, from + 1)
  }

  /** `s.split("  ")`: left to right, non-overlapping; never an empty list. */
  function SplitDouble(s: string): (r: seq<string>)
    ensures |r| >= 1
    ensures forall k :: 0 <= k < |r| ==> NoDoubleSpace(r[k])
    ensures NoBreak(s) ==> forall k :: 0 <= k < |r| ==> NoBreak(r[k])
    decreases |s|
  {
    var i := DoubleFrom(s, 0);
    if i == |s| then [s] else [s[..i]] + SplitDouble(s[i + 2..])
  }

  // ----- the clean-up -----

  /** The stripped phrases that are not empty, in order. */
  function Kept(phrases: seq<string>): (r: seq<string>)
    ensures |r| <= |phrases|
    ensures forall k :: 0 <= k < |r| ==> Trimmed(r[k])
  {
    if phrases == [] then []
    else
      var c := Strip(phrases[0]);
      (if c == "" then [] else [c]) + Kept(phrases[1..])
  }

  /** The chunks one line contributes. */
  function LineChunks(line: string): seq<string>
  {
    Kept(SplitDouble(Strip(line)))
  }

  function Chunks(lines: seq<string>): seq<string>
  {
    if lines == [] then [] else LineChunks(lines[0]) + Chunks(lines[1..])
  }

  /** Lines 115-117 of the scraper: the text that is stored for a page. */
  function Cleanup(text: string): string
  {
    JoinWith(Chunks(SplitLines(text)), " ")
  }

  // ----- shape of the result -----

  predicate AllChunks(cs: seq<string>) { forall k :: 0 <= k < |cs| ==> IsChunk(cs[k]) }

  predicate AllPlain(ps: seq<string>) { forall k :: 0 <= k < |ps| ==> NoBreak(ps[k]) && NoDoubleSpace(ps[k]) }

  lemma AllChunksConcat(xs: seq<string>, ys: seq<string>)
    requires AllChunks(xs) && AllChunks(ys)
    ensures AllChunks(xs + ys)
  {
    assert forall k :: |xs| <= k < |xs + ys| ==> (xs + ys)[k] == ys[k - |xs|];
  }

  /** A slice keeps the "no boundary" and "no double space" properties of the whole. */
  lemma SliceKeeps(s: string, c: string)
    requires exists a, b :: 0 <= a <= b <= |s| && c == s[a..b]
    ensures NoBreak(s) ==> NoBreak(c)
    ensures NoDoubleSpace(s) ==> NoDoubleSpace(c)
  {
    var a, b :| 0 <= a <= b <= |s| && c == s[a..b];
    assert forall k :: 0 <= k < |c| ==> c[k] == s[a + k];
  }

  lemma {:induction false} KeptChunks(phrases: seq<string>)
    requires AllPlain(phrases)
    ensures AllChunks(Kept(phrases))
  {
    if phrases != [] {
      var c := Strip(phrases[0]);
      var head := if c == "" then [] else [c];
      StrippedChunk(phrases[0], head);
      PlainTail(phrases);
      KeptChunks(phrases[1..]);
      AllChunksConcat(head, Kept(phrases[1..]));
      assert Kept(phrases) == head + Kept(phrases[1..]);
    }
  }

  /** A stripped plain phrase, kept only when it is not empty, is made of chunks. */
  lemma StrippedChunk(p: string, head: seq<string>)
    requires NoBreak(p) && NoDoubleSpace(p)
    requires head == if Strip(p) == "" then [] else [Strip(p)]
    ensures AllChunks(head)
  {
    SliceKeeps(p, Strip(p));
  }

  lemma PlainTail(ps: seq<string>)
    requires ps != [] && AllPlain(ps)
    ensures AllPlain(ps[1..])
  {
    assert forall k :: 0 <= k < |ps[1..]| ==> ps[1..][k] == ps[k + 1];
  }

  /** Every chunk taken from a line without boundaries is a chunk. */
  lemma LineChunksAreChunks(line: string)
    requires NoBreak(line)
    ensures AllChunks(LineChunks(line))
  {
    var s := Strip(line);
    SliceKeeps(line, s);
    KeptChunks(SplitDouble(s));
  }

  lemma {:induction false} ChunksAreChunks(lines: seq<string>)
    requires forall k :: 0 <= k < |lines| ==> NoBreak(lines[k])
    ensures AllChunks(Chunks(lines))
  {
    if lines != [] {
      LineChunksAreChunks(lines[0]);
      assert forall k :: 0 <= k < |lines[1..]| ==> lines[1..][k] == lines[k + 1];
      ChunksAreChunks(lines[1..]);
      AllChunksConcat(LineChunks(lines[0]), Chunks(lines[1..]));
    }
  }

  /** Joining chunks with single spaces yields a chunk. */
  lemma {:induction false} JoinChunks(parts: seq<string>)
    requires |parts| >= 1
    requires forall k :: 0 <= k < |parts| ==> IsChunk(parts[k])
    ensures IsChunk(JoinWith(parts, " "))
  {
    if |parts| > 1 {
      var a := parts[0];
      var b := JoinWith(parts[1..], " ");
      JoinChunks(parts[1..]);
      var j := a + " " + b;
      assert j == JoinWith(parts, " ");
      forall k | 0 <= k < |j| - 1
        ensures !(j[k] == ' ' && j[k + 1] == ' ')
      {
        if k < |a| - 1 {
          assert j[k] == a[k] && j[k + 1] == a[k + 1];
        } else if k == |a| - 1 {
          assert j[k] == a[|a| - 1];
        } else if k == |a| {
          assert j[k + 1] == b[0];
        } else {
          assert j[k] == b[k - |a| - 1] && j[k + 1] == b[k - |a|];
        }
      }
      assert j[|j| - 1] == b[|b| - 1];
      forall k | 0 <= k < |j|
        ensures !IsLineBreak(j[k])
      {
        if k < |a| { assert j[k] == a[k]; }
        else if k > |a| { assert j[k] == b[k - |a| - 1]; }
      }
    }
  }

  /** The stored text is empty, or it has no line boundaries, no whitespace at either
      end and no two spaces in a row. */
  lemma CleanupShape(text: string)
    ensures Cleanup(text) == "" || IsChunk(Cleanup(text))
  {
    var cs := Chunks(SplitLines(text));
    ChunksAreChunks(SplitLines(text));
    if |cs| >= 1 {
      JoinChunks(cs);
    }
  }

  // ----- the clean-up is a fixpoint on its own output -----

  lemma NoBreakOneLine(s: string)
    requires s != "" && NoBreak(s)
    ensures SplitLines(s) == [s]
  {
    assert BreakFrom(s, 0) == |s|;
  }

  lemma NoDoubleOnePhrase(s: string)
    requires NoDoubleSpace(s)
    ensures SplitDouble(s) == [s]
  {
    assert DoubleFrom(s, 0) == |s|;
  }

  lemma TrimmedStrip(s: string)
    requires Trimmed(s)
    ensures Strip(s) == s
  {
    assert LStrip(s) == s;
    assert RStripSpace(s) == s;
  }

  /** Cleaning a chunk gives the chunk back. */
  lemma ChunkCleanup(s: string)
    requires IsChunk(s)
    ensures Cleanup(s) == s
  {
    NoBreakOneLine(s);
    TrimmedStrip(s);
    NoDoubleOnePhrase(s);
    assert Kept([s]) == [s];
    assert LineChunks(s) == [s];
    assert Chunks([s]) == [s];
  }

  /** Cleaning the stored text again changes nothing. */
  lemma CleanupIdempotent(text: string)
    ensures Cleanup(Cleanup(text)) == Cleanup(text)
  {
    CleanupShape(text);
    if Cleanup(text) != "" {
      ChunkCleanup(Cleanup(text));
    }
  }

  // ----- only whitespace is touched -----

  /** The characters of `s` that are not whitespace, in order. */
  function NonSpace(s: string): string
  {
    if s == "" then "" else Keep(s[0]) + NonSpace(s[1..])
  }

  function Keep(c: char): string { if IsSpace(c) then "" else [c] }

  function NonSpaceAll(parts: seq<string>): string
  {
    if parts == [] then "" else NonSpace(parts[0]) + NonSpaceAll(parts[1..])
  }

  lemma {:induction false} NonSpaceConcat(a: string, b: string)
    ensures NonSpace(a + b) == NonSpace(a) + NonSpace(b)
  {
    if a == "" {
      assert a + b == b;
    } else {
      assert (a + b)[0] == a[0];
      assert (a + b)[1..] == a[1..] + b;
      NonSpaceConcat(a[1..], b);
      assert NonSpace(a + b) == Keep(a[0]) + (NonSpace(a[1..]) + NonSpace(b));
      ConcatAssoc(Keep(a[0]), NonSpace(a[1..]), NonSpace(b));
    }
  }

  lemma {:induction false} NonSpaceOfSpaces(s: string)
    requires forall k :: 0 <= k < |s| ==> IsSpace(s[k])
    ensures NonSpace(s) == ""
  {
    if s != "" {
      NonSpaceOfSpaces(s[1..]);
    }
  }

  lemma {:induction false} NonSpaceAllConcat(xs: seq<string>, ys: seq<string>)
    ensures NonSpaceAll(xs + ys) == NonSpaceAll(xs) + NonSpaceAll(ys)
  {
    if xs == [] {
      assert xs + ys == ys;
    } else {
      assert (xs + ys)[0] == xs[0];
      assert (xs + ys)[1..] == xs[1..] + ys;
      NonSpaceAllConcat(xs[1..], ys);
      assert NonSpaceAll(xs + ys) == NonSpace(xs[0]) + (NonSpaceAll(xs[1..]) + NonSpaceAll(ys));
      ConcatAssoc(NonSpace(xs[0]), NonSpaceAll(xs[1..]), NonSpaceAll(ys));
    }
  }

  lemma NonSpaceAllCons(x: string, xs: seq<string>)
    ensures NonSpaceAll([x] + xs) == NonSpace(x) + NonSpaceAll(xs)
  {
    assert ([x] + xs)[1..] == xs;
  }

  /** Cutting out a run of whitespace `s[i..j]` leaves the text unchanged. */
  lemma NonSpaceSplice(s: string, i: nat, j: nat)
    requires i <= j <= |s|
    requires forall k :: i <= k < j ==> IsSpace(s[k])
    ensures NonSpace(s) == NonSpace(s[..i]) + NonSpace(s[j..])
  {
    var x, y, z := s[..i], s[i..j], s[j..];
    SpacesVanish(x, s, i, j);
    Slices3(s, i, j);
    NonSpaceConcat(x + y, z);
  }

  /** Appending the whitespace run `s[i..j]` to `x` adds no text. */
  lemma SpacesVanish(x: string, s: string, i: nat, j: nat)
    requires i <= j <= |s|
    requires forall k :: i <= k < j ==> IsSpace(s[k])
    ensures NonSpace(x + s[i..j]) == NonSpace(x)
  {
    var y := s[i..j];
    forall k | 0 <= k < |y| ensures IsSpace(y[k]) {
      assert y[k] == s[i + k];
    }
    NonSpaceOfSpaces(y);
    NonSpaceConcat(x, y);
    assert NonSpace(x) + "" == NonSpace(x);
  }

  lemma {:induction false} LStripKeepsText(s: string)
    ensures NonSpace(LStrip(s)) == NonSpace(s)
  {
    if s != [] && IsSpace(s[0]) {
      LStripKeepsText(s[1..]);
    }
  }

  lemma {:induction false} RStripKeepsText(s: string)
    ensures NonSpace(RStripSpace(s)) == NonSpace(s)
  {
    if s != [] && IsSpace(s[|s| - 1]) {
      var init := s[..|s| - 1];
      RStripKeepsText(init);
      NonSpaceSplice(s, |s| - 1, |s|);
      assert s[..|s| - 1] == init;
      assert NonSpace(s[|s|..]) == "";
    }
  }

  lemma StripKeepsText(s: string)
    ensures NonSpace(Strip(s)) == NonSpace(s)
  {
    LStripKeepsText(s);
    RStripKeepsText(LStrip(s));
  }

  /** The one or two characters of a line boundary are whitespace. */
  lemma BoundaryIsSpace(s: string, i: nat)
    requires i < |s| && IsLineBreak(s[i])
    ensures forall k :: i <= k < NextLine(s, i) ==> IsSpace(s[k])
  {
  }

  lemma {:induction false} SplitLinesKeepsText(s: string)
    ensures NonSpaceAll(SplitLines(s)) == NonSpace(s)
    decreases |s|
  {
    if s != "" {
      var i := BreakFrom(s, 0);
      if i == |s| {
        NonSpaceAllCons(s, []);
      } else {
        var j := NextLine(s, i);
        SplitLinesKeepsText(s[j..]);
        NonSpaceAllCons(s[..i], SplitLines(s[j..]));
        BoundaryIsSpace(s, i);
        NonSpaceSplice(s, i, j);
      }
    }
  }

  lemma {:induction false} SplitDoubleKeepsText(s: string)
    ensures NonSpaceAll(SplitDouble(s)) == NonSpace(s)
    decreases |s|
  {
    var i := DoubleFrom(s, 0);
    if i == |s| {
      NonSpaceAllCons(s, []);
    } else {
      SplitDoubleKeepsText(s[i + 2..]);
      NonSpaceAllCons(s[..i], SplitDouble(s[i + 2..]));
      NonSpaceSplice(s, i, i + 2);
    }
  }


  lemma {:induction false} KeptKeepsText(phrases: seq<string>)
    ensures NonSpaceAll(Kept(phrases)) == NonSpaceAll(phrases)
  {
    if phrases != [] {
      var c := Strip(phrases[0]);
      StripKeepsText(phrases[0]);
      KeptKeepsText(phrases[1..]);
      var head := if c == "" then [] else [c];
      assert Kept(phrases) == head + Kept(phrases[1..]);
      NonSpaceAllConcat(head, Kept(phrases[1..]));
      assert NonSpaceAll(head) == NonSpace(c) by {
        if c != "" {
          assert NonSpaceAll([c]) == NonSpace(c) + NonSpaceAll([]);
        }
      }
    }
  }

  lemma {:induction false} ChunksKeepText(lines: seq<string>)
    ensures NonSpaceAll(Chunks(lines)) == NonSpaceAll(lines)
  {
    if lines != [] {
      var line := lines[0];
      ChunksKeepText(lines[1..]);
      NonSpaceAllConcat(LineChunks(line), Chunks(lines[1..]));
      StripKeepsText(line);
      SplitDoubleKeepsText(Strip(line));
      KeptKeepsText(SplitDouble(Strip(line)));
    }
  }

  lemma {:induction false} JoinKeepsText(parts: seq<string>)
    ensures NonSpace(JoinWith(parts, " ")) == NonSpaceAll(parts)
  {
    if |parts| == 1 {
      assert NonSpaceAll(parts) == NonSpace(parts[0]) + NonSpaceAll(parts[1..]);
    } else if |parts| > 1 {
      JoinKeepsText(parts[1..]);
      var rest := JoinWith(parts[1..], " ");
      assert JoinWith(parts, " ") == parts[0] + " " + rest;
      NonSpaceConcat(parts[0] + " ", rest);
      NonSpaceConcat(parts[0], " ");
      NonSpaceOfSpaces(" ");
      calc {
        NonSpace(parts[0] + " " + rest);
        NonSpace(parts[0] + " ") + NonSpace(rest);
        NonSpace(parts[0]) + NonSpace(" ") + NonSpaceAll(parts[1..]);
        { assert NonSpace(parts[0]) + "" == NonSpace(parts[0]); }
        NonSpace(parts[0]) + NonSpaceAll(parts[1..]);
      }
    }
  }

  /** The clean-up only removes or rewrites whitespace: every other character of the
      extracted text is kept, in order, and nothing else is added. */
  lemma CleanupKeepsText(text: string)
    ensures NonSpace(Cleanup(text)) == NonSpace(text)
  {
    var lines := SplitLines(text);
    JoinKeepsText(Chunks(lines));
    ChunksKeepText(lines);
    SplitLinesKeepsText(text);
  }
}
