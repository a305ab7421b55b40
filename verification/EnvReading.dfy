/** What the .env reader makes of any text, not only of what the printers write. A line sets something
    exactly when it is a key, white space, an equals sign and a value; the value is trimmed, cut at an
    inline comment and unquoted, in that order; text splits at every kind of line break that Python
    knows; and a value can be given to a key by some file exactly when it is one line without an inline
    comment in it, quotes and white space at its ends included. */
module EnvReading {
  import opened EnvFile
  import opened EnvLines
  import opened Options

  // ----- characters ---------------------------------------------------------------------------

  const LETTERS: string := "ABCDEFGHIJKLMNOPQRSTUVWXYZ_"
  const DIGITS: string := "0123456789"

  /** A key is a word of capital letters, digits and underscores that does not start with a digit. */
  lemma KeyMeaning(s: string)
    ensures IsKey(s) <==> s != "" && s[0] in LETTERS && forall i :: 0 <= i < |s| ==> s[i] in LETTERS || s[i] in DIGITS
  {
    forall c: char ensures c in LETTERS <==> IsKeyStart(c) { LetterMeaning(c); }
    forall c: char ensures c in DIGITS <==> '0' <= c <= '9' { DigitMeaning(c); }
  }

  lemma LetterMeaning(c: char)
    ensures c in LETTERS <==> IsKeyStart(c)
  {
    assert LETTERS[26] == '_';
    if 'A' <= c <= 'M' { assert LETTERS[c as int - 65] == c; }
    if 'N' <= c <= 'Z' { assert LETTERS[c as int - 65] == c; }
  }

  lemma DigitMeaning(c: char)
    ensures c in DIGITS <==> '0' <= c <= '9'
  {
    if '0' <= c <= '9' { assert DIGITS[c as int - 48] == c; }
  }

  const SPACES: string :=
    "\t\n\U{000B}\U{000C}\r\U{001C}\U{001D}\U{001E}\U{001F} \U{0085}\U{00A0}\U{1680}"
    + "\U{2000}\U{2001}\U{2002}\U{2003}\U{2004}\U{2005}\U{2006}\U{2007}\U{2008}\U{2009}\U{200A}"
    + "\U{2028}\U{2029}\U{202F}\U{205F}\U{3000}"
  const BREAKS: string := "\n\U{000B}\U{000C}\r\U{001C}\U{001D}\U{001E}\U{0085}\U{2028}\U{2029}"

  /** White space and line breaks, character by character. */
  lemma SpaceMeaning(c: char)
    ensures IsBreak(c) <==> c in BREAKS
    ensures IsSpace(c) <==> c in SPACES
  {
    if 0x2000 <= c as int <= 0x200A { assert SPACES[c as int - 0x2000 + 13] == c; }
  }

  predicate AllSpace(s: string) {
    forall i :: 0 <= i < |s| ==> IsSpace(s[i])
  }

  // ----- stripping ----------------------------------------------------------------------------

  lemma {:induction false} DarkFromIs(s: string, i: nat, m: nat)
    requires i <= m <= |s| && (forall j :: i <= j < m ==> IsSpace(s[j])) && (m < |s| ==> !IsSpace(s[m]))
    ensures DarkFrom(s, i) == m
    decreases m - i
  {
    if i < m { DarkFromIs(s, i + 1, m); }
  }

  lemma {:induction false} DarkToIs(s: string, m: nat, n: nat)
    requires m <= n <= |s| && (forall j :: m <= j < n ==> IsSpace(s[j])) && (m > 0 ==> !IsSpace(s[m - 1]))
    ensures DarkTo(s, n) == m
  {
    if m < n { DarkToIs(s, m, n - 1); }
  }

  lemma LStripIs(a: string, w: string)
    requires AllSpace(a) && (w != "" ==> !IsSpace(w[0]))
    ensures LStrip(a + w) == w
  {
    DarkFromIs(a + w, 0, |a|);
  }

  lemma RStripIs(w: string, b: string)
    requires AllSpace(b) && (w != "" ==> !IsSpace(w[|w| - 1]))
    ensures RStrip(w + b) == w
  {
    DarkToIs(w + b, |w|, |w + b|);
  }

  /** Stripping takes the white space off both ends, and nothing else. */
  lemma StripExact(a: string, w: string, b: string)
    requires AllSpace(a) && AllSpace(b) && Trimmed(w)
    ensures Strip(a + w + b) == w
  {
    if w == "" {
      assert a + w + b == (a + b) + "";
      LStripIs(a + b, "");
    } else {
      assert a + w + b == a + (w + b);
      LStripIs(a, w + b);
      RStripIs(w, b);
    }
  }

  // ----- lines --------------------------------------------------------------------------------

  /** One line break: CR LF, or any other break character. */
  predicate IsLineBreak(br: string, rest: string) {
    br == "\r\n" || (|br| == 1 && IsBreak(br[0]) && !(br == "\r" && rest != "" && rest[0] == '\n'))
  }

  /** A line ends at its first break, of whatever kind. */
  lemma SplitAtBreak(l: string, br: string, rest: string)
    requires OneLine(l) && IsLineBreak(br, rest)
    ensures SplitLines(l + br + rest) == [l] + SplitLines(rest)
  {
    var s := l + br + rest;
    assert s[..|l|] == l && s[|l|..][..|br|] == br && s[|l| + |br|..] == rest;
    assert s[|l|] == br[0];
    LineEndIs(s, 0, |l|);
  }

  // ----- one line -----------------------------------------------------------------------------

  /** The line is a key, white space, an equals sign and a value. */
  predicate Sets(line: string, key: string, gap: string, v: string) {
    IsKey(key) && AllSpace(gap) && line == key + gap + "=" + v
  }

  /** A line sets something only if it has that form ... */
  lemma ParsedSets(raw: string) returns (gap: string, v: string)
    ensures ParseLine(raw).Some? ==>
              Sets(Strip(raw), ParseLine(raw).value.key, gap, v) && ParseLine(raw).value.value == ReadValue(v)
  {
    gap, v := "", "";
    if ParseLine(raw).Some? {
      var line := Strip(raw);
      var n := KeyLength(line, 0);
      gap := PartsSet(line, n, LStrip(line[n..]));
      v := LStrip(line[n..])[1..];
    }
  }

  lemma PartsSet(line: string, n: nat, rest: string) returns (gap: string)
    requires line != "" && IsKeyStart(line[0]) && n == KeyLength(line, 0) && rest == LStrip(line[n..])
    requires rest != "" && rest[0] == '='
    ensures Sets(line, line[..n], gap, rest[1..])
  {
    KeyFound(line);
    gap := GapOf(line[n..]);
    Pieces(line, n, gap, rest[1..]);
  }

  lemma KeyFound(line: string)
    requires line != "" && IsKeyStart(line[0])
    ensures IsKey(line[..KeyLength(line, 0)])
  {
    KeyLengthFree(line, 0);
  }

  lemma Pieces(line: string, n: nat, gap: string, v: string)
    requires n <= |line| && line[n..] == gap + ("=" + v)
    ensures line == line[..n] + gap + "=" + v
  {
    assert line == line[..n] + line[n..];
  }

  lemma GapOf(rest: string) returns (gap: string)
    ensures AllSpace(gap) && rest == gap + LStrip(rest)
  {
    DarkFromFree(rest, 0);
    gap := rest[..DarkFrom(rest, 0)];
  }

  lemma {:induction false} KeyLengthFree(s: string, i: nat)
    requires i <= |s|
    ensures forall j :: i <= j < KeyLength(s, i) ==> IsKeyChar(s[j])
    ensures i < |s| && IsKeyChar(s[i]) ==> KeyLength(s, i) > i
    decreases |s| - i
  {
    if i < |s| && IsKeyChar(s[i]) { KeyLengthFree(s, i + 1); }
  }

  lemma {:induction false} DarkFromFree(s: string, i: nat)
    requires i <= |s|
    ensures forall j :: i <= j < DarkFrom(s, i) ==> IsSpace(s[j])
    decreases |s| - i
  {
    if i < |s| && IsSpace(s[i]) { DarkFromFree(s, i + 1); }
  }

  /** ... and a line of that form sets that key to what its value reads as. */
  lemma SetsParsed(raw: string, key: string, gap: string, v: string)
    requires Sets(Strip(raw), key, gap, v)
    ensures ParseLine(raw) == Some(Pair(key, ReadValue(v)))
  {
    var rest := gap + ("=" + v);
    KeyThenGap(key, gap, "=" + v);
    assert Strip(raw) == key + rest;
    assert (key + rest)[0] == key[0] && ("=" + v)[1..] == v;
  }

  lemma KeyThenGap(key: string, gap: string, tail: string)
    requires IsKey(key) && AllSpace(gap) && tail != "" && tail[0] == '='
    ensures var line := key + (gap + tail);
            KeyLength(line, 0) == |key| && line[..|key|] == key && line[|key|..] == gap + tail && LStrip(gap + tail) == tail
  {
    var rest := gap + tail;
    assert rest[0] == if gap == "" then '=' else gap[0];
    KeyLengthOf(key, rest, 0);
    LStripIs(gap, tail);
  }

  // ----- values -------------------------------------------------------------------------------

  /** An inline comment starts with a space and a number sign. */
  lemma CommentStartMeaning(s: string, i: nat)
    ensures CommentStart(s, i) <==> i + 2 <= |s| && s[i..i + 2] == " #"
  {}

  /** Quoted are the two lone quotes and everything between two quotes of one kind. */
  lemma QuotedMeaning(s: string)
    ensures Quoted(s) <==>
              || s == "\"" || s == "'"
              || (|s| >= 2 && (s == "\"" + s[1..|s| - 1] + "\"" || s == "'" + s[1..|s| - 1] + "'"))
  {
    if |s| >= 2 {
      var inner := s[1..|s| - 1];
      assert s == [s[0]] + inner + [s[|s| - 1]];
    }
  }

  lemma {:induction false} CommentAtFree(s: string, i: nat)
    requires i <= |s|
    ensures forall j :: i <= j < CommentAt(s, i) ==> !CommentStart(s, j)
    ensures CommentAt(s, i) < |s| ==> CommentStart(s, CommentAt(s, i))
    decreases |s| - i
  {
    if i < |s| && !CommentStart(s, i) { CommentAtFree(s, i + 1); }
  }

  lemma {:induction false} CommentAtIs(s: string, i: nat, m: nat)
    requires i <= m <= |s| && (forall j :: i <= j < m ==> !CommentStart(s, j)) && (m < |s| ==> CommentStart(s, m))
    ensures CommentAt(s, i) == m
    decreases m - i
  {
    if i < m { CommentAtIs(s, i + 1, m); }
  }

  /** An inline comment, from the first " #" on, is not part of the value, and neither is the white
      space before it. */
  lemma CommentIsCut(w: string, gap: string, comment: string)
    requires AllSpace(gap) && (w != "" ==> !IsSpace(w[|w| - 1])) && NoComment(w + gap)
    ensures CutComment(w + gap + " #" + comment) == w
  {
    var s := w + gap + " #" + comment;
    var m := |w + gap|;
    assert s[..m] == w + gap && s[m] == ' ' && s[m + 1] == '#';
    forall j | 0 <= j < m ensures !CommentStart(s, j) {
      assert s[j] == (w + gap)[j];
      if j + 1 < m { assert s[j + 1] == (w + gap)[j + 1] && !CommentStart(w + gap, j); }
    }
    CommentAtIs(s, 0, m);
    RStripIs(w, gap);
  }

  function InQuotes(v: string): string {
    "\"" + v + "\""
  }

  /** A quoted value keeps its white space and its own quotes, but not a " #". */
  lemma QuotedReads(v: string)
    requires NoComment(v)
    ensures ReadValue(InQuotes(v)) == v
  {
    var s := InQuotes(v);
    StripExact("", s, "");
    assert "" + s + "" == s;
    forall j | 0 <= j < |s| ensures !CommentStart(s, j) {
      if 0 < j < |v| { assert s[j] == v[j - 1] && s[j + 1] == v[j] && !CommentStart(v, j - 1); }
    }
    CommentAtIs(s, 0, |s|);
    assert s[1..|s| - 1] == v;
  }

  lemma SliceNoComment(s: string, i: nat, j: nat)
    requires i <= j <= |s| && forall m :: i <= m < j ==> !CommentStart(s, m) || m + 1 == j
    ensures NoComment(s[i..j])
  {
    forall m | 0 <= m < j - i ensures !CommentStart(s[i..j], m) {
      if m + 1 < j - i {
        assert s[i..j][m] == s[i + m] && s[i..j][m + 1] == s[i + m + 1];
        assert !CommentStart(s, i + m);
      }
    }
  }

  /** Nothing that is read contains a " #". */
  lemma ReadHasNoComment(s: string)
    ensures NoComment(ReadValue(s))
  {
    var val := Strip(s);
    CommentAtFree(val, 0);
    SliceNoComment(val, 0, CommentAt(val, 0));
    var cut := CutComment(val);
    assert NoComment(cut) by {
      if CommentAt(val, 0) < |val| {
        var head := val[0..CommentAt(val, 0)];
        assert head == val[..CommentAt(val, 0)];
        SliceNoComment(head, 0, DarkTo(head, |head|));
        assert head[0..DarkTo(head, |head|)] == RStrip(head);
      }
    }
    if Quoted(cut) && |cut| > 1 { SliceNoComment(cut, 1, |cut| - 1); }
  }

  /** The text sets this key to this value. */
  ghost predicate Readable(key: string, v: string) {
    exists text :: key in Read(text) && Read(text)[key] == v
  }

  predicate AllNoComment(out: Env) {
    forall k :: k in out ==> NoComment(out[k])
  }

  lemma {:induction false} ReadToNoComment(lines: seq<string>, n: nat)
    requires n <= |lines|
    ensures AllNoComment(ReadTo(lines, n))
  {
    if n > 0 {
      ReadToNoComment(lines, n - 1);
      var gap, v := ParsedSets(lines[n - 1]);
      ReadHasNoComment(v);
    }
  }

  /** Some file sets a key to a value if and only if the value is one line without a " #": quoted, every
      such value can be written, and no other can be in any way. */
  lemma ReadableIff(key: string, v: string)
    requires IsKey(key)
    ensures Readable(key, v) <==> OneLine(v) && NoComment(v)
  {
    if OneLine(v) && NoComment(v) {
      var text := key + "=" + InQuotes(v);
      SettingReads(key, v);
      assert key in Read(text) && Read(text)[key] == v;
    }
    if Readable(key, v) {
      var text :| key in Read(text) && Read(text)[key] == v;
      ReadsOneLine(text);
      ReadToNoComment(SplitLines(text), |SplitLines(text)|);
    }
  }

  lemma SettingReads(key: string, v: string)
    requires IsKey(key) && OneLine(v) && NoComment(v)
    ensures Read(key + "=" + InQuotes(v)) == map[key := v]
  {
    var line := key + "=" + InQuotes(v);
    QuotedParses(key, v);
    LineIsOne(key, v);
    SplitOnly(line);
    assert ReadTo([line], 1) == Assign(ReadTo([line], 0), line);
  }

  lemma QuotedParses(key: string, v: string)
    requires IsKey(key) && NoComment(v)
    ensures ParseLine(key + "=" + InQuotes(v)) == Some(Pair(key, v))
  {
    var line := key + "=" + InQuotes(v);
    TrimmedEnds(key, "=" + InQuotes(v));
    StripExact("", line, "");
    assert "" + line + "" == line && line == key + "" + "=" + InQuotes(v);
    SetsParsed(line, key, "", InQuotes(v));
    QuotedReads(v);
  }

  lemma TrimmedEnds(key: string, rest: string)
    requires IsKey(key) && rest != "" && !IsSpace(rest[|rest| - 1])
    ensures Trimmed(key + rest)
  {
    assert (key + rest)[0] == key[0];
  }

  lemma LineIsOne(key: string, v: string)
    requires IsKey(key) && OneLine(v)
    ensures OneLine(key + "=" + InQuotes(v))
  {
    var line := key + "=" + InQuotes(v);
    forall i | 0 <= i < |line| ensures !IsBreak(line[i]) {
      if i < |key| {
        assert line[i] == key[i];
      } else if |key| + 2 <= i < |line| - 1 {
        assert line[i] == v[i - |key| - 2];
      }
    }
  }
}
