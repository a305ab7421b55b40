/** One line of a .env file: which values survive it, and how text splits into lines. A value comes
    back unchanged from its own line exactly when it is trimmed, holds no inline comment and is not
    quoted; a setting's line parses to its key and that value; and joining lines and splitting the
    text again gives the lines back, whatever line breaks Python knows. */
module EnvLines {
  import opened EnvFile
  import opened Options

  // ----- values -------------------------------------------------------------------------------

  predicate Trimmed(s: string) {
    s == "" || (!IsSpace(s[0]) && !IsSpace(s[|s| - 1]))
  }

  predicate NoComment(s: string) {
    forall i :: 0 <= i < |s| ==> !CommentStart(s, i)
  }

  /** What a caller can check of a value before writing it. */
  predicate Clean(v: string) {
    OneLine(v) && Trimmed(v) && NoComment(v) && !Quoted(v)
  }

  /** What a one-line value comes back as. */
  function ReadBack(v: string): string {
    ReadValue(RStrip(v))
  }

  lemma {:induction false} CommentIffFound(s: string, i: nat)
    requires i <= |s|
    ensures CommentAt(s, i) == |s| <==> forall j :: i <= j < |s| ==> !CommentStart(s, j)
    decreases |s| - i
  {
    if i < |s| && !CommentStart(s, i) { CommentIffFound(s, i + 1); }
  }

  /** Trimming shortens a value unless there is nothing to trim. */
  lemma TrimShortens(v: string)
    ensures |Strip(RStrip(v))| <= |v|
    ensures |Strip(RStrip(v))| == |v| <==> Trimmed(v)
    ensures Trimmed(v) ==> Strip(RStrip(v)) == v
  {
    var a := RStrip(v);
    var b := LStrip(a);
    if |a| == |v| { assert a == v; }
    if |b| == |v| { assert b == v; }
  }

  /** So does cutting and unquoting. */
  lemma CutShortens(v: string)
    ensures |Unquote(CutComment(v))| <= |v|
    ensures |Unquote(CutComment(v))| == |v| <==> NoComment(v) && !Quoted(v)
    ensures NoComment(v) && !Quoted(v) ==> Unquote(CutComment(v)) == v
  {
    CommentIffFound(v, 0);
    var cut := CutComment(v);
    assert |Unquote(cut)| <= |cut|;
  }

  /** A value comes back unchanged exactly when nothing in it would be trimmed, cut or unquoted. */
  lemma ReadBackExact(v: string)
    ensures ReadBack(v) == v <==> Trimmed(v) && NoComment(v) && !Quoted(v)
  {
    TrimShortens(v);
    CutShortens(Strip(RStrip(v)));
  }

  // ----- lines --------------------------------------------------------------------------------

  lemma {:induction false} DarkToKeeps(s: string, i: nat, n: nat)
    requires i < n <= |s| && !IsSpace(s[i])
    ensures DarkTo(s, n) > i
  {
    if IsSpace(s[n - 1]) { DarkToKeeps(s, i, n - 1); }
  }

  lemma {:induction false} DarkToShifts(p: string, v: string, m: nat)
    requires p != "" && !IsSpace(p[|p| - 1]) && m <= |v|
    ensures DarkTo(p + v, |p| + m) == |p| + DarkTo(v, m)
  {
    if m > 0 && IsSpace(v[m - 1]) { DarkToShifts(p, v, m - 1); }
  }

  lemma RStripTail(p: string, v: string)
    requires p != "" && !IsSpace(p[|p| - 1])
    ensures RStrip(p + v) == p + RStrip(v)
  {
    DarkToShifts(p, v, |v|);
  }

  lemma {:induction false} KeyLengthOf(k: string, rest: string, i: nat)
    requires (forall j :: 0 <= j < |k| ==> IsKeyChar(k[j])) && rest != "" && !IsKeyChar(rest[0]) && i <= |k|
    ensures KeyLength(k + rest, i) == |k|
    decreases |k| - i
  {
    if i < |k| { KeyLengthOf(k, rest, i + 1); }
  }

  lemma StripTail(p: string, v: string)
    requires p != "" && !IsSpace(p[0]) && !IsSpace(p[|p| - 1])
    ensures Strip(p + v) == p + RStrip(v)
  {
    assert (p + v)[0] == p[0];
    RStripTail(p, v);
  }

  lemma SettingStripped(k: string, v: string)
    requires IsKey(k)
    ensures Strip(k + "=" + v) == k + ("=" + RStrip(v))
  {
    var p := k + "=";
    assert p[0] == k[0] && p[|p| - 1] == '=';
    StripTail(p, v);
  }

  lemma KeySplits(k: string, rest: string)
    requires IsKey(k) && rest != "" && rest[0] == '='
    ensures KeyLength(k + rest, 0) == |k| && (k + rest)[..|k|] == k && (k + rest)[|k|..] == rest && LStrip(rest) == rest
  {
    KeyLengthOf(k, rest, 0);
  }

  /** A printed setting is read as that key with the value's read-back. */
  lemma SettingParses(k: string, v: string)
    requires IsKey(k)
    ensures ParseLine(k + "=" + v) == Some(Pair(k, ReadBack(v)))
  {
    var rest := "=" + RStrip(v);
    SettingStripped(k, v);
    KeySplits(k, rest);
    assert rest[1..] == RStrip(v);
    assert (k + rest)[0] == k[0] && IsKeyStart(k[0]);
  }

  // ----- text ---------------------------------------------------------------------------------

  lemma {:induction false} LineEndIs(s: string, i: nat, m: nat)
    requires i <= m <= |s| && (forall j :: i <= j < m ==> !IsBreak(s[j])) && (m < |s| ==> IsBreak(s[m]))
    ensures LineEnd(s, i) == m
    decreases m - i
  {
    if i < m { LineEndIs(s, i + 1, m); }
  }

  lemma {:induction false} LineEndFree(s: string, i: nat)
    requires i <= |s|
    ensures forall j :: i <= j < LineEnd(s, i) ==> !IsBreak(s[j])
    decreases |s| - i
  {
    if i < |s| && !IsBreak(s[i]) { LineEndFree(s, i + 1); }
  }

  lemma SplitFirst(l: string, rest: string)
    requires OneLine(l)
    ensures SplitLines(l + "\n" + rest) == [l] + SplitLines(rest)
  {
    var s := l + "\n" + rest;
    assert s[..|l|] == l && s[|l|] == '\n' && s[|l| + 1..] == rest;
    LineEndIs(s, 0, |l|);
  }

  lemma SplitOnly(l: string)
    requires OneLine(l)
    ensures SplitLines(l) == if l == "" then [] else [l]
  {
    LineEndIs(l, 0, |l|);
    assert l[..|l|] == l;
  }

  predicate AllOneLine(lines: seq<string>) {
    forall i :: 0 <= i < |lines| ==> OneLine(lines[i])
  }

  /** Splitting undoes joining, but for an empty last line. */
  lemma {:induction false} SplitJoined(lines: seq<string>)
    requires AllOneLine(lines) && lines != []
    ensures SplitLines(Join(lines)) == if lines[|lines| - 1] == "" then lines[..|lines| - 1] else lines
    decreases |lines|
  {
    if |lines| == 1 {
      SplitOnly(lines[0]);
    } else {
      var l, rest := lines[0], lines[1..];
      SplitFirst(l, Join(rest));
      SplitJoined(rest);
      assert lines == [l] + rest;
      if rest[|rest| - 1] == "" { assert lines[..|lines| - 1] == [l] + rest[..|rest| - 1]; }
    }
  }

  lemma {:induction false} ReadPrefix(a: seq<string>, b: seq<string>, n: nat)
    requires n <= |a| && n <= |b| && forall i :: 0 <= i < n ==> a[i] == b[i]
    ensures ReadTo(a, n) == ReadTo(b, n)
  {
    if n > 0 { ReadPrefix(a, b, n - 1); }
  }

  /** So it makes no difference to the reader. */
  lemma ReadJoined(lines: seq<string>)
    requires AllOneLine(lines) && lines != []
    ensures Read(Join(lines)) == ReadTo(lines, |lines|)
  {
    SplitJoined(lines);
    var n := |lines| - 1;
    if lines[n] == "" {
      ReadPrefix(lines[..n], lines, n);
    }
  }

  lemma CutOneLine(s: string)
    requires OneLine(s)
    ensures OneLine(CutComment(s))
  {
    var cut := s[..CommentAt(s, 0)];
  }

  lemma ReadValueOneLine(s: string)
    requires OneLine(s)
    ensures OneLine(ReadValue(s))
  {
    CutOneLine(Strip(s));
  }

  lemma ParsedOneLine(raw: string)
    requires OneLine(raw)
    ensures ParseLine(raw).Some? ==> OneLine(ParseLine(raw).value.value)
  {
    var line := Strip(raw);
    if ParseLine(raw).Some? {
      var tail := line[KeyLength(line, 0)..];
      ReadValueOneLine(LStrip(tail)[1..]);
    }
  }

  lemma FirstLineFree(s: string)
    ensures OneLine(s[..LineEnd(s, 0)])
  {
    LineEndFree(s, 0);
  }

  lemma {:induction false} SplitOneLine(s: string)
    ensures AllOneLine(SplitLines(s))
    decreases |s|
  {
    if s != "" {
      var n := LineEnd(s, 0);
      FirstLineFree(s);
      if n == |s| {
        assert s[..n] == s;
      } else {
        var rest := if s[n] == '\r' && n + 1 < |s| && s[n + 1] == '\n' then s[n + 2..] else s[n + 1..];
        SplitOneLine(rest);
        assert SplitLines(s) == [s[..n]] + SplitLines(rest);
      }
    }
  }

  predicate ValuesOneLine(out: Env) {
    forall k :: k in out ==> OneLine(out[k])
  }

  lemma AssignOneLine(out: Env, raw: string)
    requires OneLine(raw) && ValuesOneLine(out)
    ensures ValuesOneLine(Assign(out, raw))
  {
    ParsedOneLine(raw);
  }

  lemma {:induction false} ReadToOneLine(lines: seq<string>, n: nat)
    requires AllOneLine(lines) && n <= |lines|
    ensures ValuesOneLine(ReadTo(lines, n))
  {
    if n > 0 {
      ReadToOneLine(lines, n - 1);
      AssignOneLine(ReadTo(lines, n - 1), lines[n - 1]);
    }
  }

  /** No text at all reads as a value with a line break in it. */
  lemma ReadsOneLine(text: string)
    ensures ValuesOneLine(Read(text))
  {
    SplitOneLine(text);
    ReadToOneLine(SplitLines(text), |SplitLines(text)|);
  }
}
