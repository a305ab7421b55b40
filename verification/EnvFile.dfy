/** The .env codec: `read_env` and `write_env` of `scripts/setup.py`, `read_env_file` and
    `write_env_file` of `skr_crypto/cli/config.py`. */
module EnvFile {
  import opened Options

  // ----- Python's idea of white space and of lines --------------------------------------------

  /** `str.isspace`, which `strip` and the regular expression's `\s` follow. */
  predicate IsSpace(c: char) {
    var n := c as int;
    || 9 <= n <= 13 || 28 <= n <= 32 || n == 0x85 || n == 0xA0 || n == 0x1680 || 0x2000 <= n <= 0x200A
    || n == 0x2028 || n == 0x2029 || n == 0x202F || n == 0x205F || n == 0x3000
  }

  /** The characters `str.splitlines` ends a line at. */
  predicate IsBreak(c: char) {
    var n := c as int;
    10 <= n <= 13 || 28 <= n <= 30 || n == 0x85 || n == 0x2028 || n == 0x2029
  }

  predicate OneLine(s: string) {
    forall i :: 0 <= i < |s| ==> !IsBreak(s[i])
  }

  /** The first break at or after i, or the length. */
  function LineEnd(s: string, i: nat): (n: nat)
    requires i <= |s|
    ensures i <= n <= |s|
    decreases |s| - i
  {
    if i < |s| && !IsBreak(s[i]) then LineEnd(s, i + 1) else i
  }

  /** `str.splitlines`: CR LF is one break, and a break at the end opens no further line. */
  function SplitLines(s: string): seq<string>
    decreases |s|
  {
    if s == "" then []
    else
      var n := LineEnd(s, 0);
      if n == |s| then [s]
      else if s[n] == '\r' && n + 1 < |s| && s[n + 1] == '\n' then [s[..n]] + SplitLines(s[n + 2..])
      else [s[..n]] + SplitLines(s[n + 1..])
  }

  /** The first character at or after i that is not white space, or the length. */
  function DarkFrom(s: string, i: nat): (n: nat)
    requires i <= |s|
    ensures i <= n <= |s|
    decreases |s| - i
  {
    if i < |s| && IsSpace(s[i]) then DarkFrom(s, i + 1) else i
  }

  /** What is left of the first n characters without the white space at their end. */
  function DarkTo(s: string, n: nat): (m: nat)
    requires n <= |s|
    ensures m <= n
  {
    if n > 0 && IsSpace(s[n - 1]) then DarkTo(s, n - 1) else n
  }

  function LStrip(s: string): string {
    s[DarkFrom(s, 0)..]
  }

  function RStrip(s: string): string {
    s[..DarkTo(s, |s|)]
  }

  function Strip(s: string): string {
    RStrip(LStrip(s))
  }

  // ----- reading ------------------------------------------------------------------------------

  datatype Pair = Pair(key: string, value: string)

  type Env = map<string, string>

  predicate IsKeyStart(c: char) { 'A' <= c <= 'Z' || c == '_' }

  predicate IsKeyChar(c: char) { IsKeyStart(c) || '0' <= c <= '9' }

  /** What the regular expression's first group accepts. */
  predicate IsKey(s: string) {
    s != "" && IsKeyStart(s[0]) && forall i :: 0 <= i < |s| ==> IsKeyChar(s[i])
  }

  /** The first character at or after i that cannot continue a key, or the length. */
  function KeyLength(s: string, i: nat): (n: nat)
    requires i <= |s|
    ensures i <= n <= |s|
    decreases |s| - i
  {
    if i < |s| && IsKeyChar(s[i]) then KeyLength(s, i + 1) else i
  }

  predicate CommentStart(s: string, i: nat) {
    i + 1 < |s| && s[i] == ' ' && s[i + 1] == '#'
  }

  /** The first " #" at or after i, or the length. */
  function CommentAt(s: string, i: nat): (n: nat)
    requires i <= |s|
    ensures i <= n <= |s|
    decreases |s| - i
  {
    if i == |s| || CommentStart(s, i) then i else CommentAt(s, i + 1)
  }

  function CutComment(s: string): string {
    if CommentAt(s, 0) < |s| then RStrip(s[..CommentAt(s, 0)]) else s
  }

  /** Starts and ends with the same kind of quote, which a lone quote does too. */
  predicate Quoted(s: string) {
    s != "" && s[0] == s[|s| - 1] && (s[0] == '"' || s[0] == '\'')
  }

  /** `val[1:-1]` of a quoted value. */
  function Unquote(s: string): string {
    if !Quoted(s) then s else if |s| == 1 then "" else s[1..|s| - 1]
  }

  function ReadValue(s: string): string {
    Unquote(CutComment(Strip(s)))
  }

  /** One line of the file, if it sets something. */
  function ParseLine(raw: string): Option<Pair> {
    var line := Strip(raw);
    if line == "" || line[0] == '#' || !IsKeyStart(line[0]) then None
    else
      var n := KeyLength(line, 0);
      var rest := LStrip(line[n..]);
      if rest != "" && rest[0] == '=' then Some(Pair(line[..n], ReadValue(rest[1..]))) else None
  }

  function Assign(out: Env, raw: string): Env {
    var p := ParseLine(raw);
    if p.Some? then out[p.value.key := p.value.value] else out
  }

  /** What the first n lines set. */
  function ReadTo(lines: seq<string>, n: nat): Env
    requires n <= |lines|
  {
    if n == 0 then map[] else Assign(ReadTo(lines, n - 1), lines[n - 1])
  }

  function Read(text: string): Env {
    var lines := SplitLines(text);
    ReadTo(lines, |lines|)
  }

  /** The value of a line: trimmed, cut at an inline comment, stripped of its quotes. */
  method CleanValue(raw: string) returns (val: string)
    ensures val == ReadValue(raw)
  {
    val := Strip(raw);
    if CommentAt(val, 0) < |val| { val := RStrip(val[..CommentAt(val, 0)]); }
    if Quoted(val) { val := if |val| == 1 then "" else val[1..|val| - 1]; }
  }

  method ReadLine(raw: string) returns (p: Option<Pair>)
    ensures p == ParseLine(raw)
  {
    var line := Strip(raw);
    if line == "" || line[0] == '#' || !IsKeyStart(line[0]) { return None; }
    var n := KeyLength(line, 0);
    var rest := LStrip(line[n..]);
    if rest == "" || rest[0] != '=' { return None; }
    var val := CleanValue(rest[1..]);
    return Some(Pair(line[..n], val));
  }

  /** One turn of the loop of both readers. */
  method ReadInto(before: Env, raw: string) returns (out: Env)
    ensures out == Assign(before, raw)
  {
    var p := ReadLine(raw);
    out := if p.Some? then before[p.value.key := p.value.value] else before;
  }

  /** The loop of both readers. */
  method ReadLines(lines: seq<string>) returns (out: Env)
    ensures out == ReadTo(lines, |lines|)
  {
    out := map[];
    var i := 0;
    while i < |lines|
      invariant 0 <= i <= |lines| && out == ReadTo(lines, i)
    {
      out := ReadInto(out, lines[i]);
      i := i + 1;
    }
  }

  /** `read_env`, and `read_env_file` of a file that exists. */
  method ReadEnv(text: string) returns (out: Env)
    ensures out == Read(text)
  {
    out := ReadLines(SplitLines(text));
  }

  // ----- writing ------------------------------------------------------------------------------

  function Join(lines: seq<string>): string {
    if lines == [] then "" else if |lines| == 1 then lines[0] else lines[0] + "\n" + Join(lines[1..])
  }

  /** A printed line: a comment or blank line, or a setting. */
  datatype Line = Note(text: string) | Setting(pair: Pair)

  function Render(l: Line): string {
    match l
    case Note(text) => text
    case Setting(p) => p.key + "=" + p.value
  }

  function Rendered(ls: seq<Line>): (lines: seq<string>)
    ensures |lines| == |ls|
  {
    seq(|ls|, i requires 0 <= i < |ls| => Render(ls[i]))
  }

  /** The settings among the first n lines. */
  function SettingsTo(ls: seq<Line>, n: nat): seq<Pair>
    requires n <= |ls|
  {
    if n == 0 then [] else SettingsTo(ls, n - 1) + if ls[n - 1].Setting? then [ls[n - 1].pair] else []
  }

  function Settings(ls: seq<Line>): seq<Pair> {
    SettingsTo(ls, |ls|)
  }

  function AsLines(ps: seq<Pair>): (ls: seq<Line>)
    ensures |ls| == |ps|
  {
    seq(|ps|, i requires 0 <= i < |ps| => Setting(ps[i]))
  }

  /** `values.get(key)` in a dictionary kept in its order of insertion, over its first n entries. */
  function Lookup(values: seq<Pair>, key: string, n: nat): Option<string>
    requires n <= |values|
  {
    if n == 0 then None else if values[n - 1].key == key then Some(values[n - 1].value) else Lookup(values, key, n - 1)
  }

  predicate DistinctKeys(ps: seq<Pair>) {
    forall i, j :: 0 <= i < j < |ps| ==> ps[i].key != ps[j].key
  }

  /** The non-empty ones among the first n entries, less those already seen. */
  function OthersTo(values: seq<Pair>, seen: set<string>, n: nat): seq<Pair>
    requires n <= |values|
  {
    if n == 0 then []
    else OthersTo(values, seen, n - 1) +
         if values[n - 1].key !in seen && values[n - 1].value != "" then [values[n - 1]] else []
  }

  function Others(values: seq<Pair>, seen: set<string>): seq<Pair> {
    OthersTo(values, seen, |values|)
  }

  function NonEmpty(values: seq<Pair>): seq<Pair> {
    Others(values, {})
  }

  // The flat printer.

  /** Nothing to set still prints one (empty) line. */
  function FlatLines(values: seq<Pair>): seq<Line> {
    (if NonEmpty(values) == [] then [Note("")] else AsLines(NonEmpty(values))) + [Note("")]
  }

  /** The comprehension both printers use: the extras of `write_env`, or everything. */
  method PrintOthers(values: seq<Pair>, seen: set<string>) returns (lines: seq<string>)
    ensures lines == Rendered(AsLines(Others(values, seen)))
  {
    lines := [];
    var i := 0;
    while i < |values|
      invariant 0 <= i <= |values| && lines == Rendered(AsLines(OthersTo(values, seen, i)))
    {
      var p := values[i];
      if p.key !in seen && p.value != "" { lines := lines + [p.key + "=" + p.value]; }
      i := i + 1;
    }
  }

  /** `write_env_file`: "\n".join(lines) + "\n" */
  method WriteEnvFile(values: seq<Pair>) returns (text: string)
    ensures text == Join(Rendered(FlatLines(values)))
  {
    var lines := PrintOthers(values, {});
    text := Join(lines) + "\n";
    var printed := if lines == [] then [""] else lines;
    JoinEnd(printed);
    assert Rendered(FlatLines(values)) == printed + [""];
  }

  // The grouped printer.

  datatype Group = Group(title: string, keys: seq<string>)

  const GROUPS: seq<Group> := [
    Group("Auth", ["AUTH_TOKEN"]),
    Group("Key provider", [
      "KEY_PROVIDER", "OP_VAULT", "OP_ITEM", "OP_FIELD", "PRIVATE_KEY_FILE", "KEYCHAIN_SERVICE", "KEYCHAIN_ACCOUNT"]),
    Group("TRON network", [
      "TRON_NETWORK", "TRONGRID_API_KEY", "USDT_CONTRACT", "USDT_FEE_LIMIT_SUN", "MIN_TRX_RESERVE", "TRON_HTTP_TIMEOUT"]),
    Group("Cost / energy", ["TRON_ENERGY_PRICE_SUN_FALLBACK", "MAX_ENERGY_BURN_TRX", "FEE_LIMIT_SAFETY_MULT"]),
    Group("Persistence", ["AUDIT_LOG_FILE", "IDEMPOTENCY_DB_PATH"]),
    Group("Server", [
      "SERVER_HOST", "SERVER_PORT", "SHUTDOWN_TIMEOUT", "RATE_LIMIT_MAX", "RATE_LIMIT_WINDOW", "TRUSTED_PROXIES"])]

  // One line of text, in pieces short enough to look for a line break in each.
  const GENERATED: string :=
    "# Generated by" + " scripts/setup" + ".py \U{2014} re-run" + " any time to " + "update."
  const LAST_RUN: string := "# Last run: "
  const OTHER: string := "# Other"

  function Heading(g: Group): string {
    "# " + g.title
  }

  /** The non-empty entries of the first n keys. */
  function KeyPairsTo(values: seq<Pair>, keys: seq<string>, n: nat): seq<Pair>
    requires n <= |keys|
  {
    if n == 0 then []
    else KeyPairsTo(values, keys, n - 1) +
         match Lookup(values, keys[n - 1], |values|)
         case None => []
         case Some(v) => if v != "" then [Pair(keys[n - 1], v)] else []
  }

  function KeyPairs(values: seq<Pair>, keys: seq<string>): seq<Pair> {
    KeyPairsTo(values, keys, |keys|)
  }

  /** The printed form of a section. */
  function Printed(heading: string, section: seq<string>): seq<string> {
    if section == [] then [] else [heading] + section + [""]
  }

  /** A heading, a section's settings and a blank line, unless there is nothing to set. */
  function Section(heading: string, ps: seq<Pair>): seq<Line> {
    if ps == [] then [] else [Note(heading)] + AsLines(ps) + [Note("")]
  }

  function Flatten<T>(parts: seq<seq<T>>, n: nat): seq<T>
    requires n <= |parts|
  {
    if n == 0 then [] else Flatten(parts, n - 1) + parts[n - 1]
  }

  /** What each group sets, and its section. */
  function GroupParts(values: seq<Pair>, groups: seq<Group>): (parts: seq<seq<Pair>>)
    ensures |parts| == |groups|
  {
    seq(|groups|, i requires 0 <= i < |groups| => KeyPairs(values, groups[i].keys))
  }

  function SectionParts(values: seq<Pair>, groups: seq<Group>): (parts: seq<seq<Line>>)
    ensures |parts| == |groups|
  {
    seq(|groups|, i requires 0 <= i < |groups| => Section(Heading(groups[i]), KeyPairs(values, groups[i].keys)))
  }

  function GroupPairs(values: seq<Pair>, groups: seq<Group>): seq<Pair> {
    Flatten(GroupParts(values, groups), |groups|)
  }

  function Sections(values: seq<Pair>, groups: seq<Group>): seq<Line> {
    Flatten(SectionParts(values, groups), |groups|)
  }

  function KeysOf(ps: seq<Pair>): set<string> {
    set i | 0 <= i < |ps| :: ps[i].key
  }

  function Header(stamp: string): seq<Line> {
    [Note(GENERATED), Note(LAST_RUN + stamp), Note("")]
  }

  function GroupedLines(values: seq<Pair>, groups: seq<Group>, stamp: string): seq<Line> {
    Header(stamp) + Sections(values, groups) + Section(OTHER, Others(values, KeysOf(GroupPairs(values, groups))))
  }

  /** One turn of the loop of `write_env`. */
  method PrintGroup(values: seq<Pair>, g: Group) returns (section: seq<string>, found: set<string>)
    ensures section == Rendered(Section(Heading(g), KeyPairs(values, g.keys)))
    ensures found == KeysOf(KeyPairs(values, g.keys))
  {
    section, found := PrintKeys(values, g.keys);
    RenderedSection(Heading(g), KeyPairs(values, g.keys));
    if section != [] { section := ["# " + g.title] + section + [""]; }
  }

  /** The loop of `write_env` over its groups. */
  method PrintGroups(values: seq<Pair>, groups: seq<Group>) returns (lines: seq<string>, seen: set<string>)
    ensures lines == Rendered(Sections(values, groups))
    ensures seen == KeysOf(GroupPairs(values, groups))
  {
    lines, seen := [], {};
    ghost var sections, parts := SectionParts(values, groups), GroupParts(values, groups);
    var i := 0;
    while i < |groups|
      invariant 0 <= i <= |groups|
      invariant lines == Rendered(Flatten(sections, i))
      invariant seen == KeysOf(Flatten(parts, i))
    {
      var section, found := PrintGroup(values, groups[i]);
      NextPart(sections, parts, i);
      lines, seen := lines + section, seen + found;
      i := i + 1;
    }
  }

  lemma NextPart(sections: seq<seq<Line>>, parts: seq<seq<Pair>>, i: nat)
    requires i < |sections| == |parts|
    ensures Rendered(Flatten(sections, i + 1)) == Rendered(Flatten(sections, i)) + Rendered(sections[i])
    ensures KeysOf(Flatten(parts, i + 1)) == KeysOf(Flatten(parts, i)) + KeysOf(parts[i])
  {
    RenderedAppend(Flatten(sections, i), sections[i]);
    KeysOfAppend(Flatten(parts, i), parts[i]);
  }

  /** `write_env`, for any groups. */
  method WriteEnv(values: seq<Pair>, groups: seq<Group>, stamp: string) returns (text: string)
    ensures text == Join(Rendered(GroupedLines(values, groups, stamp)))
  {
    var lines := [GENERATED, LAST_RUN + stamp, ""];
    var sections, seen := PrintGroups(values, groups);
    lines := lines + sections;
    var extras := PrintOthers(values, seen);
    RenderedSection(OTHER, Others(values, seen));
    RenderedAppend(Header(stamp), Sections(values, groups));
    RenderedAppend(Header(stamp) + Sections(values, groups), Section(OTHER, Others(values, seen)));
    assert Rendered(Header(stamp)) == [GENERATED, LAST_RUN + stamp, ""];
    ghost var before := lines;
    if extras != [] { lines := lines + ([OTHER] + extras + [""]); }
    assert lines == before + Printed(OTHER, extras);
    text := Join(lines);
  }

  lemma RenderedAppend(a: seq<Line>, b: seq<Line>)
    ensures Rendered(a + b) == Rendered(a) + Rendered(b)
  {}

  lemma RenderedSection(heading: string, ps: seq<Pair>)
    ensures Rendered(Section(heading, ps)) == Printed(heading, Rendered(AsLines(ps)))
  {
    if ps != [] {
      RenderedAppend([Note(heading)], AsLines(ps));
      RenderedAppend([Note(heading)] + AsLines(ps), [Note("")]);
      assert Rendered([Note(heading)]) == [heading] && Rendered([Note("")]) == [""];
    }
  }

  /** The inner loop of `write_env`. */
  method PrintKeys(values: seq<Pair>, keys: seq<string>) returns (section: seq<string>, found: set<string>)
    ensures section == Rendered(AsLines(KeyPairs(values, keys)))
    ensures found == KeysOf(KeyPairs(values, keys))
  {
    section, found := [], {};
    var i := 0;
    while i < |keys|
      invariant 0 <= i <= |keys|
      invariant section == Rendered(AsLines(KeyPairsTo(values, keys, i)))
      invariant found == KeysOf(KeyPairsTo(values, keys, i))
    {
      var k := keys[i];
      var v := Lookup(values, k, |values|);
      if v.Some? && v.value != "" {
        KeysOfAppend(KeyPairsTo(values, keys, i), [Pair(k, v.value)]);
        KeysOfOne(Pair(k, v.value));
        section := section + [k + "=" + v.value];
        found := found + {k};
      } else {
        assert KeyPairsTo(values, keys, i + 1) == KeyPairsTo(values, keys, i);
      }
      i := i + 1;
    }
  }

  lemma KeysOfOne(p: Pair)
    ensures KeysOf([p]) == {p.key}
  {
    assert [p][0].key in KeysOf([p]);
  }

  lemma KeysOfAppend(a: seq<Pair>, b: seq<Pair>)
    ensures KeysOf(a + b) == KeysOf(a) + KeysOf(b)
  {
    var all := a + b;
    forall k | k in KeysOf(a) ensures k in KeysOf(all) {
      var i :| 0 <= i < |a| && a[i].key == k;
      assert all[i].key == k;
    }
    forall k | k in KeysOf(b) ensures k in KeysOf(all) {
      var i :| 0 <= i < |b| && b[i].key == k;
      assert all[|a| + i].key == k;
    }
    forall k | k in KeysOf(all) ensures k in KeysOf(a) + KeysOf(b) {
      var i :| 0 <= i < |all| && all[i].key == k;
      if i < |a| { assert a[i].key == k; } else { assert b[i - |a|].key == k; }
    }
  }

  lemma {:induction false} JoinEnd(lines: seq<string>)
    requires lines != []
    ensures Join(lines + [""]) == Join(lines) + "\n"
  {
    if |lines| == 1 {
      assert (lines + [""])[1..] == [""];
    } else {
      JoinEnd(lines[1..]);
      assert (lines + [""])[1..] == lines[1..] + [""];
    }
  }
}
