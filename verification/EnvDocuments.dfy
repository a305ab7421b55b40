/** Documents of notes and settings, as `write_env` of `scripts/setup.py` and `write_env_file` of
    `skr_crypto/cli/config.py` build them. A document reads as its settings in order, each value
    read back, so what a printer's output reads as is a question about the settings it prints. The
    flat printer prints the non-empty entries. The grouped one prints each group's entries under a
    heading and what is left under one more: its settings are the pairs of the groups followed by
    the others, no entry lost and none repeated. */
module EnvDocuments {
  import opened EnvFile
  import opened EnvLines
  import opened Options

  // ----- documents ----------------------------------------------------------------------------

  /** Notes are comments or blank, keys are well-formed. */
  predicate LineOk(l: Line) {
    match l
    case Note(t) => OneLine(t) && (t == "" || t[0] == '#')
    case Setting(p) => IsKey(p.key)
  }

  predicate WellFormed(ls: seq<Line>) {
    forall i :: 0 <= i < |ls| ==> LineOk(ls[i])
  }

  /** What the first n entries set, later ones overriding earlier ones. */
  function Assigned(ps: seq<Pair>, n: nat): Env
    requires n <= |ps|
  {
    if n == 0 then map[] else Assigned(ps, n - 1)[ps[n - 1].key := ps[n - 1].value]
  }

  function MapValues(f: string -> string, ps: seq<Pair>): (bs: seq<Pair>)
    ensures |bs| == |ps|
  {
    seq(|ps|, i requires 0 <= i < |ps| => Pair(ps[i].key, f(ps[i].value)))
  }

  /** The entries with their values as they come back. */
  function Backs(ps: seq<Pair>): (bs: seq<Pair>)
    ensures |bs| == |ps|
  {
    MapValues(ReadBack, ps)
  }

  lemma ReadSetting(out: Env, p: Pair, back: string)
    requires IsKey(p.key) && back == ReadBack(p.value)
    ensures Assign(out, Render(Setting(p))) == out[p.key := back]
  {
    SettingParses(p.key, p.value);
  }

  lemma {:induction false} AssignedPrefix(ps: seq<Pair>, p: Pair, n: nat)
    requires n <= |ps|
    ensures Assigned(ps + [p], n) == Assigned(ps, n)
  {
    if n > 0 { AssignedPrefix(ps, p, n - 1); }
  }

  lemma MapValuesSnoc(f: string -> string, ps: seq<Pair>, p: Pair)
    ensures MapValues(f, ps + [p]) == MapValues(f, ps) + [Pair(p.key, f(p.value))]
  {}

  lemma AssignedSnoc(ps: seq<Pair>, p: Pair)
    ensures Assigned(ps + [p], |ps| + 1) == Assigned(ps, |ps|)[p.key := p.value]
  {
    AssignedPrefix(ps, p, |ps|);
  }

  lemma BacksSnoc(ps: seq<Pair>, p: Pair, back: string)
    requires back == ReadBack(p.value)
    ensures Assigned(Backs(ps + [p]), |ps| + 1) == Assigned(Backs(ps), |ps|)[p.key := back]
  {
    MapValuesSnoc(ReadBack, ps, p);
    AssignedSnoc(Backs(ps), Pair(p.key, back));
  }

  lemma ReadLine(out: Env, l: Line, before: seq<Pair>)
    requires LineOk(l) && out == Assigned(Backs(before), |before|)
    ensures var after := before + if l.Setting? then [l.pair] else [];
            Assign(out, Render(l)) == Assigned(Backs(after), |after|)
  {
    if l.Note? {
      assert before + [] == before;
    } else {
      var back := ReadBack(l.pair.value);
      ReadSetting(out, l.pair, back);
      BacksSnoc(before, l.pair, back);
    }
  }

  lemma ReadNext(lines: seq<string>, n: nat, l: Line, before: seq<Pair>, after: seq<Pair>)
    requires n < |lines| && lines[n] == Render(l) && LineOk(l)
    requires ReadTo(lines, n) == Assigned(Backs(before), |before|)
    requires after == before + if l.Setting? then [l.pair] else []
    ensures ReadTo(lines, n + 1) == Assigned(Backs(after), |after|)
  {
    ReadLine(ReadTo(lines, n), l, before);
  }

  lemma {:induction false} ReadRendered(lines: seq<string>, ls: seq<Line>, n: nat)
    requires WellFormed(ls) && n <= |ls| == |lines| && forall i :: 0 <= i < |ls| ==> lines[i] == Render(ls[i])
    ensures ReadTo(lines, n) == Assigned(Backs(SettingsTo(ls, n)), |SettingsTo(ls, n)|)
  {
    if n > 0 {
      ReadRendered(lines, ls, n - 1);
      ReadNext(lines, n - 1, ls[n - 1], SettingsTo(ls, n - 1), SettingsTo(ls, n));
    }
  }

  lemma {:induction false} AssignedElse(ps: seq<Pair>, k: string, n: nat)
    requires n <= |ps| && k in Assigned(ps, n)
    ensures exists i :: 0 <= i < n && ps[i].key == k
  {
    if ps[n - 1].key != k { AssignedElse(ps, k, n - 1); }
  }

  lemma {:induction false} AssignedAt(ps: seq<Pair>, i: nat, n: nat)
    requires DistinctKeys(ps) && i < n <= |ps|
    ensures ps[i].key in Assigned(ps, n) && Assigned(ps, n)[ps[i].key] == ps[i].value
  {
    if i < n - 1 { AssignedAt(ps, i, n - 1); }
  }

  /** The environment is exactly this list of entries. */
  predicate IsDict(env: Env, ps: seq<Pair>) {
    && (forall i :: 0 <= i < |ps| ==> ps[i].key in env && env[ps[i].key] == ps[i].value)
    && (forall k :: k in env ==> exists i :: 0 <= i < |ps| && ps[i].key == k)
  }

  predicate AllClean(ps: seq<Pair>) {
    forall i :: 0 <= i < |ps| ==> Clean(ps[i].value)
  }

  predicate AllValuesOneLine(ps: seq<Pair>) {
    forall i :: 0 <= i < |ps| ==> OneLine(ps[i].value)
  }

  lemma {:induction false} SettingAmong(ls: seq<Line>, i: nat, n: nat) returns (j: nat)
    requires i < n <= |ls| && ls[i].Setting?
    ensures j < |SettingsTo(ls, n)| && SettingsTo(ls, n)[j] == ls[i].pair
  {
    if i == n - 1 { j := |SettingsTo(ls, n - 1)|; } else { j := SettingAmong(ls, i, n - 1); }
  }

  lemma RenderedOneLine(ls: seq<Line>)
    requires WellFormed(ls) && AllValuesOneLine(Settings(ls))
    ensures AllOneLine(Rendered(ls))
  {
    forall i | 0 <= i < |ls| ensures OneLine(Rendered(ls)[i]) {
      if ls[i].Setting? {
        var j := SettingAmong(ls, i, |ls|);
      }
    }
  }

  /** A document whose values have no line breaks reads as its settings, each value read back. */
  lemma DocumentReads(ls: seq<Line>)
    requires WellFormed(ls) && ls != [] && AllValuesOneLine(Settings(ls))
    ensures Read(Join(Rendered(ls))) == Assigned(Backs(Settings(ls)), |Settings(ls)|)
  {
    RenderedOneLine(ls);
    ReadJoined(Rendered(ls));
    ReadRendered(Rendered(ls), ls, |ls|);
  }

  lemma AssignedIsDict(ps: seq<Pair>, bs: seq<Pair>)
    requires DistinctKeys(ps) && |bs| == |ps| && forall i :: 0 <= i < |ps| ==> bs[i].key == ps[i].key
    ensures IsDict(Assigned(bs, |bs|), ps) <==> forall i :: 0 <= i < |ps| ==> bs[i].value == ps[i].value
  {
    var env := Assigned(bs, |bs|);
    forall i | 0 <= i < |ps| ensures ps[i].key in env && env[ps[i].key] == bs[i].value {
      AssignedAt(bs, i, |bs|);
    }
    forall k | k in env ensures exists i :: 0 <= i < |ps| && ps[i].key == k {
      AssignedElse(bs, k, |bs|);
      var i :| 0 <= i < |bs| && bs[i].key == k;
      assert ps[i].key == k;
    }
  }

  /** The heart of both round trips: a document reads as exactly its settings if and only if every
      value is clean. A value with a line break spoils it, whatever its later lines set. */
  lemma DocumentRoundTrip(ls: seq<Line>)
    requires WellFormed(ls) && ls != [] && DistinctKeys(Settings(ls))
    ensures IsDict(Read(Join(Rendered(ls))), Settings(ls)) <==> AllClean(Settings(ls))
  {
    var ps := Settings(ls);
    if AllValuesOneLine(ps) {
      DocumentReads(ls);
      var bs := Backs(ps);
      AssignedIsDict(ps, bs);
      forall i | 0 <= i < |ps| ensures bs[i].value == ps[i].value <==> Clean(ps[i].value) {
        ReadBackExact(ps[i].value);
      }
    } else {
      ReadsOneLine(Join(Rendered(ls)));
    }
  }

  // ----- what the printers print --------------------------------------------------------------

  lemma {:induction false} SettingsPrefix(a: seq<Line>, b: seq<Line>, n: nat)
    requires n <= |a|
    ensures SettingsTo(a + b, n) == SettingsTo(a, n)
  {
    if n > 0 { SettingsPrefix(a, b, n - 1); }
  }

  lemma {:induction false} SettingsSuffix(a: seq<Line>, b: seq<Line>, n: nat)
    requires n <= |b|
    ensures SettingsTo(a + b, |a| + n) == Settings(a) + SettingsTo(b, n)
  {
    if n == 0 { SettingsPrefix(a, b, |a|); } else { SettingsSuffix(a, b, n - 1); }
  }

  lemma SettingsAppend(a: seq<Line>, b: seq<Line>)
    ensures Settings(a + b) == Settings(a) + Settings(b)
  {
    SettingsSuffix(a, b, |b|);
  }

  lemma {:induction false} SettingsOfLines(ps: seq<Pair>, n: nat)
    requires n <= |ps|
    ensures SettingsTo(AsLines(ps), n) == ps[..n]
  {
    if n > 0 { SettingsOfLines(ps, n - 1); }
  }

  lemma {:induction false} NotesOnly(ls: seq<Line>, n: nat)
    requires n <= |ls| && forall i :: 0 <= i < n ==> ls[i].Note?
    ensures SettingsTo(ls, n) == []
  {
    if n > 0 { NotesOnly(ls, n - 1); }
  }

  predicate SameEntries(a: seq<Pair>, b: seq<Pair>) {
    (forall p :: p in a ==> p in b) && (forall p :: p in b ==> p in a)
  }

  lemma {:induction false} OthersToMembers(values: seq<Pair>, seen: set<string>, n: nat, p: Pair)
    requires n <= |values|
    ensures p in OthersTo(values, seen, n) <==> p.key !in seen && p.value != "" && exists i :: 0 <= i < n && values[i] == p
  {
    if n > 0 { OthersToMembers(values, seen, n - 1, p); }
  }

  lemma OthersMembers(values: seq<Pair>, seen: set<string>, p: Pair)
    ensures p in Others(values, seen) <==> p in values && p.key !in seen && p.value != ""
  {
    OthersToMembers(values, seen, |values|, p);
  }

  lemma {:induction false} OthersDistinct(values: seq<Pair>, seen: set<string>, n: nat)
    requires DistinctKeys(values) && n <= |values|
    ensures DistinctKeys(OthersTo(values, seen, n))
  {
    if n > 0 {
      OthersDistinct(values, seen, n - 1);
      var others := OthersTo(values, seen, n - 1);
      forall i | 0 <= i < |others| ensures others[i].key != values[n - 1].key {
        OthersToMembers(values, seen, n - 1, others[i]);
      }
    }
  }

  predicate KeysValid(values: seq<Pair>) {
    forall i :: 0 <= i < |values| ==> IsKey(values[i].key)
  }

  lemma SameDict(env: Env, a: seq<Pair>, b: seq<Pair>)
    requires SameEntries(a, b)
    ensures IsDict(env, a) ==> IsDict(env, b)
    ensures AllClean(a) ==> AllClean(b)
  {
    forall i | 0 <= i < |b| ensures exists j :: 0 <= j < |a| && a[j] == b[i] { assert b[i] in a; }
    if IsDict(env, a) {
      forall k | k in env ensures exists i :: 0 <= i < |b| && b[i].key == k {
        var j :| 0 <= j < |a| && a[j].key == k;
        assert a[j] in b;
      }
    }
  }

  lemma FlatOk(values: seq<Pair>)
    requires KeysValid(values)
    ensures WellFormed(FlatLines(values))
  {
    var ps, ls := NonEmpty(values), FlatLines(values);
    forall i | 0 <= i < |ls| ensures LineOk(ls[i]) {
      if i < |ps| {
        assert ls[i] == Setting(ps[i]);
        OthersMembers(values, {}, ps[i]);
      } else {
        assert ls[i] == Note("");
      }
    }
  }

  lemma FlatSettings(values: seq<Pair>)
    ensures Settings(FlatLines(values)) == NonEmpty(values)
  {
    var ps := NonEmpty(values);
    if ps == [] {
      NotesOnly(FlatLines(values), 2);
    } else {
      SettingsOfLines(ps, |ps|);
      SettingsAppend(AsLines(ps), [Note("")]);
      NotesOnly([Note("")], 1);
    }
  }

  // ----- the grouped printer ------------------------------------------------------------------

  function KeyParts(groups: seq<Group>): (parts: seq<seq<string>>)
    ensures |parts| == |groups|
  {
    seq(|groups|, i requires 0 <= i < |groups| => groups[i].keys)
  }

  function AllKeys(groups: seq<Group>): seq<string> {
    Flatten(KeyParts(groups), |groups|)
  }

  predicate DistinctStrings(ss: seq<string>) {
    forall i, j :: 0 <= i < j < |ss| ==> ss[i] != ss[j]
  }

  predicate TitlesOneLine(groups: seq<Group>) {
    forall i :: 0 <= i < |groups| ==> OneLine(groups[i].title)
  }

  lemma {:induction false} KeyPairsPrefix(values: seq<Pair>, a: seq<string>, b: seq<string>, n: nat)
    requires n <= |a|
    ensures KeyPairsTo(values, a + b, n) == KeyPairsTo(values, a, n)
  {
    if n > 0 { KeyPairsPrefix(values, a, b, n - 1); }
  }

  lemma {:induction false} KeyPairsSuffix(values: seq<Pair>, a: seq<string>, b: seq<string>, n: nat)
    requires n <= |b|
    ensures KeyPairsTo(values, a + b, |a| + n) == KeyPairs(values, a) + KeyPairsTo(values, b, n)
  {
    if n == 0 { KeyPairsPrefix(values, a, b, |a|); } else { KeyPairsSuffix(values, a, b, n - 1); }
  }

  lemma KeyPairsAppend(values: seq<Pair>, a: seq<string>, b: seq<string>)
    ensures KeyPairs(values, a + b) == KeyPairs(values, a) + KeyPairs(values, b)
  {
    KeyPairsSuffix(values, a, b, |b|);
  }

  /** Pairing group by group is pairing all the keys. */
  lemma {:induction false} PairsFlatten(values: seq<Pair>, keys: seq<seq<string>>, pairs: seq<seq<Pair>>, n: nat)
    requires n <= |keys| == |pairs| && forall i :: 0 <= i < |keys| ==> pairs[i] == KeyPairs(values, keys[i])
    ensures Flatten(pairs, n) == KeyPairs(values, Flatten(keys, n))
  {
    if n > 0 {
      PairsFlatten(values, keys, pairs, n - 1);
      KeyPairsAppend(values, Flatten(keys, n - 1), keys[n - 1]);
    }
  }

  lemma GroupPairsFlat(values: seq<Pair>, groups: seq<Group>)
    ensures GroupPairs(values, groups) == KeyPairs(values, AllKeys(groups))
  {
    PairsFlatten(values, KeyParts(groups), GroupParts(values, groups), |groups|);
  }

  lemma {:induction false} LookupFinds(values: seq<Pair>, key: string, n: nat)
    requires n <= |values|
    ensures var v := Lookup(values, key, n);
            if v.Some? then Pair(key, v.value) in values else forall i :: 0 <= i < n ==> values[i].key != key
  {
    if n > 0 && values[n - 1].key != key { LookupFinds(values, key, n - 1); }
  }

  predicate Among(keys: seq<string>, n: nat, k: string)
    requires n <= |keys|
  {
    exists i :: 0 <= i < n && keys[i] == k
  }

  lemma {:induction false} KeyPairsMembers(values: seq<Pair>, keys: seq<string>, n: nat, p: Pair)
    requires DistinctKeys(values) && n <= |keys|
    ensures p in KeyPairsTo(values, keys, n) <==> p in values && p.value != "" && Among(keys, n, p.key)
  {
    if n > 0 {
      KeyPairsMembers(values, keys, n - 1, p);
      var k := keys[n - 1];
      var v := Lookup(values, k, |values|);
      LookupFinds(values, k, |values|);
    }
  }

  lemma {:induction false} KeyPairsDistinct(values: seq<Pair>, keys: seq<string>, n: nat)
    requires DistinctKeys(values) && DistinctStrings(keys) && n <= |keys|
    ensures DistinctKeys(KeyPairsTo(values, keys, n))
  {
    if n > 0 {
      KeyPairsDistinct(values, keys, n - 1);
      var ps := KeyPairsTo(values, keys, n - 1);
      forall i | 0 <= i < |ps| ensures ps[i].key != keys[n - 1] {
        KeyPairsMembers(values, keys, n - 1, ps[i]);
      }
    }
  }

  function PrintedPairs(values: seq<Pair>, groups: seq<Group>): seq<Pair> {
    GroupPairs(values, groups) + Others(values, KeysOf(GroupPairs(values, groups)))
  }

  lemma NoteSettings(text: string)
    ensures Settings([Note(text)]) == []
  {
    NotesOnly([Note(text)], 1);
  }

  lemma LinesSettings(ps: seq<Pair>)
    ensures Settings(AsLines(ps)) == ps
  {
    SettingsOfLines(ps, |ps|);
  }

  lemma SectionSettings(heading: string, ps: seq<Pair>)
    ensures Settings(Section(heading, ps)) == ps
  {
    if ps == [] {
      NotesOnly([], 0);
    } else {
      NoteSettings(heading);
      LinesSettings(ps);
      NoteSettings("");
      ThreeParts([Note(heading)], AsLines(ps), [Note("")], ps, []);
    }
  }

  lemma AppendSettings(a: seq<Line>, b: seq<Line>, pa: seq<Pair>, pb: seq<Pair>)
    requires Settings(a) == pa && Settings(b) == pb
    ensures Settings(a + b) == pa + pb
  {
    SettingsAppend(a, b);
  }

  lemma {:induction false} SettingsFlatten(parts: seq<seq<Line>>, pairs: seq<seq<Pair>>, n: nat)
    requires n <= |parts| == |pairs| && forall i :: 0 <= i < |parts| ==> Settings(parts[i]) == pairs[i]
    ensures Settings(Flatten(parts, n)) == Flatten(pairs, n)
  {
    if n == 0 {
      NotesOnly([], 0);
    } else {
      SettingsFlatten(parts, pairs, n - 1);
      AppendSettings(Flatten(parts, n - 1), parts[n - 1], Flatten(pairs, n - 1), pairs[n - 1]);
    }
  }

  lemma SectionsSettings(values: seq<Pair>, groups: seq<Group>)
    ensures Settings(Sections(values, groups)) == GroupPairs(values, groups)
  {
    var parts, pairs := SectionParts(values, groups), GroupParts(values, groups);
    forall i | 0 <= i < |groups| ensures Settings(parts[i]) == pairs[i] {
      SectionSettings(Heading(groups[i]), KeyPairs(values, groups[i].keys));
    }
    SettingsFlatten(parts, pairs, |groups|);
  }

  lemma ThreeParts(a: seq<Line>, b: seq<Line>, c: seq<Line>, pb: seq<Pair>, pc: seq<Pair>)
    requires Settings(a) == [] && Settings(b) == pb && Settings(c) == pc
    ensures Settings(a + b + c) == pb + pc
  {
    AppendSettings(a, b, [], pb);
    AppendSettings(a + b, c, pb, pc);
  }

  lemma GroupedSettings(values: seq<Pair>, groups: seq<Group>, stamp: string)
    ensures Settings(GroupedLines(values, groups, stamp)) == PrintedPairs(values, groups)
  {
    var header, sections := Header(stamp), Sections(values, groups);
    var others := Others(values, KeysOf(GroupPairs(values, groups)));
    var tail := Section(OTHER, others);
    NotesOnly(header, 3);
    SectionsSettings(values, groups);
    SectionSettings(OTHER, others);
    ThreeParts(header, sections, tail, GroupPairs(values, groups), others);
  }

  lemma MemberEither(values: seq<Pair>, groups: seq<Group>, p: Pair)
    requires DistinctKeys(values)
    ensures p in PrintedPairs(values, groups) <==> p in NonEmpty(values)
  {
    var inGroups := GroupPairs(values, groups);
    GroupPairsFlat(values, groups);
    KeyPairsMembers(values, AllKeys(groups), |AllKeys(groups)|, p);
    OthersMembers(values, KeysOf(inGroups), p);
    OthersMembers(values, {}, p);
    if p in NonEmpty(values) && p.key in KeysOf(inGroups) {
      var i :| 0 <= i < |inGroups| && inGroups[i].key == p.key;
      KeyPairsMembers(values, AllKeys(groups), |AllKeys(groups)|, inGroups[i]);
    }
  }

  lemma SectionOk(heading: string, ps: seq<Pair>)
    requires OneLine(heading) && heading != "" && heading[0] == '#' && KeysValid(ps)
    ensures WellFormed(Section(heading, ps))
  {}

  lemma GroupSectionOk(values: seq<Pair>, g: Group)
    requires DistinctKeys(values) && KeysValid(values) && OneLine(g.title)
    ensures WellFormed(Section(Heading(g), KeyPairs(values, g.keys)))
  {
    var ps := KeyPairs(values, g.keys);
    forall i | 0 <= i < |ps| ensures IsKey(ps[i].key) { KeyPairsMembers(values, g.keys, |g.keys|, ps[i]); }
    assert OneLine("# ");
    SectionOk(Heading(g), ps);
  }

  lemma {:induction false} FlattenOk(parts: seq<seq<Line>>, n: nat)
    requires n <= |parts| && forall i :: 0 <= i < |parts| ==> WellFormed(parts[i])
    ensures WellFormed(Flatten(parts, n))
  {
    if n > 0 {
      FlattenOk(parts, n - 1);
    }
  }

  lemma SectionsOk(values: seq<Pair>, groups: seq<Group>)
    requires DistinctKeys(values) && KeysValid(values) && TitlesOneLine(groups)
    ensures WellFormed(Sections(values, groups))
  {
    var parts := SectionParts(values, groups);
    forall i | 0 <= i < |groups| ensures WellFormed(parts[i]) { GroupSectionOk(values, groups[i]); }
    FlattenOk(parts, |groups|);
  }

  lemma HeaderOk(stamp: string)
    requires OneLine(stamp)
    ensures WellFormed(Header(stamp)) && OneLine(OTHER)
  {
    GeneratedOk();
    assert OneLine(LAST_RUN + stamp);
    var ls := Header(stamp);
    assert LineOk(ls[0]) && LineOk(ls[1]) && LineOk(ls[2]);
  }

  lemma GeneratedOk()
    ensures OneLine(GENERATED) && GENERATED[0] == '#'
  {
    var a, b, c, d, e := "# Generated by", " scripts/setup", ".py \U{2014} re-run", " any time to ", "update.";
    assert OneLine(a) && OneLine(b);
    assert OneLine(c) && OneLine(d) && OneLine(e);
    assert OneLine(a + b) && OneLine(a + b + c) && OneLine(a + b + c + d);
  }
}
