/** Reading what either .env printer wrote: exactly which values survive. The flat printer and the
    grouped one lose no non-empty entry and repeat none, and what they wrote reads back as exactly these
    entries if and only if their values are clean: one line, trimmed, without an inline comment and not
    in quotes. The groups that the setup script installs satisfy what the grouped printer needs: no key
    is in two of them, and their titles are one line each. */
module EnvRoundTrip {
  import opened EnvDocuments
  import opened EnvFile
  import opened EnvLines
  import opened Options

  /** The flat printer: reading back gives exactly the non-empty entries, printed once each and in
      order, if and only if their values are clean. */
  lemma FlatRoundTrip(values: seq<Pair>)
    requires DistinctKeys(values) && KeysValid(values)
    ensures Settings(FlatLines(values)) == NonEmpty(values)
    ensures IsDict(Read(Join(Rendered(FlatLines(values)))), NonEmpty(values)) <==> AllClean(NonEmpty(values))
  {
    FlatSettings(values);
    OthersDistinct(values, {}, |values|);
    FlatOk(values);
    DocumentRoundTrip(FlatLines(values));
  }

  /** Grouping loses nothing and repeats nothing. */
  lemma {:induction false} PrintedOnce(values: seq<Pair>, groups: seq<Group>)
    requires DistinctKeys(values) && DistinctStrings(AllKeys(groups))
    ensures DistinctKeys(PrintedPairs(values, groups)) && SameEntries(PrintedPairs(values, groups), NonEmpty(values))
  {
    var inGroups := GroupPairs(values, groups);
    var others := Others(values, KeysOf(inGroups));
    GroupPairsFlat(values, groups);
    KeyPairsDistinct(values, AllKeys(groups), |AllKeys(groups)|);
    OthersDistinct(values, KeysOf(inGroups), |values|);
    forall i, j | 0 <= i < |inGroups| && 0 <= j < |others| ensures inGroups[i].key != others[j].key {
      OthersMembers(values, KeysOf(inGroups), others[j]);
      assert inGroups[i].key in KeysOf(inGroups);
    }
    forall p ensures p in PrintedPairs(values, groups) <==> p in NonEmpty(values) {
      MemberEither(values, groups, p);
    }
  }

  /** The grouped printer: through headings, groups and extras, every non-empty entry is printed
      once, and reading back gives exactly those entries if and only if their values are clean. */
  lemma {:induction false} GroupedRoundTrip(values: seq<Pair>, groups: seq<Group>, stamp: string)
    requires DistinctKeys(values) && KeysValid(values)
    requires DistinctStrings(AllKeys(groups)) && TitlesOneLine(groups) && OneLine(stamp)
    ensures var printed := Settings(GroupedLines(values, groups, stamp));
            DistinctKeys(printed) && SameEntries(printed, NonEmpty(values))
    ensures IsDict(Read(Join(Rendered(GroupedLines(values, groups, stamp)))), NonEmpty(values)) <==> AllClean(NonEmpty(values))
  {
    var ls, printed := GroupedLines(values, groups, stamp), PrintedPairs(values, groups);
    var others := Others(values, KeysOf(GroupPairs(values, groups)));
    GroupedSettings(values, groups, stamp);
    PrintedOnce(values, groups);
    HeaderOk(stamp);
    SectionsOk(values, groups);
    forall i | 0 <= i < |others| ensures IsKey(others[i].key) {
      OthersMembers(values, KeysOf(GroupPairs(values, groups)), others[i]);
    }
    SectionOk(OTHER, others);
    DocumentRoundTrip(ls);
    var env := Read(Join(Rendered(ls)));
    SameDict(env, printed, NonEmpty(values));
    SameDict(env, NonEmpty(values), printed);
  }

  // The keys of the installed groups are told apart by numbers: two strings of one length differ at
  // some position, and the tag names one at which all of these do. That makes 300 comparisons of
  // strings into comparisons of numbers.

  /** The length of a key and one well-chosen letter. */
  function Tag(s: string): int {
    1000 * |s| + if |s| >= 12 then s[10] as int else if |s| >= 8 then s[7] as int else 0
  }

  function Tags(ss: seq<string>): (ts: seq<int>)
    ensures |ts| == |ss|
  {
    seq(|ss|, i requires 0 <= i < |ss| => Tag(ss[i]))
  }

  lemma TagsTellApart(ss: seq<string>)
    requires forall i, j :: 0 <= i < j < |ss| ==> Tags(ss)[i] != Tags(ss)[j]
    ensures DistinctStrings(ss)
  {
    forall i, j | 0 <= i < j < |ss| ensures ss[i] != ss[j] { assert Tags(ss)[i] != Tags(ss)[j]; }
  }

  lemma SetupKeys()
    ensures AllKeys(GROUPS)
            == GROUPS[0].keys + GROUPS[1].keys + GROUPS[2].keys + GROUPS[3].keys + GROUPS[4].keys + GROUPS[5].keys
  {
    var g, parts := GROUPS, KeyParts(GROUPS);
    assert Flatten(parts, 1) == [] + g[0].keys == g[0].keys;
    assert Flatten(parts, 2) == g[0].keys + g[1].keys;
    assert Flatten(parts, 3) == g[0].keys + g[1].keys + g[2].keys;
    assert Flatten(parts, 4) == g[0].keys + g[1].keys + g[2].keys + g[3].keys;
    assert Flatten(parts, 5) == g[0].keys + g[1].keys + g[2].keys + g[3].keys + g[4].keys;
  }

  const SETUP_TAGS: seq<int> :=
    [10075] +
    [12069, 8084, 7000, 8068, 16089, 16069, 16067] +
    [12082, 16080, 13065, 18073, 15083, 17084] +
    [30089, 19095, 21083] +
    [14070, 19089] +
    [11072, 11080, 16073, 14095, 17095, 15079]

  lemma FirstTags()
    ensures Tags(GROUPS[0].keys + GROUPS[1].keys) == [10075] + [12069, 8084, 7000, 8068, 16089, 16069, 16067]
  {
    assert Tags(GROUPS[1].keys) == [12069, 8084, 7000, 8068, 16089, 16069, 16067];
  }

  lemma SetupTags()
    ensures Tags(AllKeys(GROUPS)) == SETUP_TAGS
  {
    var g := GROUPS;
    var ks := g[0].keys + g[1].keys;
    SetupKeys();
    FirstTags();
    NextTags();
  }

  lemma NextTags()
    ensures Tags(GROUPS[2].keys) == [12082, 16080, 13065, 18073, 15083, 17084]
    ensures Tags(GROUPS[3].keys) == [30089, 19095, 21083]
    ensures Tags(GROUPS[4].keys) == [14070, 19089]
    ensures Tags(GROUPS[5].keys) == [11072, 11080, 16073, 14095, 17095, 15079]
  {}

  lemma SetupTagsDiffer()
    ensures forall i, j :: 0 <= i < j < |SETUP_TAGS| ==> SETUP_TAGS[i] != SETUP_TAGS[j]
  {}

  /** The groups of `write_env` are such groups. */
  lemma SetupGroups()
    ensures DistinctStrings(AllKeys(GROUPS)) && TitlesOneLine(GROUPS)
  {
    SetupTags();
    SetupTagsDiffer();
    TagsTellApart(AllKeys(GROUPS));
    SetupTitles();
  }

  lemma SetupTitles()
    ensures TitlesOneLine(GROUPS)
  {
    assert OneLine(GROUPS[0].title) && OneLine(GROUPS[1].title) && OneLine(GROUPS[2].title);
    assert OneLine(GROUPS[3].title) && OneLine(GROUPS[4].title) && OneLine(GROUPS[5].title);
  }
}
