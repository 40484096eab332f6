/**
 * The corpus locator: the Markdown paths below the dataset root, found by
 * a recursive glob.
 */
module Corpus {
  import opened Paths

  // Glob patterns over paths relative to the root: `AnyDepth` is
  // `**/*.md`, `BelowTopLevel` is `**/*/*.md`, and `TopLevel` is `*.md`,
  // the files directly under the root, by which the other two differ.
  datatype Pattern = AnyDepth | BelowTopLevel | TopLevel

  /** The pattern matches the relative path `p`. */
  predicate Matches(pattern: Pattern, p: Path)
  {
    && |p| >= 1
    && EndsWith(Last(p), Extension)
    && match pattern
       case AnyDepth => true
       case BelowTopLevel => |p| >= 2
       case TopLevel => |p| == 1
  }

  /**
   * The paths of `entries` (every file and directory below the root,
   * relative to it, in the order the file system lists them) that the
   * pattern matches.
   */
  function Glob(entries: seq<Path>, pattern: Pattern): (r: seq<Path>)
    ensures forall p :: p in r <==> p in entries && Matches(pattern, p)
    ensures |r| <= |entries|
  {
    if |entries| == 0 then []
    else if Matches(pattern, entries[0]) then [entries[0]] + Glob(entries[1..], pattern)
    else Glob(entries[1..], pattern)
  }

  /**
   * The Markdown paths of the dataset; with `ignoreRootdir` those directly
   * under the root are left out.
   */
  function YieldAllMd(entries: seq<Path>, ignoreRootdir: bool): seq<Path>
  {
    Glob(entries, if ignoreRootdir then BelowTopLevel else AnyDepth)
  }

  /**
   * Leaving out the top level only filters the full listing: what is kept
   * is the full listing's paths of depth two or more, in the same order.
   */
  lemma {:induction false} IgnoreRootdirFilters(entries: seq<Path>)
    ensures YieldAllMd(entries, true) == Glob(YieldAllMd(entries, false), BelowTopLevel)
    decreases |entries|
  {
    if |entries| > 0 {
      IgnoreRootdirFilters(entries[1..]);
      var all := YieldAllMd(entries[1..], false);
      if Matches(AnyDepth, entries[0]) {
        assert ([entries[0]] + all)[0] == entries[0];
        assert ([entries[0]] + all)[1..] == all;
      }
    }
  }

  /** Every path found with `ignoreRootdir` is found without it. */
  lemma IgnoreRootdirSubset(entries: seq<Path>)
    ensures forall p :: p in YieldAllMd(entries, true) ==> p in YieldAllMd(entries, false)
  {
  }

  /**
   * The full listing is the nested one together with exactly the files
   * directly under the root, counted with multiplicity.
   */
  lemma {:induction false} DifferenceIsTopLevel(entries: seq<Path>)
    ensures multiset(YieldAllMd(entries, false))
         == multiset(YieldAllMd(entries, true)) + multiset(Glob(entries, TopLevel))
    ensures |YieldAllMd(entries, false)| == |YieldAllMd(entries, true)| + |Glob(entries, TopLevel)|
    decreases |entries|
  {
    if |entries| > 0 {
      DifferenceIsTopLevel(entries[1..]);
    }
  }

  /** Listing two parts of the tree one after the other lists their matches in that order. */
  lemma {:induction false} GlobAppend(a: seq<Path>, b: seq<Path>, pattern: Pattern)
    ensures Glob(a + b, pattern) == Glob(a, pattern) + Glob(b, pattern)
    decreases |a|
  {
    if |a| == 0 {
      assert a + b == b;
    } else {
      assert (a + b)[0] == a[0];
      assert (a + b)[1..] == a[1..] + b;
      GlobAppend(a[1..], b, pattern);
    }
  }

  lemma GlobOne(p: Path, pattern: Pattern)
    ensures Glob([p], pattern) == if Matches(pattern, p) then [p] else []
  {
  }

  /** One service directory of the example dataset below. */
  const ServiceDir: seq<Path> := [["FakeService"], ["FakeService", "Community Guidelines.md"],
                                  ["FakeService", "Privacy Policy.md"], ["FakeService", "logo.png"]]

  /** Another service directory, with a historical sub-directory. */
  const HistoryDir: seq<Path> := [["Instagram"], ["Instagram", "Community Guidelines.md"],
                                  ["Instagram", "Community Guidelines"],
                                  ["Instagram", "Community Guidelines", "2020-01-15.md"],
                                  ["Instagram", "Community Guidelines", "2021-03-02.md"],
                                  ["Instagram", "Terms of Service.md"]]

  lemma ServiceDirCounts()
    ensures |Glob(ServiceDir, AnyDepth)| == 2 && |Glob(ServiceDir, BelowTopLevel)| == 2
  {
  }

  lemma HistoryDirCounts()
    ensures |Glob(HistoryDir, AnyDepth)| == 4 && |Glob(HistoryDir, BelowTopLevel)| == 4
  {
    var d := HistoryDir;
    assert d == [d[0]] + [d[1]] + [d[2]] + [d[3]] + [d[4]] + [d[5]];
    assert !EndsWith(Last(d[0]), Extension);
    assert EndsWith(Last(d[1]), Extension);
    assert !EndsWith(Last(d[2]), Extension);
    assert EndsWith(Last(d[3]), Extension);
    assert EndsWith(Last(d[4]), Extension);
    assert EndsWith(Last(d[5]), Extension);
    forall pattern | pattern == AnyDepth || pattern == BelowTopLevel
      ensures |Glob(d, pattern)| == 4
    {
      GlobOne(d[0], pattern); GlobOne(d[1], pattern); GlobOne(d[2], pattern);
      GlobOne(d[3], pattern); GlobOne(d[4], pattern); GlobOne(d[5], pattern);
      GlobAppend([d[0]], [d[1]], pattern);
      GlobAppend([d[0]] + [d[1]], [d[2]], pattern);
      GlobAppend([d[0]] + [d[1]] + [d[2]], [d[3]], pattern);
      GlobAppend([d[0]] + [d[1]] + [d[2]] + [d[3]], [d[4]], pattern);
      GlobAppend([d[0]] + [d[1]] + [d[2]] + [d[3]] + [d[4]], [d[5]], pattern);
    }
  }

  /**
   * An illustrative dataset with the unit-test fixture's counts: six
   * documents in service directories and one Markdown file at the top
   * level, so the locator finds six paths, or seven when the top level is
   * included. Only the two `Community Guidelines.md` files directly under
   * `FakeService` and `Instagram` are known to be in the fixture; the other
   * names are made up.
   */
  lemma FixtureCounts()
    ensures var entries := [["README.md"]] + ServiceDir + HistoryDir;
      |YieldAllMd(entries, true)| == 6 && |YieldAllMd(entries, false)| == 7
  {
    var top: seq<Path> := [["README.md"]];
    assert EndsWith(Last(top[0]), Extension);
    ServiceDirCounts();
    HistoryDirCounts();
    forall pattern | pattern == AnyDepth || pattern == BelowTopLevel
      ensures Glob(top + ServiceDir + HistoryDir, pattern)
           == Glob(top, pattern) + Glob(ServiceDir, pattern) + Glob(HistoryDir, pattern)
    {
      GlobAppend(top, ServiceDir, pattern);
      GlobAppend(top + ServiceDir, HistoryDir, pattern);
    }
    GlobOne(top[0], AnyDepth);
    GlobOne(top[0], BelowTopLevel);
  }
}
