/** The computations of the dashboard's source-analysis view: the
    `source_usage` histogram of grounding domains and the `source_categories`
    classification of the distinct sources by keyword. */
module Sources {
  import opened Common
  import opened Json
  import opened Text
  import opened Tally
  import LexOrder
  import opened EventLog

  // ---------------------------------------------------------------------
  // source_usage
  // ---------------------------------------------------------------------

  /** The `source_usage` loop: for every chunk of every event whose domain is
      truthy, `source_usage[domain] = source_usage.get(domain, 0) + 1`. The
      result counts every non-empty domain as often as chunks carry it. */
  method CountSourceUsage(events: seq<Event>) returns (usage: map<string, nat>)
    requires EventsTyped(events)
    ensures Tallies(usage, NamedDomains(events), {})
  {
    usage := map[];
    var i := 0;
    while i < |events|
      invariant 0 <= i <= |events|
      invariant usage == Counted(map[], NamedDomains(events[..i]))
    {
      CountedAppend(map[], NamedDomains(events[..i]), ChunkDomains(events[i].groundingChunks));
      usage := CountChunkDomains(usage, events[i].groundingChunks);
      assert events[..i + 1][..i] == events[..i];
      i := i + 1;
    }
    assert events[..i] == events;
    TalliesEmpty(map[], {});
    CountedTallies(map[], NamedDomains(events), {});
  }

  /** The inner loop of `source_usage`, over the chunks of one event. */
  method CountChunkDomains(usage0: map<string, nat>, chunks: seq<Chunk>) returns (usage: map<string, nat>)
    requires forall j :: 0 <= j < |chunks| ==> DomainTyped(chunks[j])
    ensures usage == Counted(usage0, ChunkDomains(chunks))
  {
    usage := usage0;
    var j := 0;
    while j < |chunks|
      invariant 0 <= j <= |chunks|
      invariant usage == Counted(usage0, ChunkDomains(chunks[..j]))
    {
      var domain := chunks[j].domain;
      ghost var xs := ChunkDomains(chunks[..j]);
      ChunkDomainsSnoc(chunks, j);
      if Truthy(domain) {
        assert ChunkDomain(chunks[j]) == [domain.s];
        CountedSnoc(usage0, xs, domain.s);
        usage := Bump(usage, domain.s);
      } else {
        assert xs + ChunkDomain(chunks[j]) == xs;
      }
      j := j + 1;
    }
    assert chunks[..j] == chunks;
  }

  // ---------------------------------------------------------------------
  // source_categories
  // ---------------------------------------------------------------------

  /** The category table, in the order the classifier consults it. */
  const Categories: seq<(string, seq<string>)> := [
    ("Academic/Research", ["edu", "org", "ac."]),
    ("Commercial", ["com"]),
    ("Technology", ["io", "ai", "tech"]),
    ("News/Media", ["news", "medium", "forbes"])
  ]

  /** The category of a source that matches no keyword. */
  const Other := "Other"

  /** `any(keyword in lowered for keyword in keywords)`. */
  predicate MatchesAny(lowered: string, keywords: seq<string>)
  {
    exists k | 0 <= k < |keywords| :: Contains(lowered, keywords[k])
  }

  /** The first category at position `k` or later whose keywords match, or `Other`. */
  function CategoryFrom(lowered: string, k: nat): string
    requires k <= |Categories|
    decreases |Categories| - k
  {
    if k == |Categories| then Other
    else if MatchesAny(lowered, Categories[k].1) then Categories[k].0
    else CategoryFrom(lowered, k + 1)
  }

  /** The category a source is counted in. */
  function CategoryOf(source: string): string
  {
    CategoryFrom(Lower(source), 0)
  }

  /** The category names are distinct, and none of them is `Other`. */
  lemma CategoryNamesDistinct()
    ensures forall i, j :: 0 <= i < j < |Categories| ==> Categories[i].0 != Categories[j].0
    ensures forall i :: 0 <= i < |Categories| ==> Categories[i].0 != Other
  {
    assert Categories[0].0[0] == 'A' && Categories[1].0[0] == 'C';
    assert Categories[2].0[0] == 'T' && Categories[3].0[0] == 'N' && Other[0] == 'O';
  }

  /** `CategoryFrom(lowered, m)` is `Other` or the name of the first matching category from `m` on. */
  lemma {:induction false} CategoryFromCases(lowered: string, m: nat)
    requires m <= |Categories|
    ensures || (CategoryFrom(lowered, m) == Other &&
                forall j :: m <= j < |Categories| ==> !MatchesAny(lowered, Categories[j].1))
            || (exists k :: m <= k < |Categories| && CategoryFrom(lowered, m) == Categories[k].0 &&
                  MatchesAny(lowered, Categories[k].1) &&
                  forall j :: m <= j < k ==> !MatchesAny(lowered, Categories[j].1))
    decreases |Categories| - m
  {
    if m < |Categories| && !MatchesAny(lowered, Categories[m].1) {
      CategoryFromCases(lowered, m + 1);
    }
  }

  /** A source is counted under the `k`-th category exactly when one of its
      keywords occurs in the lower-cased source and no earlier category's does. */
  lemma CategoryOfFirstMatch(source: string, k: nat)
    requires k < |Categories|
    ensures CategoryOf(source) == Categories[k].0 <==>
            MatchesAny(Lower(source), Categories[k].1) &&
            forall j :: 0 <= j < k ==> !MatchesAny(Lower(source), Categories[j].1)
  {
    var l := Lower(source);
    CategoryNamesDistinct();
    CategoryFromCases(l, 0);
    if MatchesAny(l, Categories[k].1) && forall j :: 0 <= j < k ==> !MatchesAny(l, Categories[j].1) {
      if CategoryOf(source) != Other {
        var k' :| 0 <= k' < |Categories| && CategoryOf(source) == Categories[k'].0 &&
                  MatchesAny(l, Categories[k'].1) && forall j :: 0 <= j < k' ==> !MatchesAny(l, Categories[j].1);
        assert k' == k;
      }
    }
  }

  /** A source is counted as `Other` exactly when no keyword of any category occurs in it. */
  lemma CategoryOfOther(source: string)
    ensures CategoryOf(source) == Other <==>
            forall j :: 0 <= j < |Categories| ==> !MatchesAny(Lower(source), Categories[j].1)
  {
    CategoryNamesDistinct();
    CategoryFromCases(Lower(source), 0);
  }

  /** First match wins: ".com" outranks the news keywords, and letter case is ignored. */
  lemma CategoryExamples()
    ensures CategoryOf("forbes.com") == "Commercial"
    ensures CategoryOf("MIT.EDU") == "Academic/Research"
  {
    var f := Lower("forbes.com");
    LowerIdentity("forbes.com");
    assert OccursAt(f, "com", 7);
    assert Categories[1].1[0] == "com";
    assert MatchesAny(f, Categories[1].1);
    assert !MatchesAny(f, Categories[0].1) by {
      forall i | 0 <= i <= |f| - 3
        ensures !OccursAt(f, "edu", i) && !OccursAt(f, "org", i)
      {
        assert f[i..i + 3][0] == f[i] && f[i..i + 3][1] == f[i + 1] && f[i..i + 3][2] == f[i + 2];
      }
      AbsentFirstCharNotContained(f, "ac.");
    }
    var m := Lower("MIT.EDU");
    assert m == "mit.edu" by {
      forall i | 0 <= i < 7 ensures m[i] == "mit.edu"[i] {
      }
    }
    assert OccursAt(m, "edu", 4);
    assert Categories[0].1[0] == "edu";
    assert MatchesAny(m, Categories[0].1);
  }

  /** The category of each source, in order. */
  function CategoryList(sources: seq<string>): (cs: seq<string>)
    ensures |cs| == |sources|
    ensures forall i :: 0 <= i < |sources| ==> cs[i] == CategoryOf(sources[i])
  {
    seq(|sources|, i requires 0 <= i < |sources| => CategoryOf(sources[i]))
  }

  /** The `source_categories` loop: starts from `{'Other': 0}` and counts each
      source once, under `CategoryOf`; the counts add up to the number of sources. */
  method CategorizeSources(sources: seq<string>) returns (counts: map<string, nat>)
    ensures Tallies(counts, CategoryList(sources), {Other})
  {
    counts := map[Other := 0];
    var i := 0;
    while i < |sources|
      invariant 0 <= i <= |sources|
      invariant counts == Counted(map[Other := 0], CategoryList(sources[..i]))
    {
      OtherKept(CategoryList(sources[..i]));
      counts := CountSource(counts, sources[i]);
      CategoryListSnoc(sources, i);
      CountedSnoc(map[Other := 0], CategoryList(sources[..i]), CategoryOf(sources[i]));
      i := i + 1;
    }
    assert sources[..i] == sources;
    TalliesEmpty(map[Other := 0], {Other});
    CountedTallies(map[Other := 0], CategoryList(sources), {Other});
  }

  /** The body of the `source_categories` loop for one source: adds one to the
      first category with a keyword in the lower-cased source (then `break`s),
      or to `Other` when none matched. */
  method CountSource(counts0: map<string, nat>, source: string) returns (counts: map<string, nat>)
    requires Other in counts0
    ensures counts == Bump(counts0, CategoryOf(source))
  {
    counts := counts0;
    var lowered := Lower(source);
    var categorized := false;
    var k := 0;
    while k < |Categories|
      invariant 0 <= k <= |Categories|
      invariant !categorized && counts == counts0
      invariant CategoryFrom(lowered, k) == CategoryOf(source)
    {
      var category := Categories[k].0;
      var keywords := Categories[k].1;
      if MatchesAny(lowered, keywords) {
        counts := counts[category := (if category in counts then counts[category] else 0) + 1];
        categorized := true;
        break;
      }
      k := k + 1;
    }
    if !categorized {
      counts := counts[Other := counts[Other] + 1];
    }
  }

  /** Taking one more source adds its category. */
  lemma CategoryListSnoc(sources: seq<string>, i: nat)
    requires i < |sources|
    ensures CategoryList(sources[..i + 1]) == CategoryList(sources[..i]) + [CategoryOf(sources[i])]
  {
  }

  /** The `Other` key is present from the start and never removed. */
  lemma {:induction false} OtherKept(xs: seq<string>)
    ensures Other in Counted(map[Other := 0], xs)
  {
    if xs != [] {
      OtherKept(xs[..|xs| - 1]);
    }
  }

  // ---------------------------------------------------------------------
  // display_source_analysis, without the rendering
  // ---------------------------------------------------------------------

  /** What the source-analysis view computes: the sorted distinct sources, the
      usage histogram, whose keys are exactly those sources and whose counts add
      up to the number of chunks with a domain, and, when there is any usage,
      the category counts, which add up to the number of sources. */
  method SourceAnalysis(ex: Extractor) returns (sources: seq<string>, usage: map<string, nat>, categories: Option<map<string, nat>>)
    requires WfDocument(ex.data)
    ensures LexOrder.StrictlySorted(sources)
    ensures forall d :: d in usage <==> d in sources
    ensures forall d :: d in usage ==> usage[d] == multiset(NamedDomains(AllEvents(ex.data)))[d]
    ensures Sum(usage) == |NamedDomains(AllEvents(ex.data))|
    ensures categories.Some? <==> usage != map[]
    ensures categories.Some? ==>
              Tallies(categories.value, CategoryList(sources), {Other}) &&
              Sum(categories.value) == |sources|
  {
    sources := GetGroundingSources(ex);
    var events := ExtractAllEvents(ex);
    AllEventsTyped(ex.data);
    usage := CountSourceUsage(events);
    if usage != map[] {
      var counts := CategorizeSources(sources);
      categories := Some(counts);
    } else {
      categories := None;
    }
  }
}
