/** Ranking published posts: the planner brief and the report's top posts, each with its own order of doing things. */
module Ranking {
  import opened Ranks
  import opened Seqs

  /** Absent numbers count as zero. */
  datatype Metrics = Metrics(impressions: Option<real>, likes: Option<real>, comments: Option<real>, shares: Option<real>)
  datatype Post = Post(platform: string, metrics: Metrics, idea: Option<string>, pillar: Option<string>, format: Option<string>)

  function Or0(n: Option<real>): real {
    if n.Some? then n.value else 0.0
  }

  function EngagementScore(m: Metrics): real {
    Or0(m.likes) + 2.0 * Or0(m.comments) + 3.0 * Or0(m.shares) + 0.001 * Or0(m.impressions)
  }

  function Score(p: Post): real {
    EngagementScore(p.metrics)
  }

  /** Rounded to thousandths, halves up. */
  function Round(x: real): real {
    (x * 1000.0 + 0.5).Floor as real / 1000.0
  }

  /** `trim` is the platform's string trim. */
  predicate HasIdea(trim: string -> string, p: Post) {
    p.idea.Some? && p.idea.value != "" && trim(p.idea.value) != ""
  }

  function Ideas(trim: string -> string): Post -> bool {
    (p: Post) => HasIdea(trim, p)
  }

  function Idea(trim: string -> string, p: Post): string {
    if p.idea.Some? then trim(p.idea.value) else ""
  }

  // ---- the planner brief ----------------------------------------------------

  datatype Scored = Scored(record: Post, score: real)
  datatype Highlight = Highlight(idea: string, platform: string, score: real)

  function WithScore(): Post -> Scored {
    (p: Post) => Scored(p, Score(p))
  }

  function HigherScored(): (Scored, Scored) -> bool {
    (a: Scored, b: Scored) => a.score > b.score
  }

  function Ranked(posts: seq<Post>): seq<Scored> {
    Sort(Map(posts, WithScore()), HigherScored())
  }

  function ToHighlight(trim: string -> string): Scored -> Highlight {
    (r: Scored) => Highlight(Idea(trim, r.record), r.record.platform, Round(r.score))
  }

  /** Sort by score, keep posts with an idea, cut, round. */
  function Highlights(trim: string -> string, posts: seq<Post>, topN: nat): seq<Highlight> {
    Map(Take(Filter(Ranked(posts), (r: Scored) => HasIdea(trim, r.record)), topN), ToHighlight(trim))
  }

  function Picked(trim: string -> string, pick: Post -> Option<string>): Post -> string {
    (p: Post) => if pick(p).Some? then trim(pick(p).value) else ""
  }

  /** `v` is what the post has there, trimmed and not blank. */
  predicate IsValue(trim: string -> string, pick: Post -> Option<string>, p: Post, v: string) {
    pick(p).Some? && v == trim(pick(p).value) && v != ""
  }

  ghost predicate SeenBefore(trim: string -> string, pick: Post -> Option<string>, records: seq<Post>, k: nat, v: string) {
    exists i :: 0 <= i < k && i < |records| && IsValue(trim, pick, records[i], v)
  }

  /** The first `n` distinct values of the records, in order of first appearance. */
  ghost predicate FirstValues(found: seq<string>, trim: string -> string, records: seq<Post>, pick: Post -> Option<string>,
                              n: nat) {
    && NoDup(found) && |found| <= n
    && (forall v :: v in found ==> SeenBefore(trim, pick, records, |records|, v))
    && (forall k, v :: 0 <= k < |records| && IsValue(trim, pick, records[k], v) && v !in found ==>
          |found| == n && forall u :: u in found ==> SeenBefore(trim, pick, records, k, u))
    && (forall a, b, k :: 0 <= a < b < |found| && 0 <= k < |records| && IsValue(trim, pick, records[k], found[b]) ==>
          SeenBefore(trim, pick, records, k, found[a]))
  }

  lemma ValueSeen(trim: string -> string, pick: Post -> Option<string>, records: seq<Post>, k: nat, v: string)
    requires k <= |records| && v in Map(records, Picked(trim, pick))[..k] && v != ""
    ensures SeenBefore(trim, pick, records, k, v)
  {
    var i :| 0 <= i < k && Map(records, Picked(trim, pick))[..k][i] == v;
    assert IsValue(trim, pick, records[i], v);
  }

  /** A value is left out only for values that appear before it. */
  lemma LeftOut(trim: string -> string, records: seq<Post>, pick: Post -> Option<string>, n: nat, k: nat, v: string)
    requires k < |records| && IsValue(trim, pick, records[k], v)
    requires v !in Take(Distinct(Map(records, Picked(trim, pick))), n)
    ensures var found := Take(Distinct(Map(records, Picked(trim, pick))), n);
      |found| == n && forall u :: u in found ==> SeenBefore(trim, pick, records, k, u)
  {
    var values := Map(records, Picked(trim, pick));
    var d := Distinct(values);
    var found := Take(d, n);
    DistinctIs(values);
    assert values[k] == v && v in values;
    var b :| 0 <= b < |d| && d[b] == v;
    forall a | 0 <= a < |found| ensures found[a] == d[a] && d[a] in found {
    }
    forall u | u in found ensures SeenBefore(trim, pick, records, k, u) {
      var a :| 0 <= a < |found| && found[a] == u;
      assert d[a] == u && u in d;
      ValueSeen(trim, pick, records, k, u);
    }
  }

  lemma TakenAreSeen(trim: string -> string, records: seq<Post>, pick: Post -> Option<string>, n: nat, v: string)
    requires v in Take(Distinct(Map(records, Picked(trim, pick))), n)
    ensures SeenBefore(trim, pick, records, |records|, v)
  {
    var values := Map(records, Picked(trim, pick));
    DistinctIs(values);
    assert values[..|records|] == values;
    assert v in Distinct(values);
    ValueSeen(trim, pick, records, |records|, v);
  }

  lemma TakenInOrder(trim: string -> string, records: seq<Post>, pick: Post -> Option<string>, n: nat, a: nat, b: nat, k: nat)
    requires var found := Take(Distinct(Map(records, Picked(trim, pick))), n);
      a < b < |found| && k < |records| && IsValue(trim, pick, records[k], found[b])
    ensures SeenBefore(trim, pick, records, k, Take(Distinct(Map(records, Picked(trim, pick))), n)[a])
  {
    var values := Map(records, Picked(trim, pick));
    var d := Distinct(values);
    DistinctIs(values);
    assert values[k] == d[b] && d[a] in d;
    ValueSeen(trim, pick, records, k, d[a]);
  }

  lemma TakenAreFirst(trim: string -> string, records: seq<Post>, pick: Post -> Option<string>, n: nat)
    ensures FirstValues(Take(Distinct(Map(records, Picked(trim, pick))), n), trim, records, pick, n)
  {
    var found := Take(Distinct(Map(records, Picked(trim, pick))), n);
    DistinctIs(Map(records, Picked(trim, pick)));
    forall v | v in found ensures SeenBefore(trim, pick, records, |records|, v) {
      TakenAreSeen(trim, records, pick, n, v);
    }
    forall k, v | 0 <= k < |records| && IsValue(trim, pick, records[k], v) && v !in found
      ensures |found| == n && forall u :: u in found ==> SeenBefore(trim, pick, records, k, u)
    {
      LeftOut(trim, records, pick, n, k, v);
    }
    forall a, b, k | 0 <= a < b < |found| && 0 <= k < |records| && IsValue(trim, pick, records[k], found[b])
      ensures SeenBefore(trim, pick, records, k, found[a])
    {
      TakenInOrder(trim, records, pick, n, a, b, k);
    }
  }

  /** At least one value is taken if there is one, even when `max` is zero. */
  method TopDistinct(trim: string -> string, records: seq<Post>, pick: Post -> Option<string>, max: nat)
    returns (found: seq<string>)
    ensures found == Take(Distinct(Map(records, Picked(trim, pick))), if max == 0 then 1 else max)
    ensures FirstValues(found, trim, records, pick, if max == 0 then 1 else max)
  {
    TakenAreFirst(trim, records, pick, if max == 0 then 1 else max);
    ghost var values := Map(records, Picked(trim, pick));
    var seen: set<string> := {};
    found := [];
    for i := 0 to |records|
      invariant found == Distinct(values[..i]) && forall v :: v in seen <==> v in found
      invariant |found| < if max == 0 then 1 else max
    {
      var value := if pick(records[i]).Some? then trim(pick(records[i]).value) else "";
      assert values[..i + 1] == values[..i] + [value];
      DistinctNext(values[..i], value);
      if value == "" || value in seen {
        continue;
      }
      seen := seen + {value};
      found := found + [value];
      if |found| >= max {
        DistinctOfPrefix(values, i + 1);
        return;
      }
    }
    assert values[..|records|] == values;
  }

  datatype Brief = Brief(topPillars: seq<string>, topFormats: seq<string>, highlights: seq<Highlight>, sampleSize: nat)

  function RankedPosts(posts: seq<Post>): seq<Post> {
    Map(Ranked(posts), (r: Scored) => r.record)
  }

  method SummarizePerformance(trim: string -> string, posts: seq<Post>, topN: nat) returns (brief: Option<Brief>)
    ensures brief.None? <==> posts == []
    ensures brief.Some? ==>
      var pillars, formats := Picked(trim, (p: Post) => p.pillar), Picked(trim, (p: Post) => p.format);
      && brief.value.highlights == Highlights(trim, posts, topN) && brief.value.sampleSize == |posts|
      && BestIdeas(trim, posts, brief.value.highlights, topN)
      && FirstValues(brief.value.topPillars, trim, RankedPosts(posts), (p: Post) => p.pillar, if topN == 0 then 1 else topN)
      && FirstValues(brief.value.topFormats, trim, RankedPosts(posts), (p: Post) => p.format, if topN == 0 then 1 else topN)
      && brief.value.topPillars == Take(Distinct(Map(RankedPosts(posts), pillars)), if topN == 0 then 1 else topN)
      && brief.value.topFormats == Take(Distinct(Map(RankedPosts(posts), formats)), if topN == 0 then 1 else topN)
  {
    if posts == [] {
      return None;
    }
    HighlightsAreBest(trim, posts, topN);
    var records := RankedPosts(posts);
    var pillars := TopDistinct(trim, records, (p: Post) => p.pillar, topN);
    var formats := TopDistinct(trim, records, (p: Post) => p.format, topN);
    brief := Some(Brief(pillars, formats, Highlights(trim, posts, topN), |posts|));
  }

  // ---- the report's top posts -----------------------------------------------

  datatype TopPost = TopPost(idea: string, platform: string, impressions: real, engagement: real)

  const TopPostCount := 5

  function ToTopPost(trim: string -> string): Post -> TopPost {
    (p: Post) => TopPost(Idea(trim, p), p.platform, Or0(p.metrics.impressions), Round(Score(p)))
  }

  function MoreEngaging(): (TopPost, TopPost) -> bool {
    (a: TopPost, b: TopPost) => a.engagement > b.engagement
  }

  /** Keep posts with an idea, round, sort by the rounded score, cut. */
  function TopPosts(trim: string -> string, posts: seq<Post>): seq<TopPost> {
    Take(Sort(Map(Filter(posts, Ideas(trim)), ToTopPost(trim)), MoreEngaging()), TopPostCount)
  }

  // ---- the two agree --------------------------------------------------------

  function ByScore(): (Post, Post) -> bool {
    (a: Post, b: Post) => Score(a) > Score(b)
  }

  function ByRounded(): (Post, Post) -> bool {
    (a: Post, b: Post) => Round(Score(a)) > Round(Score(b))
  }

  lemma RoundIsMonotone(x: real, y: real)
    requires x <= y
    ensures Round(x) <= Round(y)
  {
    var a, b := x * 1000.0 + 0.5, y * 1000.0 + 0.5;
    assert a <= b;
    assert a.Floor <= b.Floor;
  }

  /** No post among the first `n` by score has a lead over an earlier post that rounding hides. */
  ghost predicate RoundingLosesNoLead(posts: seq<Post>, n: nat) {
    forall i, j :: 0 <= i < j < |posts| ==> LeadSurvives(posts, n, i, j)
  }

  ghost predicate LeadSurvives(posts: seq<Post>, n: nat, i: nat, j: nat)
    requires i < j < |posts|
  {
    Rank(posts, ByScore(), j) < n && Score(posts[j]) > Score(posts[i]) ==> Round(Score(posts[j])) > Round(Score(posts[i]))
  }

  /**
   * The first `n` posts by rounded score are the first `n` by score, in the same order, exactly when rounding hides no
   * lead of one of them.
   */
  lemma RankingsAgreeIff(posts: seq<Post>, n: nat)
    ensures Take(Sort(posts, ByScore()), n) == Take(Sort(posts, ByRounded()), n) <==> RoundingLosesNoLead(posts, n)
  {
    forall a, b | ByRounded()(a, b) ensures ByScore()(a, b) {
      if Score(a) <= Score(b) { RoundIsMonotone(Score(a), Score(b)); }
    }
    PrefixesAgreeIff(posts, ByScore(), ByRounded(), n);
    forall i, j | 0 <= i < j < |posts|
      ensures LeadSurvives(posts, n, i, j) <==> LeadShows(posts, ByScore(), ByRounded(), n, i, j)
    {
    }
  }

  /** The brief's highlights, with filter and sort swapped. */
  lemma HighlightsAreRanked(trim: string -> string, posts: seq<Post>, topN: nat)
    ensures Highlights(trim, posts, topN)
            == Map(Map(Take(Sort(Filter(posts, Ideas(trim)), ByScore()), topN), WithScore()), ToHighlight(trim))
  {
    var ranked := Sort(posts, ByScore());
    SortMap(posts, WithScore(), ByScore(), HigherScored());
    FilterMap(ranked, WithScore(), Ideas(trim), (r: Scored) => HasIdea(trim, r.record));
    SortFilter(posts, ByScore(), Ideas(trim));
  }

  function AsHighlight(): TopPost -> Highlight {
    (t: TopPost) => Highlight(t.idea, t.platform, t.engagement)
  }

  lemma TopPostsAreRanked(trim: string -> string, posts: seq<Post>)
    ensures TopPosts(trim, posts) == Map(Take(Sort(Filter(posts, Ideas(trim)), ByRounded()), TopPostCount), ToTopPost(trim))
  {
    SortMap(Filter(posts, Ideas(trim)), ToTopPost(trim), ByRounded(), MoreEngaging());
  }

  function AsListed(trim: string -> string): Post -> Highlight {
    (p: Post) => Highlight(Idea(trim, p), p.platform, Round(Score(p)))
  }

  /** Different posts read differently when listed. */
  ghost predicate ToldApart(trim: string -> string, posts: seq<Post>) {
    forall p, q :: p in posts && q in posts && AsListed(trim)(p) == AsListed(trim)(q) ==> p == q
  }

  /** What report and brief list: the first five by rounded score and the first five by score. */
  lemma ListedPosts(trim: string -> string, posts: seq<Post>)
    ensures var kept := Filter(posts, Ideas(trim));
      && Map(TopPosts(trim, posts), AsHighlight()) == Map(Take(Sort(kept, ByRounded()), TopPostCount), AsListed(trim))
      && Highlights(trim, posts, TopPostCount) == Map(Take(Sort(kept, ByScore()), TopPostCount), AsListed(trim))
  {
    HighlightsAreRanked(trim, posts, TopPostCount);
    TopPostsAreRanked(trim, posts);
  }

  lemma SortedMembers(posts: seq<Post>, lt: (Post, Post) -> bool, n: nat)
    ensures forall p :: p in Take(Sort(posts, lt), n) ==> p in posts
  {
    SortPermutes(posts, lt);
    forall p | p in Take(Sort(posts, lt), n) ensures p in posts {
      assert p in multiset(Sort(posts, lt));
    }
  }

  lemma MapInjective<T, U>(a: seq<T>, b: seq<T>, f: T -> U)
    requires Map(a, f) == Map(b, f) && forall x, y :: x in a && y in b && f(x) == f(y) ==> x == y
    ensures a == b
  {
    forall i | 0 <= i < |a| ensures i < |b| && a[i] == b[i] {
      assert Map(a, f)[i] == Map(b, f)[i];
    }
  }

  /**
   * Report and brief list the same posts, in the same order, with the same scores, when rounding hides no lead of one of
   * the five best; and only then, as far as the lists tell different posts apart.
   */
  lemma ReportAndBriefAgree(trim: string -> string, posts: seq<Post>)
    ensures var kept := Filter(posts, Ideas(trim));
      var agree := Map(TopPosts(trim, posts), AsHighlight()) == Highlights(trim, posts, TopPostCount);
      && (RoundingLosesNoLead(kept, TopPostCount) ==> agree)
      && (ToldApart(trim, kept) ==> (agree <==> RoundingLosesNoLead(kept, TopPostCount)))
  {
    var kept := Filter(posts, Ideas(trim));
    var exact, rounded := Take(Sort(kept, ByScore()), TopPostCount), Take(Sort(kept, ByRounded()), TopPostCount);
    ListedPosts(trim, posts);
    RankingsAgreeIff(kept, TopPostCount);
    if ToldApart(trim, kept) && Map(exact, AsListed(trim)) == Map(rounded, AsListed(trim)) {
      SortedMembers(kept, ByScore(), TopPostCount);
      SortedMembers(kept, ByRounded(), TopPostCount);
      MapInjective(exact, rounded, AsListed(trim));
    }
  }

  // ---- what the lists show --------------------------------------------------

  /**
   * `score` is likes, comments twice, shares three times and impressions by the thousand, absent ones as zero, rounded to
   * thousandths with halves up.
   */
  ghost predicate IsScore(m: Metrics, score: real) {
    var impressions := if m.impressions.Some? then m.impressions.value else 0.0;
    var likes := if m.likes.Some? then m.likes.value else 0.0;
    var comments := if m.comments.Some? then m.comments.value else 0.0;
    var shares := if m.shares.Some? then m.shares.value else 0.0;
    var exact := likes + 2.0 * comments + 3.0 * shares + impressions / 1000.0;
    -1.0 / 2000.0 < score - exact <= 1.0 / 2000.0 && (score * 1000.0).Floor as real == score * 1000.0
  }

  /** The post has an idea, and the entry is its. */
  ghost predicate Lists(trim: string -> string, p: Post, h: Highlight) {
    && p.idea.Some? && p.idea.value != "" && trim(p.idea.value) != ""
    && h.idea == trim(p.idea.value) && h.platform == p.platform && IsScore(p.metrics, h.score)
  }

  /** The entry is that of one of the posts, with its impressions. */
  ghost predicate IsTopPost(trim: string -> string, posts: seq<Post>, t: TopPost) {
    exists p :: p in posts && Lists(trim, p, Highlight(t.idea, t.platform, t.engagement))
                && t.impressions == (if p.metrics.impressions.Some? then p.metrics.impressions.value else 0.0)
  }

  /** Entries of posts with ideas, best first; one is left out only for `n` entries that are as good. */
  ghost predicate BestIdeas(trim: string -> string, posts: seq<Post>, list: seq<Highlight>, n: nat) {
    && |list| <= n
    && (forall i, j :: 0 <= i < j < |list| ==> list[i].score >= list[j].score)
    && (forall h :: h in list ==> exists p :: p in posts && Lists(trim, p, h))
    && (forall p :: p in posts && p.idea.Some? && p.idea.value != "" && trim(p.idea.value) != "" ==>
          exists h :: Lists(trim, p, h) && (h in list || (|list| == n && forall g :: g in list ==> g.score >= h.score)))
  }

  lemma RoundedIsScore(p: Post)
    ensures IsScore(p.metrics, Round(Score(p)))
  {
    var x := Score(p);
    var k := (x * 1000.0 + 0.5).Floor;
    assert k as real <= x * 1000.0 + 0.5 < k as real + 1.0;
    assert Round(x) * 1000.0 == k as real;
  }

  lemma ListedAs(trim: string -> string, p: Post)
    requires HasIdea(trim, p)
    ensures Lists(trim, p, AsListed(trim)(p))
  {
    RoundedIsScore(p);
  }

  /** The place in the sorted list of a post with an idea. */
  lemma KeptAt(trim: string -> string, posts: seq<Post>, lt: (Post, Post) -> bool, p: Post) returns (k: nat)
    requires p in posts && HasIdea(trim, p)
    ensures var s := Sort(Filter(posts, Ideas(trim)), lt); k < |s| && s[k] == p
  {
    var kept := Filter(posts, Ideas(trim));
    FilterMembers(posts, Ideas(trim));
    assert Ideas(trim)(p) && p in kept;
    SortPermutes(kept, lt);
    assert p in multiset(Sort(kept, lt));
    k :| 0 <= k < |Sort(kept, lt)| && Sort(kept, lt)[k] == p;
  }

  lemma KeptHasIdea(trim: string -> string, posts: seq<Post>, lt: (Post, Post) -> bool, k: nat)
    requires k < |Sort(Filter(posts, Ideas(trim)), lt)|
    ensures var p := Sort(Filter(posts, Ideas(trim)), lt)[k]; p in posts && HasIdea(trim, p)
  {
    var kept := Filter(posts, Ideas(trim));
    SortPermutes(kept, lt);
    assert Sort(kept, lt)[k] in multiset(Sort(kept, lt));
    FilterMembers(posts, Ideas(trim));
    assert Ideas(trim)(Sort(kept, lt)[k]);
  }

  /** Cutting the sorted posts gives their best ideas, whichever of the two orders it is. */
  lemma SortedAreBest(trim: string -> string, posts: seq<Post>, lt: (Post, Post) -> bool, n: nat)
    requires StrictWeak(lt) && forall a, b :: !lt(b, a) ==> Round(Score(b)) <= Round(Score(a))
    ensures BestIdeas(trim, posts, Map(Take(Sort(Filter(posts, Ideas(trim)), lt), n), AsListed(trim)), n)
  {
    var s := Sort(Filter(posts, Ideas(trim)), lt);
    var list := Map(Take(s, n), AsListed(trim));
    SortSorts(Filter(posts, Ideas(trim)), lt);
    assert forall i :: 0 <= i < |list| ==> list[i] == AsListed(trim)(s[i]);
    forall h | h in list ensures exists p :: p in posts && Lists(trim, p, h) {
      var i :| 0 <= i < |list| && list[i] == h;
      KeptHasIdea(trim, posts, lt, i);
      ListedAs(trim, s[i]);
    }
    forall p | p in posts && HasIdea(trim, p)
      ensures exists h :: Lists(trim, p, h) && (h in list || (|list| == n && forall g :: g in list ==> g.score >= h.score))
    {
      var k := KeptAt(trim, posts, lt, p);
      ListedAs(trim, p);
      BestOrListed(trim, s, lt, n, k);
    }
  }

  lemma BestOrListed(trim: string -> string, s: seq<Post>, lt: (Post, Post) -> bool, n: nat, k: nat)
    requires Sorted(s, lt) && k < |s| && forall a, b :: !lt(b, a) ==> Round(Score(b)) <= Round(Score(a))
    ensures var list, h := Map(Take(s, n), AsListed(trim)), AsListed(trim)(s[k]);
      h in list || (|list| == n && forall g :: g in list ==> g.score >= h.score)
  {
    var list, h := Map(Take(s, n), AsListed(trim)), AsListed(trim)(s[k]);
    if k < n {
      assert list[k] == h;
    } else {
      forall g | g in list ensures g.score >= h.score {
        var i :| 0 <= i < |list| && list[i] == g;
        assert !lt(s[k], s[i]);
      }
    }
  }

  /** The brief's highlights are the best ideas. */
  lemma HighlightsAreBest(trim: string -> string, posts: seq<Post>, topN: nat)
    ensures BestIdeas(trim, posts, Highlights(trim, posts, topN), topN)
  {
    HighlightsAreRanked(trim, posts, topN);
    forall a, b | !ByScore()(b, a) ensures Round(Score(b)) <= Round(Score(a)) {
      RoundIsMonotone(Score(b), Score(a));
    }
    SortedAreBest(trim, posts, ByScore(), topN);
    var best := Take(Sort(Filter(posts, Ideas(trim)), ByScore()), topN);
    assert Map(Map(best, WithScore()), ToHighlight(trim)) == Map(best, AsListed(trim));
  }

  /** The report's top posts are the five best ideas, each with its impressions. */
  lemma TopPostsAreBest(trim: string -> string, posts: seq<Post>)
    ensures BestIdeas(trim, posts, Map(TopPosts(trim, posts), AsHighlight()), 5)
    ensures forall t :: t in TopPosts(trim, posts) ==> IsTopPost(trim, posts, t)
  {
    ListedPosts(trim, posts);
    SortedAreBest(trim, posts, ByRounded(), 5);
    TopPostsAreRanked(trim, posts);
    var s := Sort(Filter(posts, Ideas(trim)), ByRounded());
    forall t | t in TopPosts(trim, posts) ensures IsTopPost(trim, posts, t) {
      var i :| 0 <= i < |TopPosts(trim, posts)| && TopPosts(trim, posts)[i] == t;
      assert t == ToTopPost(trim)(s[i]);
      KeptHasIdea(trim, posts, ByRounded(), i);
      ListedAs(trim, s[i]);
    }
  }

  predicate Whole(x: real) {
    x.Floor as real == x
  }

  predicate WholeMetrics(p: Post) {
    Whole(Or0(p.metrics.impressions)) && Whole(Or0(p.metrics.likes))
    && Whole(Or0(p.metrics.comments)) && Whole(Or0(p.metrics.shares))
  }

  lemma WholeScoresRoundExactly(p: Post)
    requires WholeMetrics(p)
    ensures Round(Score(p)) == Score(p)
  {
    var m := p.metrics;
    var n := 1000 * Or0(m.likes).Floor + 2000 * Or0(m.comments).Floor + 3000 * Or0(m.shares).Floor + Or0(m.impressions).Floor;
    assert Score(p) * 1000.0 == n as real;
    assert (n as real + 0.5).Floor == n;
  }

  /** With whole-number metrics they always agree. */
  lemma WholeMetricsAgree(trim: string -> string, posts: seq<Post>)
    requires forall p :: p in posts ==> WholeMetrics(p)
    ensures Map(TopPosts(trim, posts), AsHighlight()) == Highlights(trim, posts, TopPostCount)
  {
    var kept := Filter(posts, Ideas(trim));
    FilterMembers(posts, Ideas(trim));
    forall i, j | 0 <= i < j < |kept| ensures LeadSurvives(kept, TopPostCount, i, j) {
      assert kept[i] in kept && kept[j] in kept;
      WholeScoresRoundExactly(kept[i]);
      WholeScoresRoundExactly(kept[j]);
    }
    ReportAndBriefAgree(trim, posts);
  }

  /** With fractional metrics they can differ: a lead of less than a thousandth is seen by the brief only. */
  lemma FractionalMetricsDisagree(trim: string -> string)
    requires trim("a") == "a" && trim("b") == "b"
    ensures Map(TopPosts(trim, FractionalPosts()), AsHighlight()) != Highlights(trim, FractionalPosts(), TopPostCount)
  {
    var posts := FractionalPosts();
    HighlightsAreRanked(trim, posts, TopPostCount);
    TopPostsAreRanked(trim, posts);
    FractionalRankings(trim);
    assert Highlights(trim, posts, TopPostCount)[0].idea == "b";
    assert Map(TopPosts(trim, posts), AsHighlight())[0].idea == "a";
  }

  function Fractional(idea: string, impressions: real): Post {
    Post("x", Metrics(Some(impressions), None, None, None), Some(idea), None, None)
  }

  function FractionalPosts(): seq<Post> {
    [Fractional("a", 0.1), Fractional("b", 0.2)]
  }

  lemma FractionalScores()
    ensures Score(Fractional("a", 0.1)) < Score(Fractional("b", 0.2))
    ensures Round(Score(Fractional("a", 0.1))) == Round(Score(Fractional("b", 0.2)))
  {
    assert (0.6).Floor == 0 && (0.7).Floor == 0;
  }

  lemma FractionalRankings(trim: string -> string)
    requires trim("a") == "a" && trim("b") == "b"
    ensures var a, b, kept := Fractional("a", 0.1), Fractional("b", 0.2), Filter(FractionalPosts(), Ideas(trim));
      Sort(kept, ByScore()) == [b, a] && Sort(kept, ByRounded()) == [a, b]
  {
    var a, b := Fractional("a", 0.1), Fractional("b", 0.2);
    FractionalScores();
    assert [a, b][1..] == [b] && [b][1..] == [];
    assert Filter([b], Ideas(trim)) == [b];
    TwoSorted(a, b, ByScore());
    TwoSorted(a, b, ByRounded());
  }

  lemma TwoSorted<T>(a: T, b: T, lt: (T, T) -> bool)
    ensures Sort([a, b], lt) == if lt(b, a) then [b, a] else [a, b]
  {
    assert [a, b][1..] == [b] && [b][1..] == [];
    assert Sort([b], lt) == [b];
    assert Insert(a, [], lt) == [a];
  }
}
