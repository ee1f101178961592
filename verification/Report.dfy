/** The performance report: per-platform rollups that add up to the totals. */
module Report {
  import opened Seqs
  import opened Ranking

  /** The five columns of a rollup. */
  datatype Columns = Columns(posts: nat, impressions: real, likes: real, comments: real, shares: real)
  datatype Agg = Agg(platform: string, cols: Columns)

  function Zero(): Columns { Columns(0, 0.0, 0.0, 0.0, 0.0) }

  function Plus(a: Columns, b: Columns): Columns {
    Columns(a.posts + b.posts, a.impressions + b.impressions, a.likes + b.likes, a.comments + b.comments, a.shares + b.shares)
  }

  /** What one post contributes. */
  function One(p: Post): Columns {
    Columns(1, Or0(p.metrics.impressions), Or0(p.metrics.likes), Or0(p.metrics.comments), Or0(p.metrics.shares))
  }

  function SumPosts(posts: seq<Post>): Columns {
    if posts == [] then Zero() else Plus(SumPosts(posts[..|posts| - 1]), One(Last(posts)))
  }

  function SumAggs(aggs: seq<Agg>): Columns {
    if aggs == [] then Zero() else Plus(aggs[0].cols, SumAggs(aggs[1..]))
  }

  function On(platform: string): Post -> bool {
    (p: Post) => p.platform == platform
  }

  function Busier(): (Agg, Agg) -> bool {
    (a: Agg, b: Agg) => a.cols.impressions > b.cols.impressions
  }

  lemma PlusIsAssociative(a: Columns, b: Columns, c: Columns)
    ensures Plus(Plus(a, b), c) == Plus(a, Plus(b, c))
    ensures Plus(Plus(a, b), c) == Plus(Plus(a, c), b)
  {
  }

  lemma PlusZero(a: Columns)
    ensures Plus(Zero(), a) == a
  {
  }

  lemma {:induction false} SumSplit(a: seq<Agg>, b: seq<Agg>)
    ensures SumAggs(a + b) == Plus(SumAggs(a), SumAggs(b))
  {
    if a == [] {
      assert a + b == b;
      PlusZero(SumAggs(b));
    } else {
      SumSplit(a[1..], b);
      assert (a + b)[0] == a[0] && (a + b)[1..] == a[1..] + b;
      PlusIsAssociative(a[0].cols, SumAggs(a[1..]), SumAggs(b));
    }
  }

  lemma {:induction false} SumInsert(x: Agg, s: seq<Agg>)
    ensures SumAggs(Insert(x, s, Busier())) == Plus(x.cols, SumAggs(s))
  {
    if s != [] && Busier()(s[0], x) {
      SumInsert(x, s[1..]);
      assert Insert(x, s, Busier())[1..] == Insert(x, s[1..], Busier());
    } else {
      assert ([x] + s)[1..] == s;
    }
  }

  lemma {:induction false} SumSort(s: seq<Agg>)
    ensures SumAggs(Sort(s, Busier())) == SumAggs(s)
  {
    if s != [] {
      SumSort(s[1..]);
      SumInsert(s[0], Sort(s[1..], Busier()));
    }
  }

  /** Adding a post to one rollup adds it to the sum. */
  lemma SumUpdate(s: seq<Agg>, i: nat, cols: Columns)
    requires i < |s|
    ensures SumAggs(s[i := Agg(s[i].platform, Plus(s[i].cols, cols))]) == Plus(SumAggs(s), cols)
  {
    var x := Agg(s[i].platform, Plus(s[i].cols, cols));
    assert s == s[..i] + ([s[i]] + s[i + 1..]) && s[i := x] == s[..i] + ([x] + s[i + 1..]);
    SumSplit(s[..i], [s[i]] + s[i + 1..]);
    SumSplit(s[..i], [x] + s[i + 1..]);
    assert ([s[i]] + s[i + 1..])[1..] == s[i + 1..] && ([x] + s[i + 1..])[1..] == s[i + 1..];
  }

  lemma SumNext(posts: seq<Post>, p: Post)
    ensures SumPosts(posts + [p]) == Plus(SumPosts(posts), One(p))
  {
    assert (posts + [p])[..|posts|] == posts;
  }

  /** A rollup holds the sum of its platform's posts. */
  ghost predicate IsRollup(posts: seq<Post>, agg: Agg) {
    agg.cols == SumPosts(Filter(posts, On(agg.platform)))
  }

  ghost predicate HasPlatform(posts: seq<Post>, platform: string) {
    exists p :: p in posts && p.platform == platform
  }

  ghost predicate Listed(aggs: seq<Agg>, platform: string) {
    exists a :: a in aggs && a.platform == platform
  }

  ghost predicate OncePerPlatform(aggs: seq<Agg>) {
    forall i, j :: 0 <= i < j < |aggs| ==> aggs[i].platform != aggs[j].platform
  }

  /** One rollup per platform that occurs, no platform twice, and they add up. */
  ghost predicate IsBreakdown(posts: seq<Post>, aggs: seq<Agg>) {
    && OncePerPlatform(aggs)
    && (forall a :: a in aggs ==> IsRollup(posts, a))
    && (forall platform :: Listed(aggs, platform) <==> HasPlatform(posts, platform))
    && SumAggs(aggs) == SumPosts(posts)
  }

  function Covers(platform: string): Agg -> bool {
    (a: Agg) => a.platform == platform
  }

  function IndexOf(aggs: seq<Agg>, platform: string): Option<nat> {
    FindIndex(aggs, Covers(platform))
  }

  lemma NotFound(aggs: seq<Agg>, platform: string)
    requires IndexOf(aggs, platform).None?
    ensures forall a :: a in aggs ==> a.platform != platform
  {
    FindIndexFinds(aggs, Covers(platform));
    forall a | a in aggs ensures a.platform != platform {
      assert !Covers(platform)(a);
    }
  }

  /** Add a post to its platform's rollup; a new platform goes last, as in an insertion-ordered map. */
  function Added(aggs: seq<Agg>, p: Post): seq<Agg> {
    var at := IndexOf(aggs, p.platform);
    if at.None? then aggs + [Agg(p.platform, Plus(Zero(), One(p)))]
    else aggs[at.value := Agg(p.platform, Plus(aggs[at.value].cols, One(p)))]
  }

  /** The rollups of the posts, in order of first appearance. */
  function Rollups(posts: seq<Post>): seq<Agg> {
    if posts == [] then [] else Added(Rollups(posts[..|posts| - 1]), Last(posts))
  }

  lemma FilterNext(posts: seq<Post>, p: Post, platform: string)
    ensures SumPosts(Filter(posts + [p], On(platform)))
            == if p.platform == platform then Plus(SumPosts(Filter(posts, On(platform))), One(p))
               else SumPosts(Filter(posts, On(platform)))
  {
    FilterAppend(posts, [p], On(platform));
    assert [p][1..] == [];
    if p.platform == platform {
      SumNext(Filter(posts, On(platform)), p);
    } else {
      assert Filter(posts, On(platform)) + [] == Filter(posts, On(platform));
    }
  }

  lemma {:induction false} NoPostsThere(posts: seq<Post>, platform: string)
    requires !HasPlatform(posts, platform)
    ensures SumPosts(Filter(posts, On(platform))) == Zero()
  {
    FilterMembers(posts, On(platform));
    assert forall p :: p in posts ==> !On(platform)(p);
    var kept := Filter(posts, On(platform));
    if p :| p in kept {
      assert false;
    }
  }

  lemma AppendOnce(aggs: seq<Agg>, a: Agg)
    requires OncePerPlatform(aggs) && forall b :: b in aggs ==> b.platform != a.platform
    ensures OncePerPlatform(aggs + [a])
  {
    var t := aggs + [a];
    forall i, j | 0 <= i < j < |t| ensures t[i].platform != t[j].platform {
      assert t[i] == aggs[i] && aggs[i] in aggs;
    }
  }

  lemma UpdateOnce(aggs: seq<Agg>, i: nat, a: Agg)
    requires OncePerPlatform(aggs) && i < |aggs| && a.platform == aggs[i].platform
    ensures OncePerPlatform(aggs[i := a])
  {
  }

  lemma AddedOnce(aggs: seq<Agg>, p: Post)
    requires OncePerPlatform(aggs)
    ensures OncePerPlatform(Added(aggs, p))
  {
    var at := IndexOf(aggs, p.platform);
    if at.None? {
      NotFound(aggs, p.platform);
      AppendOnce(aggs, Agg(p.platform, Plus(Zero(), One(p))));
    } else {
      UpdateOnce(aggs, at.value, Agg(p.platform, Plus(aggs[at.value].cols, One(p))));
    }
  }

  lemma AddedListed(aggs: seq<Agg>, p: Post, platform: string)
    ensures Listed(Added(aggs, p), platform) <==> Listed(aggs, platform) || p.platform == platform
  {
    var t, at := Added(aggs, p), IndexOf(aggs, p.platform);
    assert t[if at.Some? then at.value else |aggs|].platform == p.platform;
    if Listed(aggs, platform) {
      var i :| 0 <= i < |aggs| && aggs[i].platform == platform;
      assert t[i] in t && t[i].platform == platform;
    }
    if Listed(t, platform) {
      var i :| 0 <= i < |t| && t[i].platform == platform;
      assert i < |aggs| ==> aggs[i] in aggs && aggs[i].platform == platform;
    }
  }

  lemma OccursNext(posts: seq<Post>, p: Post, platform: string)
    ensures HasPlatform(posts + [p], platform) <==> HasPlatform(posts, platform) || p.platform == platform
  {
    assert p in posts + [p];
    if HasPlatform(posts, platform) {
      var q :| q in posts && q.platform == platform;
      assert q in posts + [p];
    }
  }

  lemma NewRollup(posts: seq<Post>, p: Post)
    requires !HasPlatform(posts, p.platform)
    ensures IsRollup(posts + [p], Agg(p.platform, Plus(Zero(), One(p))))
  {
    FilterNext(posts, p, p.platform);
    NoPostsThere(posts, p.platform);
  }

  /** A rollup takes up the posts of its own platform and no others. */
  lemma GrownRollup(posts: seq<Post>, a: Agg, p: Post)
    requires IsRollup(posts, a)
    ensures IsRollup(posts + [p], if a.platform == p.platform then Agg(p.platform, Plus(a.cols, One(p))) else a)
  {
    FilterNext(posts, p, a.platform);
  }

  lemma AddedRollups(posts: seq<Post>, aggs: seq<Agg>, p: Post)
    requires OncePerPlatform(aggs) && forall a :: a in aggs ==> IsRollup(posts, a)
    requires !Listed(aggs, p.platform) ==> !HasPlatform(posts, p.platform)
    ensures forall a :: a in Added(aggs, p) ==> IsRollup(posts + [p], a)
  {
    var t, at := Added(aggs, p), IndexOf(aggs, p.platform);
    forall i | 0 <= i < |t| ensures IsRollup(posts + [p], t[i]) {
      if at.None? {
        NotFound(aggs, p.platform);
        if i == |aggs| {
          NewRollup(posts, p);
        } else {
          assert aggs[i] in aggs;
          GrownRollup(posts, aggs[i], p);
        }
      } else {
        assert aggs[i] in aggs;
        assert i != at.value ==> aggs[i].platform != p.platform;
        GrownRollup(posts, aggs[i], p);
      }
    }
  }

  lemma AddedSums(aggs: seq<Agg>, p: Post)
    ensures SumAggs(Added(aggs, p)) == Plus(SumAggs(aggs), One(p))
  {
    var at := IndexOf(aggs, p.platform);
    if at.None? {
      var last := Agg(p.platform, Plus(Zero(), One(p)));
      SumSplit(aggs, [last]);
      assert [last][1..] == [];
    } else {
      SumUpdate(aggs, at.value, One(p));
    }
  }

  lemma AddedIsBreakdown(posts: seq<Post>, aggs: seq<Agg>, p: Post)
    requires IsBreakdown(posts, aggs)
    ensures IsBreakdown(posts + [p], Added(aggs, p))
  {
    var t := Added(aggs, p);
    AddedOnce(aggs, p);
    AddedRollups(posts, aggs, p);
    AddedSums(aggs, p);
    SumNext(posts, p);
    forall platform ensures Listed(t, platform) <==> HasPlatform(posts + [p], platform) {
      AddedListed(aggs, p, platform);
      OccursNext(posts, p, platform);
    }
  }

  // ---- the sorted breakdown -------------------------------------------------

  lemma SortedListed(aggs: seq<Agg>)
    ensures forall a :: a in Sort(aggs, Busier()) <==> a in aggs
  {
    SortPermutes(aggs, Busier());
    forall a ensures a in Sort(aggs, Busier()) <==> a in aggs {
      assert a in Sort(aggs, Busier()) <==> a in multiset(Sort(aggs, Busier()));
      assert a in aggs <==> a in multiset(aggs);
    }
  }

  lemma SortedOnce(aggs: seq<Agg>)
    requires OncePerPlatform(aggs)
    ensures OncePerPlatform(Sort(aggs, Busier()))
  {
    var t := Sort(aggs, Busier());
    assert NoDup(aggs);
    SortPermutes(aggs, Busier());
    NoDupPermutes(aggs, t);
    SortedListed(aggs);
    forall i, j | 0 <= i < j < |t| ensures t[i].platform != t[j].platform {
      assert t[i] in aggs && t[j] in aggs && t[i] != t[j];
    }
  }

  lemma SortedIsBreakdown(posts: seq<Post>, aggs: seq<Agg>)
    requires IsBreakdown(posts, aggs)
    ensures IsBreakdown(posts, Sort(aggs, Busier()))
  {
    SortedListed(aggs);
    SortedOnce(aggs);
    SumSort(aggs);
    forall platform ensures Listed(Sort(aggs, Busier()), platform) <==> Listed(aggs, platform) {
    }
  }

  datatype Summary = Summary(totals: Columns, byPlatform: seq<Agg>, topPosts: seq<TopPost>)

  lemma RollupsNext(posts: seq<Post>, i: nat)
    requires i < |posts|
    ensures Rollups(posts[..i + 1]) == Added(Rollups(posts[..i]), posts[i])
    ensures SumPosts(posts[..i + 1]) == Plus(SumPosts(posts[..i]), One(posts[i]))
  {
    assert posts[..i + 1][..i] == posts[..i];
  }

  function PlatformOf(): Post -> string {
    (p: Post) => p.platform
  }

  function AggPlatform(): Agg -> string {
    (a: Agg) => a.platform
  }

  function Names(aggs: seq<Agg>): seq<string> {
    Map(aggs, AggPlatform())
  }

  lemma NamesAppend(aggs: seq<Agg>, a: Agg)
    ensures Names(aggs + [a]) == Names(aggs) + [a.platform]
  {
  }

  lemma NamesUpdate(aggs: seq<Agg>, i: nat, a: Agg)
    requires i < |aggs| && a.platform == aggs[i].platform
    ensures Names(aggs[i := a]) == Names(aggs) && a.platform in Names(aggs)
  {
    assert Names(aggs)[i] == a.platform;
  }

  lemma NameNotThere(aggs: seq<Agg>, platform: string)
    requires forall a :: a in aggs ==> a.platform != platform
    ensures platform !in Names(aggs)
  {
    forall i | 0 <= i < |aggs| ensures Names(aggs)[i] != platform {
      assert aggs[i] in aggs;
    }
  }

  lemma AddedOrder(aggs: seq<Agg>, p: Post)
    ensures Names(Added(aggs, p)) == if p.platform in Names(aggs) then Names(aggs) else Names(aggs) + [p.platform]
  {
    var at := IndexOf(aggs, p.platform);
    if at.None? {
      NotFound(aggs, p.platform);
      NameNotThere(aggs, p.platform);
      NamesAppend(aggs, Agg(p.platform, Plus(Zero(), One(p))));
    } else {
      NamesUpdate(aggs, at.value, Agg(p.platform, Plus(aggs[at.value].cols, One(p))));
    }
  }

  /** The rollups are a breakdown of the posts. */
  lemma {:induction false} RollupsBreakDown(posts: seq<Post>)
    ensures IsBreakdown(posts, Rollups(posts))
  {
    if posts != [] {
      var init, p := posts[..|posts| - 1], Last(posts);
      RollupsBreakDown(init);
      AddedIsBreakdown(init, Rollups(init), p);
      assert posts == init + [p];
    }
  }

  function PlatformsSeen(posts: seq<Post>): seq<string> {
    Unique(Map(posts, PlatformOf()))
  }

  lemma PlatformsNext(posts: seq<Post>, p: Post)
    ensures var seen := PlatformsSeen(posts);
      PlatformsSeen(posts + [p]) == if p.platform in seen then seen else seen + [p.platform]
  {
    assert Map(posts + [p], PlatformOf()) == Map(posts, PlatformOf()) + [p.platform];
    UniqueNext(Map(posts, PlatformOf()), p.platform);
  }

  lemma OrderNext(posts: seq<Post>, p: Post)
    requires Names(Rollups(posts)) == PlatformsSeen(posts)
    ensures Names(Added(Rollups(posts), p)) == PlatformsSeen(posts + [p])
  {
    AddedOrder(Rollups(posts), p);
    PlatformsNext(posts, p);
  }

  /** Their platforms come in order of first appearance. */
  lemma {:induction false} RollupsKeepOrder(posts: seq<Post>)
    ensures Names(Rollups(posts)) == PlatformsSeen(posts)
  {
    if posts != [] {
      var init, p := posts[..|posts| - 1], Last(posts);
      RollupsKeepOrder(init);
      OrderNext(init, p);
      assert posts == init + [p];
    }
  }

  /** A column added up, absent numbers counting as zero. */
  function ColumnSum(posts: seq<Post>, column: Metrics -> Option<real>): real {
    if posts == [] then 0.0
    else
      var x := column(Last(posts).metrics);
      ColumnSum(posts[..|posts| - 1], column) + if x.Some? then x.value else 0.0
  }

  function Impressions(): Metrics -> Option<real> { (m: Metrics) => m.impressions }
  function Likes(): Metrics -> Option<real> { (m: Metrics) => m.likes }
  function Comments(): Metrics -> Option<real> { (m: Metrics) => m.comments }
  function Shares(): Metrics -> Option<real> { (m: Metrics) => m.shares }

  /** The columns hold the number of the posts and the sums of their four metrics. */
  ghost predicate AddsUp(posts: seq<Post>, cols: Columns) {
    && cols.posts == |posts|
    && cols.impressions == ColumnSum(posts, Impressions()) && cols.likes == ColumnSum(posts, Likes())
    && cols.comments == ColumnSum(posts, Comments()) && cols.shares == ColumnSum(posts, Shares())
  }

  lemma ColumnNext(posts: seq<Post>, p: Post, column: Metrics -> Option<real>)
    ensures var x := column(p.metrics);
      ColumnSum(posts + [p], column) == ColumnSum(posts, column) + if x.Some? then x.value else 0.0
  {
    assert (posts + [p])[..|posts|] == posts;
  }

  lemma AddsUpNext(posts: seq<Post>, cols: Columns, p: Post)
    requires AddsUp(posts, cols)
    ensures AddsUp(posts + [p], Plus(cols, One(p)))
  {
    ColumnNext(posts, p, Impressions());
    ColumnNext(posts, p, Likes());
    ColumnNext(posts, p, Comments());
    ColumnNext(posts, p, Shares());
  }

  /** Every post is counted once in the totals, and so are its four metrics. */
  lemma {:induction false} EveryPostCounts(posts: seq<Post>)
    ensures AddsUp(posts, SumPosts(posts))
  {
    if posts != [] {
      var init := posts[..|posts| - 1];
      EveryPostCounts(init);
      AddsUpNext(init, SumPosts(init), Last(posts));
      assert posts == init + [Last(posts)];
    }
  }

  lemma EveryRollupAddsUp(posts: seq<Post>, aggs: seq<Agg>)
    requires forall a :: a in aggs ==> IsRollup(posts, a)
    ensures forall a :: a in aggs ==> AddsUp(Filter(posts, (p: Post) => p.platform == a.platform), a.cols)
  {
    forall a | a in aggs ensures AddsUp(Filter(posts, (p: Post) => p.platform == a.platform), a.cols) {
      EveryPostCounts(Filter(posts, On(a.platform)));
      FilterAlike(posts, On(a.platform), (p: Post) => p.platform == a.platform);
    }
  }

  /** The rollups and totals of the first `i` rows. */
  ghost predicate ReadSoFar(posts: seq<Post>, i: nat, aggs: seq<Agg>, totals: Columns) {
    i <= |posts| && aggs == Rollups(posts[..i]) && totals == SumPosts(posts[..i])
  }

  lemma ReadOneMore(posts: seq<Post>, i: nat, aggs: seq<Agg>, totals: Columns)
    requires ReadSoFar(posts, i, aggs, totals) && i < |posts|
    ensures ReadSoFar(posts, i + 1, Added(aggs, posts[i]), Plus(totals, One(posts[i])))
  {
    RollupsNext(posts, i);
  }

  lemma ReadNothing(posts: seq<Post>)
    ensures ReadSoFar(posts, 0, [], Zero())
  {
    assert posts[..0] == [];
  }

  lemma ReadAll(posts: seq<Post>, aggs: seq<Agg>, totals: Columns)
    requires ReadSoFar(posts, |posts|, aggs, totals)
    ensures aggs == Rollups(posts) && totals == SumPosts(posts)
  {
    assert posts[..|posts|] == posts;
  }

  /** The loop over the rows. */
  method RollUp(posts: seq<Post>) returns (aggs: seq<Agg>, totals: Columns)
    ensures aggs == Rollups(posts) && totals == SumPosts(posts)
  {
    aggs, totals := [], Zero();
    ReadNothing(posts);
    for i := 0 to |posts|
      invariant ReadSoFar(posts, i, aggs, totals)
    {
      ReadOneMore(posts, i, aggs, totals);
      aggs := Added(aggs, posts[i]);
      totals := Plus(totals, One(posts[i]));
    }
    ReadAll(posts, aggs, totals);
  }

  lemma SortedRollups(posts: seq<Post>)
    ensures var aggs := Sort(Rollups(posts), Busier()); IsBreakdown(posts, aggs) && Sorted(aggs, Busier())
  {
    RollupsBreakDown(posts);
    SortedIsBreakdown(posts, Rollups(posts));
    SortSorts(Rollups(posts), Busier());
  }

  /**
   * The report: every platform that occurs exactly once, most impressions first and ties by first appearance,
   * each with the sums of its own posts; the columns of the breakdown add up to the totals.
   */
  method BuildReport(trim: string -> string, posts: seq<Post>) returns (report: Summary)
    ensures report.totals == SumPosts(posts)
    ensures report.byPlatform == Sort(Rollups(posts), Busier())
    ensures IsBreakdown(posts, report.byPlatform) && Sorted(report.byPlatform, Busier())
    ensures report.topPosts == TopPosts(trim, posts)
    ensures AddsUp(posts, report.totals)
    ensures forall a :: a in report.byPlatform ==> AddsUp(Filter(posts, (p: Post) => p.platform == a.platform), a.cols)
    ensures forall i, j :: 0 <= i < j < |report.byPlatform| ==>
      report.byPlatform[i].cols.impressions >= report.byPlatform[j].cols.impressions
    ensures BestIdeas(trim, posts, Map(report.topPosts, AsHighlight()), 5)
    ensures forall t :: t in report.topPosts ==> IsTopPost(trim, posts, t)
  {
    var aggs, totals := RollUp(posts);
    SortedRollups(posts);
    EveryPostCounts(posts);
    EveryRollupAddsUp(posts, Sort(Rollups(posts), Busier()));
    TopPostsAreBest(trim, posts);
    report := Summary(totals, Sort(aggs, Busier()), TopPosts(trim, posts));
  }
}
