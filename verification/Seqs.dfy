/** Counting, filtering and the stable sort that JavaScript's `Array.prototype.sort` promises. */
module Seqs {

  datatype Option<+T> = None | Some(value: T)

  function Last<T>(s: seq<T>): T
    requires s != []
  {
    s[|s| - 1]
  }

  ghost predicate NoDup<T>(s: seq<T>) {
    forall i, j :: 0 <= i < j < |s| ==> s[i] != s[j]
  }

  // ---- counting -------------------------------------------------------------

  function Count<T>(s: seq<T>, p: T -> bool): nat {
    if s == [] then 0 else Count(s[..|s| - 1], p) + (if p(Last(s)) then 1 else 0)
  }

  lemma CountAppend<T>(s: seq<T>, x: T, p: T -> bool)
    ensures Count(s + [x], p) == Count(s, p) + (if p(x) then 1 else 0)
  {
    assert (s + [x])[..|s|] == s;
  }

  lemma {:induction false} CountUpdate<T>(s: seq<T>, i: nat, x: T, p: T -> bool)
    requires i < |s|
    ensures Count(s[i := x], p) + (if p(s[i]) then 1 else 0) == Count(s, p) + (if p(x) then 1 else 0)
  {
    var n := |s| - 1;
    if i == n {
      assert s[i := x][..n] == s[..n];
    } else {
      assert s[i := x][..n] == s[..n][i := x];
      CountUpdate(s[..n], i, x, p);
    }
  }

  lemma {:induction false} CountZero<T>(s: seq<T>, p: T -> bool)
    ensures Count(s, p) == 0 <==> forall i :: 0 <= i < |s| ==> !p(s[i])
  {
    if s != [] {
      var n := |s| - 1;
      CountZero(s[..n], p);
      assert forall i :: 0 <= i < n ==> s[..n][i] == s[i];
    }
  }

  lemma {:induction false} CountPrepend<T>(x: T, s: seq<T>, p: T -> bool)
    ensures Count([x] + s, p) == (if p(x) then 1 else 0) + Count(s, p)
  {
    if s == [] {
      assert [x] + s == [x] && [x][..0] == [];
    } else {
      assert ([x] + s)[..|s|] == [x] + s[..|s| - 1];
      CountPrepend(x, s[..|s| - 1], p);
    }
  }

  lemma CountFirst<T>(s: seq<T>, p: T -> bool)
    requires s != []
    ensures Count(s, p) == (if p(s[0]) then 1 else 0) + Count(s[1..], p)
  {
    assert s == [s[0]] + s[1..];
    CountPrepend(s[0], s[1..], p);
  }

  lemma {:induction false} CountMonotone<T(!new)>(s: seq<T>, p: T -> bool, q: T -> bool)
    requires forall x :: p(x) ==> q(x)
    ensures Count(s, p) <= Count(s, q)
  {
    if s != [] { CountMonotone(s[..|s| - 1], p, q); }
  }

  ghost function Elements<T>(s: seq<T>): set<T> {
    set x | x in s
  }

  lemma {:induction false} NoDupSize<T>(s: seq<T>)
    requires NoDup(s)
    ensures |Elements(s)| == |s|
  {
    if s != [] {
      var init := s[..|s| - 1];
      NoDupSize(init);
      assert Elements(s) == Elements(init) + {Last(s)};
      assert Last(s) !in Elements(init);
    }
  }

  // ---- filter and map -------------------------------------------------------

  function Filter<T>(s: seq<T>, p: T -> bool): (r: seq<T>)
    ensures |r| <= |s|
  {
    if s == [] then []
    else
      var rest := Filter(s[1..], p);
      if p(s[0]) then [s[0]] + rest else rest
  }

  lemma {:induction false} FilterMembers<T(!new)>(s: seq<T>, p: T -> bool)
    ensures forall x :: x in Filter(s, p) <==> x in s && p(x)
  {
    if s != [] { FilterMembers(s[1..], p); }
  }

  lemma {:induction false} FilterAlike<T(!new)>(s: seq<T>, p: T -> bool, q: T -> bool)
    requires forall x :: p(x) <==> q(x)
    ensures Filter(s, p) == Filter(s, q)
  {
    if s != [] { FilterAlike(s[1..], p, q); }
  }

  /** The first element that satisfies `p`: its position. */
  function FindIndex<T>(s: seq<T>, p: T -> bool): (r: Option<nat>)
    ensures r.Some? ==> r.value < |s| && p(s[r.value])
  {
    if s == [] then None
    else if p(s[0]) then Some(0)
    else
      var rest := FindIndex(s[1..], p);
      if rest.Some? then Some(rest.value + 1) else None
  }

  lemma {:induction false} FindIndexFinds<T(!new)>(s: seq<T>, p: T -> bool)
    ensures FindIndex(s, p).None? <==> forall x :: x in s ==> !p(x)
  {
    if s != [] {
      FindIndexFinds(s[1..], p);
      assert s[0] in s;
    }
  }

  function Map<T, U>(s: seq<T>, f: T -> U): (r: seq<U>)
    ensures |r| == |s| && forall i :: 0 <= i < |s| ==> r[i] == f(s[i])
  {
    seq(|s|, i requires 0 <= i < |s| => f(s[i]))
  }

  function Take<T>(s: seq<T>, n: nat): (r: seq<T>)
    ensures |r| <= n && r <= s
  {
    if |s| <= n then s else s[..n]
  }

  lemma {:induction false} FilterKeepsNoDup<T(!new)>(s: seq<T>, p: T -> bool)
    requires NoDup(s)
    ensures NoDup(Filter(s, p))
  {
    if s != [] {
      FilterKeepsNoDup(s[1..], p);
      FilterMembers(s[1..], p);
      assert s[0] !in s[1..];
    }
  }

  lemma {:induction false} FilterAppend<T>(a: seq<T>, b: seq<T>, p: T -> bool)
    ensures Filter(a + b, p) == Filter(a, p) + Filter(b, p)
  {
    if a == [] {
      assert a + b == b;
    } else {
      assert (a + b)[0] == a[0] && (a + b)[1..] == a[1..] + b;
      FilterAppend(a[1..], b, p);
    }
  }

  // ---- first appearances ----------------------------------------------------

  /** Each element once, in order of first appearance: what an insertion-ordered map or set keeps. */
  function Unique<T(==)>(s: seq<T>): seq<T> {
    if s == [] then []
    else
      var rest := Unique(s[..|s| - 1]);
      if Last(s) in rest then rest else rest + [Last(s)]
  }

  lemma UniqueNext<T>(s: seq<T>, x: T)
    ensures Unique(s + [x]) == if x in Unique(s) then Unique(s) else Unique(s) + [x]
  {
    assert (s + [x])[..|s|] == s;
  }

  lemma {:induction false} UniqueIs<T(!new)>(s: seq<T>)
    ensures NoDup(Unique(s)) && forall x :: x in Unique(s) <==> x in s
  {
    if s != [] {
      UniqueIs(s[..|s| - 1]);
      assert s == s[..|s| - 1] + [Last(s)];
    }
  }

  lemma {:induction false} UniqueOfPrefix<T>(s: seq<T>, n: nat)
    requires n <= |s|
    ensures Unique(s[..n]) <= Unique(s)
  {
    if n < |s| {
      UniqueOfPrefix(s[..|s| - 1], n);
      assert s[..|s| - 1][..n] == s[..n];
    } else {
      assert s[..n] == s;
    }
  }

  function NonBlank(): string -> bool {
    (v: string) => v != ""
  }

  /** Distinct non-blank values in order of first appearance. */
  function Distinct(values: seq<string>): seq<string> {
    Unique(Filter(values, NonBlank()))
  }

  lemma DistinctNext(values: seq<string>, v: string)
    ensures Distinct(values + [v]) == if v == "" || v in Distinct(values) then Distinct(values) else Distinct(values) + [v]
  {
    var kept := Filter(values, NonBlank());
    FilterAppend(values, [v], NonBlank());
    assert [v][1..] == [];
    if v == "" {
      assert kept + [] == kept;
    } else {
      UniqueNext(kept, v);
    }
  }

  /** Each non-blank value once, and before a value first appears the ones listed before it have appeared. */
  lemma {:induction false} DistinctIs(values: seq<string>)
    ensures var d := Distinct(values);
      && NoDup(d) && (forall v :: v in d <==> v in values && v != "")
      && forall a, b, k :: 0 <= a < b < |d| && 0 <= k < |values| && values[k] == d[b] ==> d[a] in values[..k]
  {
    if values != [] {
      var init, x := values[..|values| - 1], Last(values);
      assert values == init + [x];
      DistinctIs(init);
      DistinctNext(init, x);
      var d, e := Distinct(init), Distinct(values);
      forall a, b, k | 0 <= a < b < |e| && 0 <= k < |values| && values[k] == e[b] ensures e[a] in values[..k] {
        assert e[a] == d[a] && d[a] in d;
        if k < |init| {
          assert init[k] == values[k] && init[k] in init && values[..k] == init[..k];
          assert e[b] in d;
        } else {
          assert values[..k] == init;
        }
      }
    }
  }

  lemma DistinctOfPrefix(values: seq<string>, n: nat)
    requires n <= |values|
    ensures Distinct(values[..n]) <= Distinct(values)
  {
    var kept, whole := Filter(values[..n], NonBlank()), Filter(values, NonBlank());
    assert values == values[..n] + values[n..];
    FilterAppend(values[..n], values[n..], NonBlank());
    UniqueOfPrefix(whole, |kept|);
    assert whole[..|kept|] == kept;
  }

  // ---- stable sort ----------------------------------------------------------

  /** `lt` orders strictly and incomparability is transitive: what a comparator must be for sort to make sense. */
  ghost predicate StrictWeak<T(!new)>(lt: (T, T) -> bool) {
    && (forall x, y :: lt(x, y) ==> !lt(y, x))
    && (forall x, y, z :: lt(x, z) ==> lt(x, y) || lt(y, z))
  }

  ghost predicate Sorted<T>(s: seq<T>, lt: (T, T) -> bool) {
    forall i, j :: 0 <= i < j < |s| ==> !lt(s[j], s[i])
  }

  function Insert<T>(x: T, s: seq<T>, lt: (T, T) -> bool): seq<T> {
    if s != [] && lt(s[0], x) then [s[0]] + Insert(x, s[1..], lt) else [x] + s
  }

  function Sort<T>(s: seq<T>, lt: (T, T) -> bool): seq<T> {
    if s == [] then [] else Insert(s[0], Sort(s[1..], lt), lt)
  }

  lemma {:induction false} InsertPermutes<T>(x: T, s: seq<T>, lt: (T, T) -> bool)
    ensures multiset(Insert(x, s, lt)) == multiset(s) + multiset{x}
  {
    if s != [] && lt(s[0], x) {
      InsertPermutes(x, s[1..], lt);
      assert s == [s[0]] + s[1..];
    }
  }

  lemma {:induction false} SortPermutes<T>(s: seq<T>, lt: (T, T) -> bool)
    ensures multiset(Sort(s, lt)) == multiset(s) && |Sort(s, lt)| == |s|
  {
    if s != [] {
      SortPermutes(s[1..], lt);
      InsertPermutes(s[0], Sort(s[1..], lt), lt);
      assert s == [s[0]] + s[1..];
    }
    assert |multiset(Sort(s, lt))| == |multiset(s)|;
  }

  lemma {:induction false} InsertSorts<T(!new)>(x: T, s: seq<T>, lt: (T, T) -> bool)
    requires StrictWeak(lt) && Sorted(s, lt)
    ensures Sorted(Insert(x, s, lt), lt)
  {
    if s != [] && lt(s[0], x) {
      InsertSorts(x, s[1..], lt);
      InsertPermutes(x, s[1..], lt);
      var r := Insert(x, s[1..], lt);
      forall j | 0 <= j < |r| ensures !lt(r[j], s[0]) {
        assert r[j] in multiset(r);
        assert r[j] == x || r[j] in s[1..];
      }
    } else if s != [] {
      forall j | 0 <= j < |s| ensures !lt(s[j], x) {
        assert j > 0 ==> !lt(s[j], s[0]);
      }
    }
  }

  lemma {:induction false} SortSorts<T(!new)>(s: seq<T>, lt: (T, T) -> bool)
    requires StrictWeak(lt)
    ensures Sorted(Sort(s, lt), lt)
  {
    if s != [] {
      SortSorts(s[1..], lt);
      InsertSorts(s[0], Sort(s[1..], lt), lt);
    }
  }

  lemma {:induction false} FilterInsert<T(!new)>(x: T, s: seq<T>, lt: (T, T) -> bool, p: T -> bool)
    requires StrictWeak(lt) && Sorted(s, lt)
    ensures Filter(Insert(x, s, lt), p) == if p(x) then Insert(x, Filter(s, p), lt) else Filter(s, p)
  {
    if s != [] && lt(s[0], x) {
      FilterInsert(x, s[1..], lt, p);
      var r := Insert(x, s, lt);
      assert r[0] == s[0] && r[1..] == Insert(x, s[1..], lt);
      if p(s[0]) && p(x) {
        var f := Filter(s, p);
        assert f[0] == s[0] && f[1..] == Filter(s[1..], p);
      }
    } else {
      assert ([x] + s)[1..] == s;
      var f := Filter(s, p);
      if f != [] {
        FilterMembers(s, p);
        assert f[0] in f;
        var j :| 0 <= j < |s| && s[j] == f[0];
        assert j > 0 ==> !lt(s[j], s[0]);
      }
    }
  }

  /** Filtering before or after a stable sort makes no difference. */
  lemma {:induction false} SortFilter<T(!new)>(s: seq<T>, lt: (T, T) -> bool, p: T -> bool)
    requires StrictWeak(lt)
    ensures Filter(Sort(s, lt), p) == Sort(Filter(s, p), lt)
  {
    if s != [] {
      SortFilter(s[1..], lt, p);
      SortSorts(s[1..], lt);
      FilterInsert(s[0], Sort(s[1..], lt), lt, p);
      if p(s[0]) {
        assert Filter(s, p)[1..] == Filter(s[1..], p);
      }
    }
  }

  lemma {:induction false} MapInsert<T, U>(x: T, s: seq<T>, f: T -> U, lt: (T, T) -> bool, lu: (U, U) -> bool)
    requires forall y, z :: (y == x || y in s) && (z == x || z in s) ==> lt(y, z) == lu(f(y), f(z))
    ensures Map(Insert(x, s, lt), f) == Insert(f(x), Map(s, f), lu)
  {
    var m := Map(s, f);
    if s != [] && lt(s[0], x) {
      MapInsert(x, s[1..], f, lt, lu);
      assert m[1..] == Map(s[1..], f);
      assert Map([s[0]] + Insert(x, s[1..], lt), f) == [f(s[0])] + Map(Insert(x, s[1..], lt), f);
    } else {
      assert Map([x] + s, f) == [f(x)] + m;
    }
  }

  /** Mapping commutes with the sort when the comparators agree through the map. */
  lemma {:induction false} SortMap<T, U>(s: seq<T>, f: T -> U, lt: (T, T) -> bool, lu: (U, U) -> bool)
    requires forall y, z :: y in s && z in s ==> lt(y, z) == lu(f(y), f(z))
    ensures Map(Sort(s, lt), f) == Sort(Map(s, f), lu)
  {
    if s != [] {
      var t := Sort(s[1..], lt);
      SortMap(s[1..], f, lt, lu);
      SortPermutes(s[1..], lt);
      forall y | y in t ensures y in s {
        assert y in multiset(t);
      }
      MapInsert(s[0], t, f, lt, lu);
      assert Map(s, f)[1..] == Map(s[1..], f);
    }
  }

  lemma {:induction false} FilterMap<T, U>(s: seq<T>, f: T -> U, p: T -> bool, q: U -> bool)
    requires forall x :: x in s ==> p(x) == q(f(x))
    ensures Filter(Map(s, f), q) == Map(Filter(s, p), f)
  {
    if s != [] {
      FilterMap(s[1..], f, p, q);
      assert Map(s, f)[1..] == Map(s[1..], f);
      if p(s[0]) { assert Filter(s, p)[0] == s[0] && Filter(s, p)[1..] == Filter(s[1..], p); }
    }
  }

  // ---- sorted by a total order ----------------------------------------------

  ghost predicate Ascending<T>(s: seq<T>, lt: (T, T) -> bool) {
    forall i, j :: 0 <= i < j < |s| ==> lt(s[i], s[j])
  }

  lemma SameLeast<T>(a: seq<T>, b: seq<T>, lt: (T, T) -> bool)
    requires a != [] && b != [] && a[0] in b && b[0] in a
    requires Ascending(a, lt) && Ascending(b, lt) && (lt(a[0], b[0]) ==> !lt(b[0], a[0]))
    ensures a[0] == b[0]
  {
    var i :| 0 <= i < |b| && b[i] == a[0];
    var j :| 0 <= j < |a| && a[j] == b[0];
  }

  lemma TailMultiset<T>(a: seq<T>)
    requires a != []
    ensures multiset(a[1..]) == multiset(a) - multiset{a[0]}
  {
    assert a == [a[0]] + a[1..];
  }

  lemma SameHead<T(!new)>(a: seq<T>, b: seq<T>, lt: (T, T) -> bool)
    requires a != [] && b != [] && multiset(a) == multiset(b) && Ascending(a, lt) && Ascending(b, lt)
    requires forall x, y :: lt(x, y) ==> !lt(y, x)
    ensures a[0] == b[0] && multiset(a[1..]) == multiset(b[1..])
    ensures Ascending(a[1..], lt) && Ascending(b[1..], lt)
  {
    assert a[0] in multiset(b) && b[0] in multiset(a);
    SameLeast(a, b, lt);
    TailMultiset(a);
    TailMultiset(b);
  }

  lemma SameHeadAndTail<T>(a: seq<T>, b: seq<T>)
    requires a != [] && b != [] && a[0] == b[0] && a[1..] == b[1..]
    ensures a == b
  {
    assert a == [a[0]] + a[1..] && b == [b[0]] + b[1..];
  }

  lemma SameSize<T>(a: seq<T>, b: seq<T>)
    requires multiset(a) == multiset(b)
    ensures |a| == |b|
  {
    assert |multiset(a)| == |a| && |multiset(b)| == |b|;
  }

  /** Two orderings of the same elements by a strict total order are the same list. */
  lemma {:induction false} SortedUnique<T(!new)>(a: seq<T>, b: seq<T>, lt: (T, T) -> bool)
    requires multiset(a) == multiset(b) && Ascending(a, lt) && Ascending(b, lt)
    requires forall x, y :: lt(x, y) ==> !lt(y, x)
    ensures a == b
  {
    SameSize(a, b);
    if a != [] {
      SameHead(a, b, lt);
      SortedUnique(a[1..], b[1..], lt);
      SameHeadAndTail(a, b);
    }
  }

  lemma {:induction false} NoDupCount<T>(s: seq<T>)
    requires NoDup(s)
    ensures forall x :: multiset(s)[x] <= 1
  {
    if s != [] {
      NoDupCount(s[1..]);
      assert s == [s[0]] + s[1..];
      assert s[0] !in s[1..];
    }
  }

  lemma NoDupPermutes<T>(s: seq<T>, t: seq<T>)
    requires NoDup(s) && multiset(s) == multiset(t)
    ensures NoDup(t)
  {
    NoDupCount(s);
    forall i, j | 0 <= i < j < |t| ensures t[i] != t[j] {
      assert t == t[..j] + [t[j]] + t[j + 1..];
      assert t[i] in multiset(t[..j]);
      assert multiset(t)[t[j]] == multiset(t[..j])[t[j]] + multiset([t[j]])[t[j]] + multiset(t[j + 1..])[t[j]];
    }
  }
}
