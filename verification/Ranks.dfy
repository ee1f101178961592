/** Places in a stable sort, and when sorting by a coarser order gives the same first elements. */
module Ranks {
  import opened Seqs

  // ---- ranks ----------------------------------------------------------------

  function Beats<T>(x: T, lt: (T, T) -> bool): T -> bool {
    (y: T) => lt(y, x)
  }

  function Unbeaten<T>(x: T, lt: (T, T) -> bool): T -> bool {
    (y: T) => !lt(x, y)
  }

  /**
   * How many elements a stable sort puts before the `j`-th: the earlier ones it does not beat and the later ones that
   * beat it.
   */
  function Rank<T>(s: seq<T>, lt: (T, T) -> bool, j: nat): nat
    requires j < |s|
  {
    Count(s[..j], Unbeaten(s[j], lt)) + Count(s[j + 1..], Beats(s[j], lt))
  }

  lemma RankNext<T>(s: seq<T>, lt: (T, T) -> bool, j: nat)
    requires j + 1 < |s|
    ensures Rank(s, lt, j + 1) == Rank(s[1..], lt, j) + (if lt(s[j + 1], s[0]) then 0 else 1)
  {
    assert s[..j + 1] == [s[0]] + s[1..][..j] && s[j + 2..] == s[1..][j + 1..];
    CountPrepend(s[0], s[1..][..j], Unbeaten(s[j + 1], lt));
  }

  lemma {:induction false} CountInsert<T>(x: T, s: seq<T>, lt: (T, T) -> bool, p: T -> bool)
    ensures Count(Insert(x, s, lt), p) == Count(s, p) + (if p(x) then 1 else 0)
  {
    if s != [] && lt(s[0], x) {
      CountInsert(x, s[1..], lt, p);
      CountPrepend(s[0], Insert(x, s[1..], lt), p);
      CountFirst(s, p);
    } else {
      CountPrepend(x, s, p);
    }
  }

  lemma {:induction false} CountSort<T>(s: seq<T>, lt: (T, T) -> bool, p: T -> bool)
    ensures Count(Sort(s, lt), p) == Count(s, p)
  {
    if s != [] {
      CountSort(s[1..], lt, p);
      CountInsert(s[0], Sort(s[1..], lt), lt, p);
      CountFirst(s, p);
    }
  }

  /** `r` is `s` with `x` put in at `p`. */
  ghost predicate PutIn<T>(r: seq<T>, s: seq<T>, x: T, p: nat) {
    && |r| == |s| + 1 && p <= |s| && r[p] == x
    && (forall k :: 0 <= k < p ==> r[k] == s[k])
    && (forall k :: p < k < |r| ==> r[k] == s[k - 1])
  }

  /** Exactly the first `p` elements beat `x`. */
  ghost predicate BeatenBy<T>(x: T, s: seq<T>, lt: (T, T) -> bool, p: nat) {
    forall k :: 0 <= k < |s| ==> (lt(s[k], x) <==> k < p)
  }

  lemma PutInBehind<T>(r: seq<T>, s: seq<T>, x: T, p: nat)
    requires s != [] && PutIn(r, s[1..], x, p)
    ensures PutIn([s[0]] + r, s, x, p + 1)
  {
    var r' := [s[0]] + r;
    forall k | 0 <= k < p + 1 ensures r'[k] == s[k] {
      if k > 0 { assert r'[k] == r[k - 1] == s[1..][k - 1]; }
    }
    forall k | p + 1 < k < |r'| ensures r'[k] == s[k - 1] {
      assert r'[k] == r[k - 1] == s[1..][k - 2];
    }
  }

  lemma BeatenBehind<T>(x: T, s: seq<T>, lt: (T, T) -> bool, p: nat)
    requires s != [] && lt(s[0], x) && BeatenBy(x, s[1..], lt, p)
    ensures BeatenBy(x, s, lt, p + 1)
  {
    forall k | 0 <= k < |s| ensures lt(s[k], x) <==> k < p + 1 {
      if k > 0 { assert s[k] == s[1..][k - 1]; }
    }
  }

  lemma Unbeatable<T(!new)>(x: T, s: seq<T>, lt: (T, T) -> bool)
    requires StrictWeak(lt) && Sorted(s, lt) && (s != [] ==> !lt(s[0], x))
    ensures BeatenBy(x, s, lt, 0) && Count(s, Beats(x, lt)) == 0
  {
    forall k | 0 <= k < |s| ensures !lt(s[k], x) {
      assert k > 0 ==> !lt(s[k], s[0]);
    }
    CountZero(s, Beats(x, lt));
  }

  /** An element goes in behind exactly those that beat it. */
  lemma {:induction false} InsertAt<T(!new)>(x: T, s: seq<T>, lt: (T, T) -> bool)
    requires StrictWeak(lt) && Sorted(s, lt)
    ensures var p := Count(s, Beats(x, lt));
      PutIn(Insert(x, s, lt), s, x, p) && BeatenBy(x, s, lt, p)
  {
    if s != [] && lt(s[0], x) {
      InsertAt(x, s[1..], lt);
      CountFirst(s, Beats(x, lt));
      PutInBehind(Insert(x, s[1..], lt), s, x, Count(s[1..], Beats(x, lt)));
      BeatenBehind(x, s, lt, Count(s[1..], Beats(x, lt)));
    } else {
      Unbeatable(x, s, lt);
    }
  }

  /** What one more element at the front does to a sorted list. */
  lemma SortFirst<T(!new)>(s: seq<T>, lt: (T, T) -> bool)
    requires StrictWeak(lt) && s != []
    ensures var rest := Sort(s[1..], lt);
      var p := Rank(s, lt, 0);
      |rest| == |s| - 1 && PutIn(Sort(s, lt), rest, s[0], p) && BeatenBy(s[0], rest, lt, p)
  {
    SortSorts(s[1..], lt);
    SortPermutes(s[1..], lt);
    CountSort(s[1..], lt, Beats(s[0], lt));
    InsertAt(s[0], Sort(s[1..], lt), lt);
    assert s[..0] == [];
  }

  /** The rank of an element is its place in the sorted list. */
  lemma {:induction false} RankIsPlace<T(!new)>(s: seq<T>, lt: (T, T) -> bool, j: nat)
    requires StrictWeak(lt) && j < |s|
    ensures Rank(s, lt, j) < |s| == |Sort(s, lt)| && Sort(s, lt)[Rank(s, lt, j)] == s[j]
  {
    SortFirst(s, lt);
    if j > 0 {
      RankIsPlace(s[1..], lt, j - 1);
      RankNext(s, lt, j - 1);
      assert s[1..][j - 1] == s[j];
      assert Sort(s, lt)[Rank(s, lt, j)] == Sort(s[1..], lt)[Rank(s[1..], lt, j - 1)];
    }
  }

  /** Every place in the sorted list is some element's rank. */
  lemma {:induction false} PlaceIsRank<T(!new)>(s: seq<T>, lt: (T, T) -> bool, k: nat) returns (j: nat)
    requires StrictWeak(lt) && k < |s|
    ensures j < |s| && Rank(s, lt, j) == k
  {
    SortFirst(s, lt);
    var p := Rank(s, lt, 0);
    if k == p {
      j := 0;
    } else {
      j := PlaceIsRank(s[1..], lt, if k < p then k else k - 1);
      RankIsPlace(s[1..], lt, j);
      RankNext(s, lt, j);
      j := j + 1;
    }
  }

  // ---- two orders, one coarser than the other -------------------------------

  /** If the `j`-th element is one of the first `n` and beats the earlier `i`-th, it does so in the coarser order too. */
  ghost predicate LeadShows<T>(s: seq<T>, lt: (T, T) -> bool, coarse: (T, T) -> bool, n: nat, i: nat, j: nat)
    requires i < j < |s|
  {
    Rank(s, lt, j) < n && lt(s[j], s[i]) ==> coarse(s[j], s[i])
  }

  /** Every lead of one of the first `n` over an earlier element shows in the coarser order too. */
  ghost predicate LeadsShow<T>(s: seq<T>, lt: (T, T) -> bool, coarse: (T, T) -> bool, n: nat) {
    forall i, j :: 0 <= i < j < |s| ==> LeadShows(s, lt, coarse, n, i, j)
  }

  ghost predicate Coarser<T(!new)>(coarse: (T, T) -> bool, lt: (T, T) -> bool) {
    StrictWeak(lt) && StrictWeak(coarse) && forall x, y :: coarse(x, y) ==> lt(x, y)
  }

  /** How many of the sorted rest matter for the first `n` once the first element is put in. */
  function Room<T>(s: seq<T>, lt: (T, T) -> bool, n: nat): nat
    requires s != [] && n > 0
  {
    if Rank(s, lt, 0) < n then n - 1 else n
  }

  /** Those of the first `n` that beat the first element do so in the coarser order too. */
  ghost predicate FirstIsBeaten<T>(s: seq<T>, lt: (T, T) -> bool, coarse: (T, T) -> bool, n: nat)
    requires s != []
  {
    var rest := Sort(s[1..], lt);
    forall k :: 0 <= k < |rest| && k < Rank(s, lt, 0) && k < n ==> coarse(rest[k], s[0])
  }

  /** Which elements of the rest are within the cut, before and after the first element is put in. */
  lemma RoomIsEnough<T(!new)>(s: seq<T>, lt: (T, T) -> bool, n: nat, j: nat)
    requires StrictWeak(lt) && n > 0 && j + 1 < |s|
    ensures var r := Rank(s[1..], lt, j);
      && (Rank(s, lt, j + 1) < n <==> r < Room(s, lt, n))
      && (lt(s[j + 1], s[0]) <==> r < Rank(s, lt, 0))
      && r < |Sort(s[1..], lt)| && Sort(s[1..], lt)[r] == s[j + 1]
  {
    SortFirst(s, lt);
    RankIsPlace(s[1..], lt, j);
    RankNext(s, lt, j);
  }

  /** The same lead, seen in the rest and in the whole. */
  lemma LeadBehindFirst<T(!new)>(s: seq<T>, lt: (T, T) -> bool, coarse: (T, T) -> bool, n: nat, i: nat, j: nat)
    requires StrictWeak(lt) && n > 0 && i < j < |s| - 1
    ensures LeadShows(s, lt, coarse, n, i + 1, j + 1) <==> LeadShows(s[1..], lt, coarse, Room(s, lt, n), i, j)
  {
    RoomIsEnough(s, lt, n, j);
  }

  lemma LeadOverFirst<T(!new)>(s: seq<T>, lt: (T, T) -> bool, coarse: (T, T) -> bool, n: nat, j: nat)
    requires StrictWeak(lt) && n > 0 && 0 < j < |s| && FirstIsBeaten(s, lt, coarse, n)
    ensures LeadShows(s, lt, coarse, n, 0, j)
  {
    RoomIsEnough(s, lt, n, j - 1);
  }

  lemma LeadsShowInRest<T(!new)>(s: seq<T>, lt: (T, T) -> bool, coarse: (T, T) -> bool, n: nat)
    requires StrictWeak(lt) && s != [] && n > 0 && LeadsShow(s, lt, coarse, n)
    ensures LeadsShow(s[1..], lt, coarse, Room(s, lt, n)) && FirstIsBeaten(s, lt, coarse, n)
  {
    var t, rest := s[1..], Sort(s[1..], lt);
    forall i, j | 0 <= i < j < |t| ensures LeadShows(t, lt, coarse, Room(s, lt, n), i, j) {
      LeadBehindFirst(s, lt, coarse, n, i, j);
    }
    SortPermutes(t, lt);
    forall k | 0 <= k < |rest| && k < Rank(s, lt, 0) && k < n ensures coarse(rest[k], s[0]) {
      var j := PlaceIsRank(t, lt, k);
      RoomIsEnough(s, lt, n, j);
      assert LeadShows(s, lt, coarse, n, 0, j + 1);
    }
  }

  lemma LeadsShowInWhole<T(!new)>(s: seq<T>, lt: (T, T) -> bool, coarse: (T, T) -> bool, n: nat)
    requires StrictWeak(lt) && s != [] && n > 0
    requires LeadsShow(s[1..], lt, coarse, Room(s, lt, n)) && FirstIsBeaten(s, lt, coarse, n)
    ensures LeadsShow(s, lt, coarse, n)
  {
    forall i, j | 0 <= i < j < |s| ensures LeadShows(s, lt, coarse, n, i, j) {
      if i > 0 {
        LeadBehindFirst(s, lt, coarse, n, i - 1, j - 1);
      } else {
        LeadOverFirst(s, lt, coarse, n, j);
      }
    }
  }

  ghost predicate SameFirst<T>(a: seq<T>, b: seq<T>, n: nat) {
    |a| == |b| && forall k :: 0 <= k < |a| && k < n ==> a[k] == b[k]
  }

  lemma TakesAgreeIff<T>(a: seq<T>, b: seq<T>, n: nat)
    requires |a| == |b|
    ensures Take(a, n) == Take(b, n) <==> SameFirst(a, b, n)
  {
    if Take(a, n) == Take(b, n) {
      forall k | 0 <= k < |a| && k < n ensures a[k] == b[k] {
        assert a[k] == Take(a, n)[k] && b[k] == Take(b, n)[k];
      }
    }
  }

  /** Taking `x` out of two lists in which it is at the same place, or beyond the cut in both. */
  lemma SameFirstWithout<T>(r: seq<T>, a: seq<T>, p: nat, r': seq<T>, b: seq<T>, q: nat, x: T, n: nat)
    requires PutIn(r, a, x, p) && PutIn(r', b, x, q) && |a| == |b| && (p == q || (n <= p && n <= q))
    ensures SameFirst(r, r', n) <==> SameFirst(a, b, if p < n then n - 1 else n)
  {
    var m := if p < n then n - 1 else n;
    if SameFirst(r, r', n) {
      forall k | 0 <= k < |a| && k < m ensures a[k] == b[k] {
        var at := if k < p then k else k + 1;
        assert a[k] == r[at] == r'[at] == b[k];
      }
    } else if SameFirst(a, b, m) {
      forall k | 0 <= k < |r| && k < n ensures r[k] == r'[k] {
        if k != p {
          var at := if k < p then k else k - 1;
          assert r[k] == a[at] == b[at] == r'[k];
        }
      }
    }
  }

  lemma CoarserRank<T(!new)>(s: seq<T>, lt: (T, T) -> bool, coarse: (T, T) -> bool)
    requires Coarser(coarse, lt) && s != []
    ensures Rank(s, coarse, 0) <= Rank(s, lt, 0)
  {
    CountMonotone(s[1..], Beats(s[0], coarse), Beats(s[0], lt));
  }

  /** Both orders put the first element in at the same place, or both beyond the cut. */
  ghost predicate SamePlace<T>(s: seq<T>, lt: (T, T) -> bool, coarse: (T, T) -> bool, n: nat)
    requires s != []
  {
    var p, q := Rank(s, lt, 0), Rank(s, coarse, 0);
    p == q || (n <= p && n <= q)
  }

  lemma SameListsSamePlace<T(!new)>(s: seq<T>, lt: (T, T) -> bool, coarse: (T, T) -> bool, n: nat)
    requires Coarser(coarse, lt) && s != [] && Take(Sort(s, lt), n) == Take(Sort(s, coarse), n)
    ensures SamePlace(s, lt, coarse, n)
  {
    var a, b, rest, p, q := Sort(s, lt), Sort(s, coarse), Sort(s[1..], lt), Rank(s, lt, 0), Rank(s, coarse, 0);
    SortFirst(s, lt);
    SortFirst(s, coarse);
    CoarserRank(s, lt, coarse);
    TakesAgreeIff(a, b, n);
    assert q < n ==> a[q] == b[q] == s[0];
    assert q < p ==> a[q] == rest[q];
  }

  lemma BeatenSamePlace<T(!new)>(s: seq<T>, lt: (T, T) -> bool, coarse: (T, T) -> bool, n: nat)
    requires Coarser(coarse, lt) && s != [] && n > 0 && FirstIsBeaten(s, lt, coarse, n)
    requires Take(Sort(s[1..], lt), Room(s, lt, n)) == Take(Sort(s[1..], coarse), Room(s, lt, n))
    ensures SamePlace(s, lt, coarse, n)
  {
    var a, b, p, q := Sort(s[1..], lt), Sort(s[1..], coarse), Rank(s, lt, 0), Rank(s, coarse, 0);
    SortFirst(s, lt);
    SortFirst(s, coarse);
    CoarserRank(s, lt, coarse);
    TakesAgreeIff(a, b, Room(s, lt, n));
    assert q < |a| && q < Room(s, lt, n) ==> a[q] == b[q];
  }

  lemma StillBeaten<T>(x: T, a: seq<T>, b: seq<T>, coarse: (T, T) -> bool, p: nat, q: nat, n: nat)
    requires SameFirst(a, b, if p < n then n - 1 else n) && BeatenBy(x, b, coarse, q) && (p == q || (n <= p && n <= q))
    ensures forall k :: 0 <= k < |a| && k < p && k < n ==> coarse(a[k], x)
  {
    forall k | 0 <= k < |a| && k < p && k < n ensures coarse(a[k], x) {
      assert a[k] == b[k];
    }
  }

  lemma PrefixesOfRest<T(!new)>(s: seq<T>, lt: (T, T) -> bool, coarse: (T, T) -> bool, n: nat)
    requires Coarser(coarse, lt) && s != [] && n > 0 && Take(Sort(s, lt), n) == Take(Sort(s, coarse), n)
    ensures Take(Sort(s[1..], lt), Room(s, lt, n)) == Take(Sort(s[1..], coarse), Room(s, lt, n))
    ensures FirstIsBeaten(s, lt, coarse, n)
  {
    var a, b, p, q := Sort(s[1..], lt), Sort(s[1..], coarse), Rank(s, lt, 0), Rank(s, coarse, 0);
    SortFirst(s, lt);
    SortFirst(s, coarse);
    SameListsSamePlace(s, lt, coarse, n);
    TakesAgreeIff(Sort(s, lt), Sort(s, coarse), n);
    SameFirstWithout(Sort(s, lt), a, p, Sort(s, coarse), b, q, s[0], n);
    TakesAgreeIff(a, b, Room(s, lt, n));
    StillBeaten(s[0], a, b, coarse, p, q, n);
  }

  lemma PrefixesOfWhole<T(!new)>(s: seq<T>, lt: (T, T) -> bool, coarse: (T, T) -> bool, n: nat)
    requires Coarser(coarse, lt) && s != [] && n > 0 && FirstIsBeaten(s, lt, coarse, n)
    requires Take(Sort(s[1..], lt), Room(s, lt, n)) == Take(Sort(s[1..], coarse), Room(s, lt, n))
    ensures Take(Sort(s, lt), n) == Take(Sort(s, coarse), n)
  {
    var a, b, p, q := Sort(s[1..], lt), Sort(s[1..], coarse), Rank(s, lt, 0), Rank(s, coarse, 0);
    SortFirst(s, lt);
    SortFirst(s, coarse);
    BeatenSamePlace(s, lt, coarse, n);
    TakesAgreeIff(a, b, Room(s, lt, n));
    SameFirstWithout(Sort(s, lt), a, p, Sort(s, coarse), b, q, s[0], n);
    TakesAgreeIff(Sort(s, lt), Sort(s, coarse), n);
  }

  /**
   * A stable sort by an order and one by a coarser order have the same first `n` elements exactly when every lead of
   * one of the first `n` over an earlier element shows in the coarser order too.
   */
  lemma {:induction false} PrefixesAgreeIff<T(!new)>(s: seq<T>, lt: (T, T) -> bool, coarse: (T, T) -> bool, n: nat)
    requires Coarser(coarse, lt)
    ensures Take(Sort(s, lt), n) == Take(Sort(s, coarse), n) <==> LeadsShow(s, lt, coarse, n)
    decreases |s|
  {
    if s != [] && n > 0 {
      PrefixesAgreeIff(s[1..], lt, coarse, Room(s, lt, n));
      if Take(Sort(s, lt), n) == Take(Sort(s, coarse), n) {
        PrefixesOfRest(s, lt, coarse, n);
        LeadsShowInWhole(s, lt, coarse, n);
      } else if LeadsShow(s, lt, coarse, n) {
        LeadsShowInRest(s, lt, coarse, n);
        PrefixesOfWhole(s, lt, coarse, n);
      }
    }
  }
}
