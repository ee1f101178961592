/** The sliding-window rate limiter: pruned lists, and what they promise over whole runs. */
module RateLimiter {
  import opened Seqs

  type Key = string

  datatype Limits = Limits(limit: nat, windowMs: int)
  datatype Call = Call(key: Key, now: int)
  datatype Answer = Answer(allowed: bool, remaining: int, retryAfterMs: int)

  function Later(x: int): int -> bool {
    (t: int) => t > x
  }

  /** The hits after time `x`. */
  function Since(hits: seq<int>, x: int): seq<int> {
    Filter(hits, Later(x))
  }

  /** The answer to a call at `now` when `hits` were allowed before. */
  function Verdict(lim: Limits, hits: seq<int>, now: int): Answer
    requires lim.limit >= 1
  {
    var recent := Since(hits, now - lim.windowMs);
    if |recent| >= lim.limit then Answer(false, 0, recent[0] + lim.windowMs - now)
    else Answer(true, lim.limit - (|recent| + 1), 0)
  }

  /** What is stored for the key afterwards. */
  function Pruned(lim: Limits, hits: seq<int>, now: int): seq<int> {
    var recent := Since(hits, now - lim.windowMs);
    if |recent| >= lim.limit then recent else recent + [now]
  }

  function HitsOf(hits: map<Key, seq<int>>, key: Key): seq<int> {
    if key in hits then hits[key] else []
  }

  // ---- runs -----------------------------------------------------------------

  /** The store after a run of calls. */
  function HitsAfter(lim: Limits, calls: seq<Call>): map<Key, seq<int>> {
    if calls == [] then map[]
    else
      var c, hits := Last(calls), HitsAfter(lim, calls[..|calls| - 1]);
      hits[c.key := Pruned(lim, HitsOf(hits, c.key), c.now)]
  }

  /** The answer to `c` after `calls`. */
  function AnswerTo(lim: Limits, calls: seq<Call>, c: Call): Answer
    requires lim.limit >= 1
  {
    Verdict(lim, Stored(lim, calls, c.key), c.now)
  }

  /** The times of the calls on `key` that were allowed: the full history, never pruned. */
  function Allowed(lim: Limits, calls: seq<Call>, key: Key): seq<int>
    requires lim.limit >= 1
  {
    if calls == [] then []
    else
      var c, init := Last(calls), calls[..|calls| - 1];
      Allowed(lim, init, key) + if c.key == key && AnswerTo(lim, init, c).allowed then [c.now] else []
  }

  /** What is stored for `key` after a run. */
  function Stored(lim: Limits, calls: seq<Call>, key: Key): seq<int> {
    HitsOf(HitsAfter(lim, calls), key)
  }

  predicate NotBefore(calls: seq<Call>, now: int) {
    calls == [] || Last(calls).now <= now
  }

  /** The clock never goes back. */
  predicate Clocked(calls: seq<Call>) {
    calls == [] || (Clocked(calls[..|calls| - 1]) && NotBefore(calls[..|calls| - 1], Last(calls).now))
  }

  class InMemoryRateLimiter {
    const limits: Limits
    var hits: map<Key, seq<int>>
    ghost var log: seq<Call>

    ghost predicate Valid()
      reads this
    {
      limits.limit >= 1 && hits == HitsAfter(limits, log)
    }

    constructor (limit: nat, windowMs: int)
      requires limit >= 1
      ensures Valid() && log == [] && limits == Limits(limit, windowMs)
    {
      limits := Limits(limit, windowMs);
      hits := map[];
      log := [];
    }

    method Consume(key: Key, now: int) returns (answer: Answer)
      requires Valid()
      modifies this
      ensures Valid() && log == old(log) + [Call(key, now)]
      ensures answer == AnswerTo(limits, old(log), Call(key, now))
    {
      var windowStart := now - limits.windowMs;
      var recent := Filter(if key in hits then hits[key] else [], Later(windowStart));
      log := log + [Call(key, now)];
      assert log[..|log| - 1] == old(log);
      if |recent| >= limits.limit {
        hits := hits[key := recent];
        var retryAfterMs := recent[0] + limits.windowMs - now;
        return Answer(false, 0, retryAfterMs);
      }
      recent := recent + [now];
      hits := hits[key := recent];
      return Answer(true, limits.limit - |recent|, 0);
    }
  }

  // ---- one more call --------------------------------------------------------

  lemma {:induction false} CountSince(s: seq<int>, x: int, p: int -> bool)
    requires forall t :: p(t) <==> t > x
    ensures |Since(s, x)| == Count(s, p)
  {
    if s != [] {
      CountSince(s[1..], x, p);
      CountFirst(s, p);
    }
  }

  /** The answer in terms of the calls on the key allowed within the window before it. */
  lemma AnswerCounts(lim: Limits, calls: seq<Call>, key: Key, now: int)
    requires lim.limit >= 1 && Clocked(calls + [Call(key, now)])
    ensures var recent := Count(Allowed(lim, calls, key), (t: int) => t > now - lim.windowMs);
      var answer := AnswerTo(lim, calls, Call(key, now));
      && (answer.allowed <==> recent < lim.limit)
      && answer.remaining == if answer.allowed then lim.limit - recent - 1 else 0
  {
    AnswersFromFullHistory(lim, calls, Call(key, now));
    CountSince(Allowed(lim, calls, key), now - lim.windowMs, (t: int) => t > now - lim.windowMs);
  }

  lemma ClockedNext(calls: seq<Call>, c: Call)
    ensures Clocked(calls + [c]) <==> Clocked(calls) && NotBefore(calls, c.now)
  {
    assert (calls + [c])[..|calls|] == calls;
  }

  lemma StoredNext(lim: Limits, calls: seq<Call>, c: Call, key: Key)
    ensures var hits := Stored(lim, calls, key);
      Stored(lim, calls + [c], key) == if c.key == key then Pruned(lim, hits, c.now) else hits
  {
    assert (calls + [c])[..|calls|] == calls;
  }

  lemma AllowedNext(lim: Limits, calls: seq<Call>, c: Call, key: Key)
    requires lim.limit >= 1
    ensures Allowed(lim, calls + [c], key)
            == if c.key == key && AnswerTo(lim, calls, c).allowed then Allowed(lim, calls, key) + [c.now]
               else Allowed(lim, calls, key)
  {
    assert (calls + [c])[..|calls|] == calls;
    assert Allowed(lim, calls, key) + [] == Allowed(lim, calls, key);
  }

  lemma InitLast(calls: seq<Call>)
    requires calls != []
    ensures calls == calls[..|calls| - 1] + [Last(calls)]
  {
  }

  /** `a + later` with `later`'s last call split off. */
  lemma Split(a: seq<Call>, later: seq<Call>)
    requires later != []
    ensures a + later == (a + later[..|later| - 1]) + [Last(later)]
  {
  }

  // ---- pruning is invisible -------------------------------------------------

  lemma {:induction false} SinceSince(s: seq<int>, x: int, y: int)
    requires x <= y
    ensures Since(Since(s, x), y) == Since(s, y)
  {
    if s != [] {
      SinceSince(s[1..], x, y);
      var rest := Since(s[1..], x);
      if s[0] > x { assert Since(s, x)[1..] == rest; }
    }
  }

  lemma SinceAppend(s: seq<int>, now: int, x: int)
    ensures Since(s + [now], x) == if now > x then Since(s, x) + [now] else Since(s, x)
  {
    FilterAppend(s, [now], Later(x));
    assert [now][1..] == [] && Since(s, x) + [] == Since(s, x);
  }

  lemma PrunedSince(lim: Limits, hits: seq<int>, now: int, x: int)
    requires lim.limit >= 1 && x >= now - lim.windowMs
    ensures Since(Pruned(lim, hits, now), x)
            == if Verdict(lim, hits, now).allowed && now > x then Since(hits, x) + [now] else Since(hits, x)
  {
    SinceSince(hits, now - lim.windowMs, x);
    SinceAppend(Since(hits, now - lim.windowMs), now, x);
  }

  /** Looking back no further than a window from the last call, the pruned list shows the full history. */
  lemma {:induction false} PrunedShowsHistory(lim: Limits, calls: seq<Call>, key: Key, x: int)
    requires lim.limit >= 1 && Clocked(calls) && NotBefore(calls, x + lim.windowMs)
    ensures Since(Stored(lim, calls, key), x) == Since(Allowed(lim, calls, key), x)
  {
    if calls != [] {
      var c, init := Last(calls), calls[..|calls| - 1];
      InitLast(calls);
      PrunedShowsHistory(lim, init, key, x);
      StoredNext(lim, init, c, key);
      AllowedNext(lim, init, c, key);
      if c.key == key {
        PrunedSince(lim, Stored(lim, init, key), c.now, x);
        SinceAppend(Allowed(lim, init, key), c.now, x);
      }
    }
  }

  /** The lazily pruned list answers every call as the full history of allowed calls would. */
  lemma AnswersFromFullHistory(lim: Limits, calls: seq<Call>, c: Call)
    requires lim.limit >= 1 && Clocked(calls + [c])
    ensures AnswerTo(lim, calls, c) == Verdict(lim, Allowed(lim, calls, c.key), c.now)
  {
    ClockedNext(calls, c);
    PrunedShowsHistory(lim, calls, c.key, c.now - lim.windowMs);
  }

  // ---- at most `limit` per window -------------------------------------------

  function Within(s: int, e: int): int -> bool {
    (t: int) => s < t <= e
  }

  lemma {:induction false} FilterImplied<T>(s: seq<T>, p: T -> bool, q: T -> bool)
    requires forall x :: x in s && p(x) ==> q(x)
    ensures |Filter(s, p)| <= |Filter(s, q)|
  {
    if s != [] { FilterImplied(s[1..], p, q); }
  }

  lemma WindowGrows(lim: Limits, before: seq<int>, now: int, s: int)
    requires lim.limit >= 1 && |Filter(before, Within(s, s + lim.windowMs))| <= lim.limit
    requires Verdict(lim, before, now).allowed
    ensures |Filter(before + [now], Within(s, s + lim.windowMs))| <= lim.limit
  {
    var w := Within(s, s + lim.windowMs);
    FilterAppend(before, [now], w);
    if w(now) {
      FilterImplied(before, w, Later(now - lim.windowMs));
    }
  }

  /** In every window (s, s + windowMs], at most `limit` calls on a key are allowed. */
  lemma {:induction false} AtMostLimitPerWindow(lim: Limits, calls: seq<Call>, key: Key, s: int)
    requires lim.limit >= 1 && Clocked(calls)
    ensures |Filter(Allowed(lim, calls, key), Within(s, s + lim.windowMs))| <= lim.limit
  {
    if calls != [] {
      var c, init := Last(calls), calls[..|calls| - 1];
      InitLast(calls);
      AtMostLimitPerWindow(lim, init, key, s);
      AllowedNext(lim, init, c, key);
      if c.key == key && AnswerTo(lim, init, c).allowed {
        AnswersFromFullHistory(lim, init, c);
        WindowGrows(lim, Allowed(lim, init, key), c.now, s);
      }
    }
  }

  // ---- refused calls and other keys -----------------------------------------

  lemma {:induction false} ClockedPrefix(a: seq<Call>, b: seq<Call>)
    requires Clocked(a + b)
    ensures Clocked(a)
  {
    if b == [] {
      assert a + b == a;
    } else {
      Split(a, b);
      ClockedNext(a + b[..|b| - 1], Last(b));
      ClockedPrefix(a, b[..|b| - 1]);
    }
  }

  /** Two runs with the same allowed history of a key go on to answer that key alike. */
  lemma {:induction false} SameHistorySameFuture(lim: Limits, a: seq<Call>, b: seq<Call>, later: seq<Call>, key: Key)
    requires lim.limit >= 1 && Clocked(a + later) && Clocked(b + later) && Allowed(lim, a, key) == Allowed(lim, b, key)
    ensures Allowed(lim, a + later, key) == Allowed(lim, b + later, key)
  {
    if later == [] {
      assert a + later == a && b + later == b;
    } else {
      var c, init := Last(later), later[..|later| - 1];
      Split(a, later);
      Split(b, later);
      ClockedPrefix(a + init, [c]);
      ClockedPrefix(b + init, [c]);
      SameHistorySameFuture(lim, a, b, init, key);
      AllowedNext(lim, a + init, c, key);
      AllowedNext(lim, b + init, c, key);
      AnswersFromFullHistory(lim, a + init, c);
      AnswersFromFullHistory(lim, b + init, c);
    }
  }

  lemma {:induction false} ClockedWithout(calls: seq<Call>, c: Call, later: seq<Call>)
    requires Clocked(calls + [c] + later)
    ensures Clocked(calls + later)
  {
    if later == [] {
      assert calls + [c] + later == calls + [c] && calls + later == calls;
      ClockedNext(calls, c);
    } else {
      var init := later[..|later| - 1];
      Split(calls + [c], later);
      Split(calls, later);
      ClockedNext(calls + [c] + init, Last(later));
      ClockedNext(calls + init, Last(later));
      ClockedWithout(calls, c, init);
      if init == [] {
        assert calls + [c] + init == calls + [c] && calls + init == calls;
        ClockedNext(calls, c);
      }
    }
  }

  /** A refused call never counts: without it, the same later calls are allowed, on every key. */
  lemma RefusedCallsDoNotCount(lim: Limits, calls: seq<Call>, c: Call, later: seq<Call>, key: Key)
    requires lim.limit >= 1 && Clocked(calls + [c] + later) && !AnswerTo(lim, calls, c).allowed
    ensures Allowed(lim, calls + [c] + later, key) == Allowed(lim, calls + later, key)
  {
    ClockedWithout(calls, c, later);
    AllowedNext(lim, calls, c, key);
    SameHistorySameFuture(lim, calls + [c], calls, later, key);
  }

  function OnKey(key: Key): Call -> bool {
    (c: Call) => c.key == key
  }

  lemma OwnNext(calls: seq<Call>, c: Call, key: Key)
    ensures Filter(calls + [c], OnKey(key)) == if c.key == key then Filter(calls, OnKey(key)) + [c] else Filter(calls, OnKey(key))
  {
    FilterAppend(calls, [c], OnKey(key));
    assert [c][1..] == [] && Filter(calls, OnKey(key)) + [] == Filter(calls, OnKey(key));
  }

  lemma {:induction false} ListsAreIndependent(lim: Limits, calls: seq<Call>, key: Key)
    ensures Stored(lim, calls, key) == Stored(lim, Filter(calls, OnKey(key)), key)
  {
    if calls != [] {
      var c, init := Last(calls), calls[..|calls| - 1];
      InitLast(calls);
      ListsAreIndependent(lim, init, key);
      OwnNext(init, c, key);
      StoredNext(lim, init, c, key);
      if c.key == key {
        StoredNext(lim, Filter(init, OnKey(key)), c, key);
      }
    }
  }

  /** Keys do not affect each other: a key is answered as in the run of its own calls alone. */
  lemma {:induction false} KeysAreIndependent(lim: Limits, calls: seq<Call>, c: Call)
    requires lim.limit >= 1
    ensures AnswerTo(lim, calls, c) == AnswerTo(lim, Filter(calls, OnKey(c.key)), c)
  {
    ListsAreIndependent(lim, calls, c.key);
  }

  // ---- remaining ------------------------------------------------------------

  /** `calls`, and then `k` times `c`. */
  function Repeated(calls: seq<Call>, c: Call, k: nat): seq<Call> {
    if k == 0 then calls else Repeated(calls, c, k - 1) + [c]
  }

  /** The list after `k` calls at `now`. */
  function PrunedTimes(lim: Limits, hits: seq<int>, now: int, k: nat): seq<int> {
    if k == 0 then hits else Pruned(lim, PrunedTimes(lim, hits, now, k - 1), now)
  }

  lemma {:induction false} StoredRepeated(lim: Limits, calls: seq<Call>, c: Call, k: nat)
    ensures Stored(lim, Repeated(calls, c, k), c.key) == PrunedTimes(lim, Stored(lim, calls, c.key), c.now, k)
  {
    if k > 0 {
      StoredRepeated(lim, calls, c, k - 1);
      StoredNext(lim, Repeated(calls, c, k - 1), c, c.key);
    }
  }

  ghost predicate AllAfter(s: seq<int>, x: int) {
    forall i :: 0 <= i < |s| ==> s[i] > x
  }

  lemma RecentIsAfter(hits: seq<int>, x: int)
    ensures AllAfter(Since(hits, x), x)
  {
    FilterMembers(hits, Later(x));
    assert forall i :: 0 <= i < |Since(hits, x)| ==> Since(hits, x)[i] in Since(hits, x);
  }

  /** An allowed call leaves the list short of the limit by what is said to remain. */
  lemma FirstHit(lim: Limits, hits: seq<int>, now: int)
    requires lim.limit >= 1 && lim.windowMs > 0 && Verdict(lim, hits, now).allowed
    ensures var s, left := Pruned(lim, hits, now), Verdict(lim, hits, now).remaining;
      left >= 0 && |s| == lim.limit - left && AllAfter(s, now - lim.windowMs)
  {
    RecentIsAfter(hits, now - lim.windowMs);
  }

  /** A further call at that time is allowed, and recorded, while the list is not full. */
  lemma NextHit(lim: Limits, s: seq<int>, now: int)
    requires lim.limit >= 1 && lim.windowMs > 0 && AllAfter(s, now - lim.windowMs)
    ensures Verdict(lim, s, now).allowed <==> |s| < lim.limit
    ensures Pruned(lim, s, now) == (if |s| < lim.limit then s + [now] else s) && AllAfter(Pruned(lim, s, now), now - lim.windowMs)
  {
    SinceAll(s, now - lim.windowMs);
  }

  /** The list is as full as `k` further calls make it when `left` remain. */
  ghost predicate FilledUp(lim: Limits, s: seq<int>, left: int, k: nat, now: int) {
    left >= 0 && |s| == lim.limit - left + (if k < left then k else left) && AllAfter(s, now - lim.windowMs)
  }

  lemma FilledUpNext(lim: Limits, s: seq<int>, left: int, k: nat, now: int)
    requires lim.limit >= 1 && lim.windowMs > 0 && FilledUp(lim, s, left, k, now)
    ensures FilledUp(lim, Pruned(lim, s, now), left, k + 1, now)
  {
    NextHit(lim, s, now);
  }

  lemma {:induction false} ListFillsUp(lim: Limits, s: seq<int>, left: int, k: nat, now: int)
    requires lim.limit >= 1 && lim.windowMs > 0 && FilledUp(lim, s, left, 0, now)
    ensures FilledUp(lim, PrunedTimes(lim, s, now, k), left, k, now)
  {
    if k > 0 {
      ListFillsUp(lim, s, left, k - 1, now);
      FilledUpNext(lim, PrunedTimes(lim, s, now, k - 1), left, k - 1, now);
    }
  }

  lemma {:induction false} ClockedRepeated(calls: seq<Call>, c: Call, k: nat)
    requires Clocked(calls) && NotBefore(calls, c.now)
    ensures Clocked(Repeated(calls, c, k)) && NotBefore(Repeated(calls, c, k), c.now)
  {
    if k > 0 {
      ClockedRepeated(calls, c, k - 1);
      ClockedNext(Repeated(calls, c, k - 1), c);
    }
  }

  /** Without a window nothing counts, and every call is allowed. */
  lemma NoWindow(lim: Limits, calls: seq<Call>, c: Call)
    requires lim.limit >= 1 && lim.windowMs <= 0 && Clocked(calls) && NotBefore(calls, c.now)
    ensures AnswerTo(lim, calls, c).allowed
  {
    var s := Stored(lim, calls, c.key);
    var recent := Since(s, c.now - lim.windowMs);
    StoredIsSound(lim, calls, c.key, c.now);
    FilterMembers(s, Later(c.now - lim.windowMs));
    if s != [] { FirstIsLeast(s, c.now); }
    assert forall i :: 0 <= i < |recent| ==> recent[i] in recent;
  }

  /** What is said to remain is exactly how many further calls on the key are allowed at the same time. */
  lemma RemainingIsExact(lim: Limits, calls: seq<Call>, c: Call, k: nat)
    requires lim.limit >= 1 && Clocked(calls + [c]) && AnswerTo(lim, calls, c).allowed
    ensures AnswerTo(lim, Repeated(calls + [c], c, k), c).allowed
         <==> k < AnswerTo(lim, calls, c).remaining || lim.windowMs <= 0
  {
    if lim.windowMs <= 0 {
      ClockedRepeated(calls + [c], c, k);
      NoWindow(lim, Repeated(calls + [c], c, k), c);
    } else {
      StoredNext(lim, calls, c, c.key);
      StoredRepeated(lim, calls + [c], c, k);
      FillsUp(lim, Stored(lim, calls, c.key), c.now, k);
    }
  }

  lemma FillsUp(lim: Limits, hits: seq<int>, now: int, k: nat)
    requires lim.limit >= 1 && lim.windowMs > 0 && Verdict(lim, hits, now).allowed
    ensures Verdict(lim, PrunedTimes(lim, Pruned(lim, hits, now), now, k), now).allowed <==> k < Verdict(lim, hits, now).remaining
  {
    FirstHit(lim, hits, now);
    ListFillsUp(lim, Pruned(lim, hits, now), Verdict(lim, hits, now).remaining, k, now);
    NextHit(lim, PrunedTimes(lim, Pruned(lim, hits, now), now, k), now);
  }

  // ---- retryAfterMs ---------------------------------------------------------

  /** In time order, and none after `now`. */
  predicate Rising(s: seq<int>, now: int) {
    s == [] || (s[0] <= now && Rising(s[1..], now) && (|s| > 1 ==> s[0] <= s[1]))
  }

  lemma {:induction false} FirstIsLeast(s: seq<int>, now: int)
    requires Rising(s, now)
    ensures forall i :: 0 <= i < |s| ==> s[0] <= s[i] <= now
  {
    if |s| > 1 {
      FirstIsLeast(s[1..], now);
      assert forall i :: 1 <= i < |s| ==> s[i] == s[1..][i - 1];
    }
  }

  lemma {:induction false} SinceRises(s: seq<int>, x: int, now: int, end: int)
    requires Rising(s, now) && now <= end
    ensures Rising(Since(s, x), end)
  {
    if s != [] {
      SinceRises(s[1..], x, now, end);
      FirstIsLeast(s, now);
      var rest := Since(s[1..], x);
      if s[0] > x { assert Since(s, x)[1..] == rest; }
    }
  }

  lemma {:induction false} AppendRises(s: seq<int>, now: int)
    requires Rising(s, now)
    ensures Rising(s + [now], now)
  {
    if s != [] {
      AppendRises(s[1..], now);
      assert (s + [now])[1..] == s[1..] + [now];
    }
  }

  lemma PrunedIsSound(lim: Limits, hits: seq<int>, now: int)
    requires lim.limit >= 1 && |hits| <= lim.limit && Rising(hits, now)
    ensures |Pruned(lim, hits, now)| <= lim.limit && Rising(Pruned(lim, hits, now), now)
  {
    SinceRises(hits, now - lim.windowMs, now, now);
    AppendRises(Since(hits, now - lim.windowMs), now);
  }

  /** What is stored never exceeds the limit, is in time order, and is not in the future. */
  lemma {:induction false} StoredIsSound(lim: Limits, calls: seq<Call>, key: Key, now: int)
    requires lim.limit >= 1 && Clocked(calls) && NotBefore(calls, now)
    ensures |Stored(lim, calls, key)| <= lim.limit && Rising(Stored(lim, calls, key), now)
  {
    if calls != [] {
      var c, init := Last(calls), calls[..|calls| - 1];
      InitLast(calls);
      StoredNext(lim, init, c, key);
      if c.key == key {
        StoredIsSound(lim, init, key, c.now);
        PrunedIsSound(lim, Stored(lim, init, key), c.now);
        StillRises(Pruned(lim, Stored(lim, init, key), c.now), c.now, now);
      } else {
        StoredIsSound(lim, init, key, now);
      }
    }
  }

  lemma {:induction false} StillRises(s: seq<int>, now: int, end: int)
    requires Rising(s, now) && now <= end
    ensures Rising(s, end)
  {
    if s != [] { StillRises(s[1..], now, end); }
  }

  /** The list a refusal leaves behind: exactly `limit` hits, the first of which sets the wait. */
  lemma RefusedList(lim: Limits, calls: seq<Call>, c: Call)
    requires lim.limit >= 1 && Clocked(calls + [c]) && !AnswerTo(lim, calls, c).allowed
    ensures var full, wait := Stored(lim, calls + [c], c.key), AnswerTo(lim, calls, c).retryAfterMs;
      && |full| == lim.limit && full[0] == c.now + wait - lim.windowMs
      && forall i :: 0 <= i < |full| ==> full[0] <= full[i] <= c.now
  {
    ClockedNext(calls, c);
    StoredNext(lim, calls, c, c.key);
    StoredIsSound(lim, calls, c.key, c.now);
    SinceRises(Stored(lim, calls, c.key), c.now - lim.windowMs, c.now, c.now);
    FirstIsLeast(Stored(lim, calls + [c], c.key), c.now);
  }

  /** A refusal names a wait of more than nothing and at most the window. */
  lemma RetryAfterIsInWindow(lim: Limits, calls: seq<Call>, c: Call)
    requires lim.limit >= 1 && Clocked(calls + [c]) && !AnswerTo(lim, calls, c).allowed
    ensures 0 < AnswerTo(lim, calls, c).retryAfterMs <= lim.windowMs
  {
    RefusedList(lim, calls, c);
    RecentIsAfter(Stored(lim, calls, c.key), c.now - lim.windowMs);
  }

  lemma {:induction false} SinceAll(s: seq<int>, x: int)
    requires forall i :: 0 <= i < |s| ==> s[i] > x
    ensures Since(s, x) == s
  {
    if s != [] { SinceAll(s[1..], x); }
  }

  lemma StillFull(lim: Limits, full: seq<int>, now: int)
    requires lim.limit >= 1 && |full| >= lim.limit && forall i :: 0 <= i < |full| ==> full[i] > now - lim.windowMs
    ensures Pruned(lim, full, now) == full && !Verdict(lim, full, now).allowed
  {
    SinceAll(full, now - lim.windowMs);
  }

  /** Until the wait is over, nothing on the key is let in, so its list stays as the refusal left it. */
  lemma {:induction false} FullUntilRetry(lim: Limits, calls: seq<Call>, c: Call, more: seq<Call>)
    requires lim.limit >= 1 && Clocked(calls + [c] + more) && !AnswerTo(lim, calls, c).allowed
    requires forall i :: 0 <= i < |more| && more[i].key == c.key ==>
               more[i].now < c.now + AnswerTo(lim, calls, c).retryAfterMs
    ensures Stored(lim, calls + [c] + more, c.key) == Stored(lim, calls + [c], c.key)
  {
    if more == [] {
      assert calls + [c] + more == calls + [c];
    } else {
      var d, init := Last(more), more[..|more| - 1];
      Split(calls + [c], more);
      ClockedPrefix(calls + [c] + init, [d]);
      FullUntilRetry(lim, calls, c, init);
      StoredNext(lim, calls + [c] + init, d, c.key);
      if d.key == c.key {
        ClockedPrefix(calls + [c], more);
        RefusedList(lim, calls, c);
        StillFull(lim, Stored(lim, calls + [c], c.key), d.now);
      }
    }
  }

  lemma {:induction false} NoneLater(calls: seq<Call>, more: seq<Call>, d: Call)
    requires Clocked(calls + more + [d])
    ensures forall i :: 0 <= i < |more| ==> more[i].now <= d.now
  {
    if more != [] {
      var init := more[..|more| - 1];
      ClockedNext(calls + more, d);
      Split(calls, more);
      NoneLater(calls, init, Last(more));
    }
  }

  /** Every further call on the key before the wait is over is refused, whatever happens in between. */
  lemma RefusedBeforeRetry(lim: Limits, calls: seq<Call>, c: Call, more: seq<Call>, d: Call)
    requires lim.limit >= 1 && Clocked(calls + [c] + more + [d]) && !AnswerTo(lim, calls, c).allowed
    requires d.key == c.key && d.now < c.now + AnswerTo(lim, calls, c).retryAfterMs
    ensures !AnswerTo(lim, calls + [c] + more, d).allowed
  {
    NoneLater(calls + [c], more, d);
    ClockedPrefix(calls + [c] + more, [d]);
    ClockedPrefix(calls + [c], more);
    FullUntilRetry(lim, calls, c, more);
    RefusedList(lim, calls, c);
    StillFull(lim, Stored(lim, calls + [c], c.key), d.now);
  }

  /** A call on the key at or after the end of the wait, with no other call on the key in between, is allowed. */
  lemma AllowedAtRetry(lim: Limits, calls: seq<Call>, c: Call, more: seq<Call>, d: Call)
    requires lim.limit >= 1 && Clocked(calls + [c] + more + [d]) && !AnswerTo(lim, calls, c).allowed
    requires d.key == c.key && d.now >= c.now + AnswerTo(lim, calls, c).retryAfterMs
    requires forall i :: 0 <= i < |more| ==> more[i].key != c.key
    ensures AnswerTo(lim, calls + [c] + more, d).allowed
  {
    ClockedPrefix(calls + [c] + more, [d]);
    ClockedPrefix(calls + [c], more);
    FullUntilRetry(lim, calls, c, more);
    RefusedList(lim, calls, c);
    FirstIsDropped(lim, Stored(lim, calls + [c], c.key), d.now);
  }

  lemma FirstIsDropped(lim: Limits, s: seq<int>, now: int)
    requires lim.limit >= 1 && |s| == lim.limit && s[0] <= now - lim.windowMs
    ensures Verdict(lim, s, now).allowed
  {
  }
}
