/** Merging trend observations of several sources: one entry per topic, however the observations arrive. */
module Trends {
  import opened Seqs

  datatype Observation = Observation(topic: string, volume: real, growth: real, refs: Option<seq<string>>)

  const MaxRefs := 5

  function RefsOf(o: Observation): seq<string> {
    if o.refs.Some? then o.refs.value else []
  }

  function Larger(x: real, y: real): real {
    if x >= y then x else y
  }

  /** The first observation of a topic is copied with all its refs. */
  function Copied(o: Observation): Observation {
    o.(refs := Some(RefsOf(o)))
  }

  /** A later one of the same topic is absorbed: maxima, and the union of the refs cut to five. */
  function Absorbed(e: Observation, o: Observation): Observation {
    Observation(e.topic, Larger(e.volume, o.volume), Larger(e.growth, o.growth),
                Some(Take(Unique(RefsOf(e) + RefsOf(o)), MaxRefs)))
  }

  /** `norm` trims and lower-cases. */
  function KeyOf(norm: string -> string): Observation -> string {
    (o: Observation) => norm(o.topic)
  }

  function HasKey(norm: string -> string, key: string): Observation -> bool {
    (o: Observation) => norm(o.topic) == key
  }

  function Find(norm: string -> string, entries: seq<Observation>, key: string): Option<nat> {
    FindIndex(entries, HasKey(norm, key))
  }

  function Merged(norm: string -> string, entries: seq<Observation>, o: Observation): seq<Observation> {
    var key := norm(o.topic);
    if key == "" then entries
    else
      var at := Find(norm, entries, key);
      if at.None? then entries + [Copied(o)] else entries[at.value := Absorbed(entries[at.value], o)]
  }

  function Merge(norm: string -> string, obs: seq<Observation>): seq<Observation> {
    if obs == [] then [] else Merged(norm, Merge(norm, obs[..|obs| - 1]), Last(obs))
  }

  lemma MergeNext(norm: string -> string, obs: seq<Observation>, o: Observation)
    ensures Merge(norm, obs + [o]) == Merged(norm, Merge(norm, obs), o)
  {
    assert (obs + [o])[..|obs|] == obs;
  }

  method MergeObservations(norm: string -> string, observations: seq<Observation>) returns (feed: seq<Observation>)
    ensures feed == Merge(norm, observations)
  {
    feed := [];
    assert observations[..0] == [];
    for i := 0 to |observations|
      invariant feed == Merge(norm, observations[..i])
    {
      var obs := observations[i];
      assert observations[..i + 1] == observations[..i] + [obs];
      MergeNext(norm, observations[..i], obs);
      var key := norm(obs.topic);
      if key == "" {
        continue;
      }
      var existing := Find(norm, feed, key);
      if existing.None? {
        feed := feed + [obs.(refs := Some(RefsOf(obs)))];
        continue;
      }
      var e := feed[existing.value];
      e := e.(volume := Larger(e.volume, obs.volume));
      e := e.(growth := Larger(e.growth, obs.growth));
      e := e.(refs := Some(Take(Unique(RefsOf(e) + RefsOf(obs)), MaxRefs)));
      feed := feed[existing.value := e];
    }
    assert observations[..|observations|] == observations;
  }

  // ---- the closed form ------------------------------------------------------

  /** The distinct non-blank keys in order of first appearance. */
  function Keys(norm: string -> string, obs: seq<Observation>): seq<string> {
    Distinct(Map(obs, KeyOf(norm)))
  }

  function Group(norm: string -> string, obs: seq<Observation>, key: string): seq<Observation> {
    Filter(obs, HasKey(norm, key))
  }

  /** One topic's observations made into one entry. */
  function Combined(group: seq<Observation>): Observation
    requires group != []
  {
    if |group| == 1 then Copied(group[0]) else Absorbed(Combined(group[..|group| - 1]), Last(group))
  }

  lemma GroupNext(norm: string -> string, obs: seq<Observation>, o: Observation, key: string)
    ensures Group(norm, obs + [o], key)
            == if norm(o.topic) == key then Group(norm, obs, key) + [o] else Group(norm, obs, key)
  {
    FilterAppend(obs, [o], HasKey(norm, key));
    assert [o][1..] == [] && Group(norm, obs, key) + [] == Group(norm, obs, key);
  }

  lemma CombinedNext(group: seq<Observation>, o: Observation)
    ensures Combined(group + [o]) == if group == [] then Copied(o) else Absorbed(Combined(group), o)
  {
    assert (group + [o])[..|group|] == group;
  }

  lemma KeysNext(norm: string -> string, obs: seq<Observation>, o: Observation)
    ensures var keys, key := Keys(norm, obs), norm(o.topic);
      Keys(norm, obs + [o]) == if key == "" || key in keys then keys else keys + [key]
  {
    assert Map(obs + [o], KeyOf(norm)) == Map(obs, KeyOf(norm)) + [norm(o.topic)];
    DistinctNext(Map(obs, KeyOf(norm)), norm(o.topic));
  }

  /** `entries` is the list of combined groups, one for each key. */
  ghost predicate IsGrouped(norm: string -> string, obs: seq<Observation>, entries: seq<Observation>) {
    && |entries| == |Keys(norm, obs)|
    && forall i :: 0 <= i < |entries| ==> IsEntry(norm, obs, Keys(norm, obs)[i], entries[i])
  }

  ghost predicate IsEntry(norm: string -> string, obs: seq<Observation>, key: string, e: Observation) {
    Group(norm, obs, key) != [] && norm(e.topic) == key && e == Combined(Group(norm, obs, key))
  }

  lemma KeysAre(norm: string -> string, obs: seq<Observation>)
    ensures NoDup(Keys(norm, obs))
    ensures forall key :: key in Keys(norm, obs) <==> key != "" && Group(norm, obs, key) != []
  {
    var names := Map(obs, KeyOf(norm));
    UniqueIs(Filter(names, NonBlank()));
    FilterMembers(names, NonBlank());
    forall key ensures key in names <==> Group(norm, obs, key) != [] {
      InGroup(norm, obs, key);
    }
  }

  lemma {:induction false} InGroup(norm: string -> string, obs: seq<Observation>, key: string)
    ensures key in Map(obs, KeyOf(norm)) <==> Group(norm, obs, key) != []
  {
    if obs != [] {
      InGroup(norm, obs[1..], key);
      assert Map(obs, KeyOf(norm)) == [norm(obs[0].topic)] + Map(obs[1..], KeyOf(norm));
    }
  }

  lemma FindIs(norm: string -> string, entries: seq<Observation>, keys: seq<string>, key: string)
    requires |entries| == |keys| && forall i :: 0 <= i < |keys| ==> norm(entries[i].topic) == keys[i]
    ensures Find(norm, entries, key).Some? <==> key in keys
    ensures Find(norm, entries, key).Some? ==> keys[Find(norm, entries, key).value] == key
  {
    FindIndexFinds(entries, HasKey(norm, key));
    if key in keys {
      var i :| 0 <= i < |keys| && keys[i] == key;
      assert entries[i] in entries && HasKey(norm, key)(entries[i]);
    }
  }

  lemma EntryStays(norm: string -> string, obs: seq<Observation>, o: Observation, key: string, e: Observation)
    requires IsEntry(norm, obs, key, e) && norm(o.topic) != key
    ensures IsEntry(norm, obs + [o], key, e)
  {
    GroupNext(norm, obs, o, key);
  }

  lemma EntryGrows(norm: string -> string, obs: seq<Observation>, o: Observation, key: string, e: Observation)
    requires IsEntry(norm, obs, key, e) && norm(o.topic) == key
    ensures IsEntry(norm, obs + [o], key, Absorbed(e, o))
  {
    GroupNext(norm, obs, o, key);
    CombinedNext(Group(norm, obs, key), o);
  }

  lemma EntryStarts(norm: string -> string, obs: seq<Observation>, o: Observation)
    requires Group(norm, obs, norm(o.topic)) == []
    ensures IsEntry(norm, obs + [o], norm(o.topic), Copied(o))
  {
    GroupNext(norm, obs, o, norm(o.topic));
    CombinedNext([], o);
    assert [] + [o] == [o];
  }

  lemma MergedIsGrouped(norm: string -> string, obs: seq<Observation>, entries: seq<Observation>, o: Observation)
    requires IsGrouped(norm, obs, entries)
    ensures IsGrouped(norm, obs + [o], Merged(norm, entries, o))
  {
    var keys, key, t := Keys(norm, obs), norm(o.topic), Merged(norm, entries, o);
    KeysAre(norm, obs);
    KeysNext(norm, obs, o);
    FindIs(norm, entries, keys, key);
    forall i | 0 <= i < |t| ensures IsEntry(norm, obs + [o], Keys(norm, obs + [o])[i], t[i]) {
      if i == |entries| {
        EntryStarts(norm, obs, o);
      } else if keys[i] == key {
        EntryGrows(norm, obs, o, key, entries[i]);
      } else {
        EntryStays(norm, obs, o, keys[i], entries[i]);
      }
    }
  }

  /** The merge is one combined entry per distinct non-blank key, in order of first appearance. */
  lemma {:induction false} MergeIsGrouped(norm: string -> string, obs: seq<Observation>)
    ensures IsGrouped(norm, obs, Merge(norm, obs))
  {
    if obs != [] {
      var init := obs[..|obs| - 1];
      MergeIsGrouped(norm, init);
      MergedIsGrouped(norm, init, Merge(norm, init), Last(obs));
      assert obs == init + [Last(obs)];
    }
  }

  /** Every observation of a non-blank topic is represented; no key appears twice. */
  lemma MergeKeys(norm: string -> string, obs: seq<Observation>)
    ensures Map(Merge(norm, obs), KeyOf(norm)) == Keys(norm, obs) && NoDup(Keys(norm, obs))
    ensures forall o :: o in obs && norm(o.topic) != "" ==> norm(o.topic) in Keys(norm, obs)
  {
    MergeIsGrouped(norm, obs);
    KeysAre(norm, obs);
    forall i | 0 <= i < |Merge(norm, obs)| ensures norm(Merge(norm, obs)[i].topic) == Keys(norm, obs)[i] {
      assert IsEntry(norm, obs, Keys(norm, obs)[i], Merge(norm, obs)[i]);
    }
    forall o | o in obs && norm(o.topic) != "" ensures norm(o.topic) in Keys(norm, obs) {
      FilterMembers(obs, HasKey(norm, norm(o.topic)));
      assert o in Group(norm, obs, norm(o.topic));
    }
  }

  // ---- what an entry holds --------------------------------------------------

  ghost predicate IsLargest(x: real, group: seq<Observation>, f: Observation -> real) {
    (forall o :: o in group ==> f(o) <= x) && exists o :: o in group && f(o) == x
  }

  lemma LargestNext(x: real, group: seq<Observation>, o: Observation, f: Observation -> real)
    requires group == [] || IsLargest(x, group, f)
    ensures IsLargest(if group == [] then f(o) else Larger(x, f(o)), group + [o], f)
  {
    var t := group + [o];
    assert o in t;
    if group != [] {
      var w :| w in group && f(w) == x;
      assert w in t;
    }
  }

  function Volume(): Observation -> real {
    (o: Observation) => o.volume
  }

  function Growth(): Observation -> real {
    (o: Observation) => o.growth
  }

  /** Topic of the first, and the largest volume and growth of all. */
  lemma {:induction false} CombinedIsLargest(group: seq<Observation>)
    requires group != []
    ensures Combined(group).topic == group[0].topic
    ensures IsLargest(Combined(group).volume, group, Volume()) && IsLargest(Combined(group).growth, group, Growth())
  {
    var init := group[..|group| - 1];
    if |group| > 1 {
      CombinedIsLargest(init);
    }
    assert group == init + [Last(group)];
    CombinedNext(init, Last(group));
    LargestNext(if init == [] then 0.0 else Combined(init).volume, init, Last(group), Volume());
    LargestNext(if init == [] then 0.0 else Combined(init).growth, init, Last(group), Growth());
  }

  function AllRefs(group: seq<Observation>): seq<string> {
    if group == [] then [] else AllRefs(group[..|group| - 1]) + RefsOf(Last(group))
  }

  lemma {:induction false} UniqueSplit(a: seq<string>, b: seq<string>)
    ensures Unique(a) <= Unique(a + b)
    ensures Unique(Unique(a) + b) == Unique(a + b)
  {
    if b == [] {
      UniqueOfUnique(a);
      assert a + b == a && Unique(a) + b == Unique(a);
    } else {
      var init := b[..|b| - 1];
      UniqueSplit(a, init);
      assert a + b == (a + init) + [Last(b)] && Unique(a) + b == (Unique(a) + init) + [Last(b)];
      UniqueNext(a + init, Last(b));
      UniqueNext(Unique(a) + init, Last(b));
    }
  }

  lemma {:induction false} UniqueOfUnique(a: seq<string>)
    ensures Unique(Unique(a)) == Unique(a)
  {
    if a != [] {
      var init := a[..|a| - 1];
      UniqueOfUnique(init);
      UniqueNext(Unique(init), Last(a));
    }
  }

  /** Cutting early makes no difference to the first five. */
  lemma CutEarly(a: seq<string>, b: seq<string>)
    ensures Take(Unique(Take(Unique(a), MaxRefs) + b), MaxRefs) == Take(Unique(a + b), MaxRefs)
  {
    UniqueSplit(a, b);
    if |Unique(a)| > MaxRefs {
      var cut := Unique(a)[..MaxRefs];
      UniqueOfUnique(a);
      UniqueOfPrefix(Unique(a), MaxRefs);
      UniqueSplit(cut, b);
      PrefixIsUnique(a, MaxRefs);
      assert cut == Unique(a + b)[..MaxRefs];
    }
  }

  lemma {:induction false} PrefixIsUnique(a: seq<string>, n: nat)
    requires n <= |Unique(a)|
    ensures Unique(Unique(a)[..n]) == Unique(a)[..n]
  {
    UniqueIs(a);
    DistinctIsUnique(Unique(a)[..n]);
  }

  lemma {:induction false} DistinctIsUnique(s: seq<string>)
    requires NoDup(s)
    ensures Unique(s) == s
  {
    if s != [] {
      DistinctIsUnique(s[..|s| - 1]);
      assert s == s[..|s| - 1] + [Last(s)];
    }
  }

  /** The refs of a topic seen more than once: the first five distinct ones of all its observations. */
  lemma {:induction false} CombinedRefs(group: seq<Observation>)
    requires group != []
    ensures Combined(group).refs == Some(if |group| == 1 then RefsOf(group[0]) else Take(Unique(AllRefs(group)), MaxRefs))
  {
    if |group| > 1 {
      var init := group[..|group| - 1];
      CombinedRefs(init);
      if |init| == 1 {
        assert AllRefs(init) == RefsOf(init[0]) by { assert init[..0] == []; assert [] + RefsOf(init[0]) == RefsOf(init[0]); }
      } else {
        CutEarly(AllRefs(init), RefsOf(Last(group)));
      }
    }
  }

  /** Each entry of the merge: its topic's first spelling, largest numbers and refs. */
  lemma EntriesHold(norm: string -> string, obs: seq<Observation>, i: nat)
    requires i < |Merge(norm, obs)| && i < |Keys(norm, obs)|
    ensures var e, group := Merge(norm, obs)[i], Group(norm, obs, Keys(norm, obs)[i]);
      && group != [] && e.topic == group[0].topic
      && IsLargest(e.volume, group, Volume()) && IsLargest(e.growth, group, Growth())
      && e.refs == Some(if |group| == 1 then RefsOf(group[0]) else Take(Unique(AllRefs(group)), 5))
  {
    MergeIsGrouped(norm, obs);
    assert IsEntry(norm, obs, Keys(norm, obs)[i], Merge(norm, obs)[i]);
    CombinedIsLargest(Group(norm, obs, Keys(norm, obs)[i]));
    CombinedRefs(Group(norm, obs, Keys(norm, obs)[i]));
  }

  // ---- merging in stages ----------------------------------------------------

  /** Entries as a merge leaves them. */
  ghost predicate IsFeed(norm: string -> string, entries: seq<Observation>) {
    && (forall i :: 0 <= i < |entries| ==> entries[i].refs.Some? && norm(entries[i].topic) != "")
    && (forall i, j :: 0 <= i < j < |entries| ==> norm(entries[i].topic) != norm(entries[j].topic))
  }

  lemma MergeIsFeed(norm: string -> string, obs: seq<Observation>)
    ensures IsFeed(norm, Merge(norm, obs))
  {
    var entries, keys := Merge(norm, obs), Keys(norm, obs);
    MergeIsGrouped(norm, obs);
    KeysAre(norm, obs);
    forall i | 0 <= i < |entries| ensures norm(entries[i].topic) == keys[i] && keys[i] != "" && entries[i].refs.Some? {
      assert IsEntry(norm, obs, keys[i], entries[i]);
      assert keys[i] in keys;
    }
  }

  lemma LastIsNew(norm: string -> string, init: seq<Observation>, last: Observation)
    requires IsFeed(norm, init + [last])
    ensures IsFeed(norm, init) && Merged(norm, init, last) == init + [last]
  {
    var entries, names := init + [last], Map(init, KeyOf(norm));
    assert entries[|init|] == last;
    forall i | 0 <= i < |init| ensures entries[i] == init[i] && names[i] != norm(last.topic) {
    }
    FindIs(norm, init, names, norm(last.topic));
  }

  lemma {:induction false} FeedIsFixed(norm: string -> string, entries: seq<Observation>)
    requires IsFeed(norm, entries)
    ensures Merge(norm, entries) == entries
  {
    if entries != [] {
      var init, last := entries[..|entries| - 1], Last(entries);
      assert entries == init + [last];
      LastIsNew(norm, init, last);
      FeedIsFixed(norm, init);
      MergeNext(norm, init, last);
    }
  }

  /** Merging again changes nothing. */
  lemma MergeIsIdempotent(norm: string -> string, obs: seq<Observation>)
    ensures Merge(norm, Merge(norm, obs)) == Merge(norm, obs)
  {
    MergeIsFeed(norm, obs);
    FeedIsFixed(norm, Merge(norm, obs));
  }

  /** Merging what was merged before with what is new is merging everything. */
  lemma {:induction false} MergeIsIncremental(norm: string -> string, a: seq<Observation>, b: seq<Observation>)
    ensures Merge(norm, Merge(norm, a) + b) == Merge(norm, a + b)
  {
    if b == [] {
      MergeIsIdempotent(norm, a);
      assert Merge(norm, a) + b == Merge(norm, a) && a + b == a;
    } else {
      var init, o := b[..|b| - 1], Last(b);
      MergeIsIncremental(norm, a, init);
      assert Merge(norm, a) + b == (Merge(norm, a) + init) + [o] && a + b == (a + init) + [o];
      MergeNext(norm, Merge(norm, a) + init, o);
      MergeNext(norm, a + init, o);
    }
  }
}
