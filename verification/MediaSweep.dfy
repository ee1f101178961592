/** The retention sweep over every client, and its closed form: what it does does not depend on the order of clients. */
module MediaSweep {
  import opened Seqs
  import opened StateMachine
  import opened Media
  import opened MediaInvariants

  datatype Totals = Totals(archived: nat, purged: nat, blobsDeleted: nat)

  /**
   * One sweep: `stale` is the retention cutoff, `purge` the purge cutoff when purging is on, `now` the fixed clock;
   * deleting the URLs of `down` throws, and without storage nothing is deleted.
   */
  datatype Sweep = Sweep(stale: int, purge: Option<int>, now: int, down: set<string>, storage: bool)

  predicate Timely(s: Sweep) {
    s.purge.Some? ==> s.purge.value <= s.now
  }

  /** Of the URLs to delete, those whose deletion goes through. */
  function Removed(s: Sweep, urls: set<string>): set<string> {
    if s.storage then urls - s.down else {}
  }

  // ---- the sweep as it runs -------------------------------------------------

  function StaleIds(items: map<Id, Item>, rows: Table, agency: Id, client: Id, before: int): set<Id> {
    set id | id in rows && Of(rows[id], agency, client) && IsStale(items, rows[id], before)
  }

  ghost function SweepClient(lib: Library, agency: Id, client: Id, s: Sweep): Library {
    var t := lib.(rows := ArchiveRows(lib.items, lib.rows, agency, client, s.stale, s.now));
    if s.purge.None? then t else PurgeBefore(t, agency, client, s.purge.value, s.down, s.storage)
  }

  ghost function ClientTotals(lib: Library, agency: Id, client: Id, s: Sweep): Totals {
    var archived := |StaleIds(lib.items, lib.rows, agency, client, s.stale)|;
    var rows := ArchiveRows(lib.items, lib.rows, agency, client, s.stale, s.now);
    if s.purge.None? then Totals(archived, 0, 0)
    else
      var ids := PurgedIds(rows, agency, client, s.purge.value);
      Totals(archived, |ids|, |Removed(s, Collectable(rows, rows - ids, agency, ids))|)
  }

  function Plus(a: Totals, b: Totals): Totals {
    Totals(a.archived + b.archived, a.purged + b.purged, a.blobsDeleted + b.blobsDeleted)
  }

  /** The clients one after another. */
  ghost function SweepAll(lib: Library, targets: seq<Id>, s: Sweep): (Library, Totals)
    requires forall c :: c in targets ==> c in lib.clients
  {
    if targets == [] then (lib, Totals(0, 0, 0))
    else
      var c := Last(targets);
      var (t, sum) := SweepAll(lib, targets[..|targets| - 1], s);
      (SweepClient(t, lib.clients[c], c, s), Plus(sum, ClientTotals(t, lib.clients[c], c, s)))
  }

  // ---- the closed form ------------------------------------------------------

  ghost function StaleIn(lib: Library, clients: set<Id>, before: int): set<Id> {
    set id | id in lib.rows && lib.rows[id].client in clients && IsStale(lib.items, lib.rows[id], before)
  }

  ghost function OldIn(lib: Library, clients: set<Id>, purge: Option<int>): set<Id> {
    set id | id in lib.rows && lib.rows[id].client in clients && purge.Some? && IsPurgeable(lib.rows[id], purge.value)
  }

  ghost function SweptRow(lib: Library, id: Id, clients: set<Id>, s: Sweep): Asset
    requires id in lib.rows
  {
    if id in StaleIn(lib, clients, s.stale) then lib.rows[id].(archivedAt := Some(s.now)) else lib.rows[id]
  }

  ghost function SweptRows(lib: Library, clients: set<Id>, s: Sweep): Table {
    map id | id in lib.rows && id !in OldIn(lib, clients, s.purge) :: SweptRow(lib, id, clients, s)
  }

  /** The URLs, per agency, that lost their last row. */
  ghost function Orphaned(rows: Table, gone: set<Id>): set<(Id, string)> {
    set id | id in gone && id in rows && !Referenced(rows - gone, rows[id].agency, rows[id].url)
      :: (rows[id].agency, rows[id].url)
  }

  ghost function Urls(pairs: set<(Id, string)>): set<string> {
    set p | p in pairs :: p.1
  }

  /** The orphaned URLs whose deletion goes through. */
  ghost function Deleted(lib: Library, gone: set<Id>, s: Sweep): set<(Id, string)> {
    set p | p in Orphaned(lib.rows, gone) && s.storage && p.1 !in s.down
  }

  /** Archive every stale live row of `clients`, drop every row archived long enough ago, delete orphaned URLs. */
  ghost function Swept(lib: Library, clients: set<Id>, s: Sweep): Library {
    lib.(rows := SweptRows(lib, clients, s),
         blobs := BlobsAfter(lib.blobs, Removed(s, Urls(Orphaned(lib.rows, OldIn(lib, clients, s.purge))))))
  }

  ghost function SweptTotals(lib: Library, clients: set<Id>, s: Sweep): Totals {
    var gone := OldIn(lib, clients, s.purge);
    Totals(|StaleIn(lib, clients, s.stale)|, |gone|, |Deleted(lib, gone, s)|)
  }

  // ---- one more client ------------------------------------------------------

  /** The rows that `c`'s purge finds when the clients of `done` were swept before. */
  ghost function RowsThen(lib: Library, done: set<Id>, c: Id, s: Sweep): Table
    requires c in lib.clients
  {
    ArchiveRows(lib.items, SweptRows(lib, done, s), lib.clients[c], c, s.stale, s.now)
  }

  /** The URLs it collects. */
  ghost function CollectedThen(lib: Library, done: set<Id>, c: Id, s: Sweep): set<string>
    requires c in lib.clients
  {
    var rows, ids := RowsThen(lib, done, c, s), OldIn(lib, {c}, s.purge);
    Collectable(rows, rows - ids, lib.clients[c], ids)
  }

  /** The clients before `c` leave its rows alone, so its stale rows are the ones that were stale to begin with. */
  lemma StaleThen(lib: Library, done: set<Id>, c: Id, s: Sweep)
    requires WellFormed(lib) && c in lib.clients && c !in done
    ensures StaleIds(lib.items, SweptRows(lib, done, s), lib.clients[c], c, s.stale) == StaleIn(lib, {c}, s.stale)
  {
    var rows := SweptRows(lib, done, s);
    forall id ensures id in StaleIds(lib.items, rows, lib.clients[c], c, s.stale) <==> id in StaleIn(lib, {c}, s.stale) {
      if id in lib.rows && lib.rows[id].client == c {
        assert id !in OldIn(lib, done, s.purge);
        assert rows[id] == lib.rows[id];
      }
    }
  }

  lemma OneMoreStale(lib: Library, done: set<Id>, c: Id, s: Sweep)
    requires c !in done
    ensures StaleIn(lib, done + {c}, s.stale) == StaleIn(lib, done, s.stale) + StaleIn(lib, {c}, s.stale)
    ensures |StaleIn(lib, done + {c}, s.stale)| == |StaleIn(lib, done, s.stale)| + |StaleIn(lib, {c}, s.stale)|
  {
    assert StaleIn(lib, done, s.stale) !! StaleIn(lib, {c}, s.stale);
  }

  /** After archiving `c`'s stale rows, its purgeable rows are the ones that were purgeable to begin with. */
  lemma OneMoreOld(lib: Library, done: set<Id>, c: Id, s: Sweep)
    requires WellFormed(lib) && c in lib.clients && c !in done && s.purge.Some? && Timely(s)
    ensures var rows := RowsThen(lib, done, c, s);
      PurgedIds(rows, lib.clients[c], c, s.purge.value) == OldIn(lib, {c}, s.purge)
    ensures OldIn(lib, done + {c}, s.purge) == OldIn(lib, done, s.purge) + OldIn(lib, {c}, s.purge)
    ensures |OldIn(lib, done + {c}, s.purge)| == |OldIn(lib, done, s.purge)| + |OldIn(lib, {c}, s.purge)|
  {
    var rows := RowsThen(lib, done, c, s);
    assert OldIn(lib, done, s.purge) !! OldIn(lib, {c}, s.purge);
    forall id ensures id in PurgedIds(rows, lib.clients[c], c, s.purge.value) <==> id in OldIn(lib, {c}, s.purge) {
      if id in lib.rows && lib.rows[id].client == c {
        assert id !in OldIn(lib, done, s.purge);
      }
    }
  }

  lemma OneMoreRow(lib: Library, done: set<Id>, c: Id, s: Sweep, id: Id)
    requires WellFormed(lib) && c in lib.clients && c !in done && Timely(s) && id in lib.rows
    ensures var rows := RowsThen(lib, done, c, s);
      && (id in SweptRows(lib, done + {c}, s) <==> id in rows && id !in OldIn(lib, {c}, s.purge))
      && (id in SweptRows(lib, done + {c}, s) ==> SweptRows(lib, done + {c}, s)[id] == rows[id])
  {
    assert lib.rows[id].client == c ==> id !in OldIn(lib, done, s.purge) && SweptRow(lib, id, done, s) == lib.rows[id];
  }

  lemma OneMoreRows(lib: Library, done: set<Id>, c: Id, s: Sweep)
    requires WellFormed(lib) && c in lib.clients && c !in done && Timely(s)
    ensures SweptRows(lib, done + {c}, s) == RowsThen(lib, done, c, s) - OldIn(lib, {c}, s.purge)
  {
    var t, u := SweptRows(lib, done + {c}, s), RowsThen(lib, done, c, s) - OldIn(lib, {c}, s.purge);
    forall id ensures (id in t <==> id in u) && (id in t ==> t[id] == u[id]) {
      if id in lib.rows { OneMoreRow(lib, done, c, s, id); }
    }
  }

  /** The rows left after `gone` is dropped reference what the swept rows reference. */
  lemma SweepKeepsReferences(lib: Library, done: set<Id>, s: Sweep, agency: Id, url: string)
    ensures Referenced(SweptRows(lib, done, s), agency, url) <==> Referenced(lib.rows - OldIn(lib, done, s.purge), agency, url)
  {
    var swept, left := SweptRows(lib, done, s), lib.rows - OldIn(lib, done, s.purge);
    assert forall id :: id in swept <==> id in left;
    assert forall id :: id in left ==> left[id].agency == swept[id].agency && left[id].url == swept[id].url;
  }

  ghost function Tagged(agency: Id, urls: set<string>): set<(Id, string)> {
    set u | u in urls :: (agency, u)
  }

  lemma {:induction false} TaggedSize(agency: Id, urls: set<string>)
    ensures |Tagged(agency, urls)| == |urls|
  {
    if urls != {} {
      var u :| u in urls;
      TaggedSize(agency, urls - {u});
      assert Tagged(agency, urls) == Tagged(agency, urls - {u}) + {(agency, u)};
    }
  }

  /** What `c`'s purge collects is what its rows orphan on top of what was orphaned already. */
  lemma OneMoreOrphaned(lib: Library, done: set<Id>, c: Id, s: Sweep)
    requires WellFormed(lib) && c in lib.clients && c !in done && s.purge.Some? && Timely(s)
    ensures var added := Tagged(lib.clients[c], CollectedThen(lib, done, c, s));
      var before := Orphaned(lib.rows, OldIn(lib, done, s.purge));
      Orphaned(lib.rows, OldIn(lib, done + {c}, s.purge)) == before + added && before !! added
  {
    var gone, all := OldIn(lib, done, s.purge), OldIn(lib, done + {c}, s.purge);
    var added := Tagged(lib.clients[c], CollectedThen(lib, done, c, s));
    forall p ensures p in Orphaned(lib.rows, all) <==> p in Orphaned(lib.rows, gone) || p in added
    {
      OrphanedBoth(lib, done, c, s, p);
    }
    forall p ensures !(p in Orphaned(lib.rows, gone) && p in added) {
      OrphanedOnce(lib, done, c, s, p);
    }
  }

  lemma FreshMeans(lib: Library, done: set<Id>, c: Id, s: Sweep, p: (Id, string))
    requires WellFormed(lib) && c in lib.clients && c !in done && s.purge.Some? && Timely(s)
    ensures p in Tagged(lib.clients[c], CollectedThen(lib, done, c, s))
      <==> p.0 == lib.clients[c] && HasOld(lib, OldIn(lib, {c}, s.purge), p)
           && !Referenced(lib.rows - OldIn(lib, done + {c}, s.purge), p.0, p.1)
  {
    var agency := lib.clients[c];
    var rows := RowsThen(lib, done, c, s);
    var ids := OldIn(lib, {c}, s.purge);
    OneMoreRows(lib, done, c, s);
    SweepKeepsReferences(lib, done + {c}, s, agency, p.1);
    assert forall id :: id in ids ==> id in rows && rows[id].url == lib.rows[id].url;
    assert p.1 in UrlsOf(rows, ids) <==> exists id :: id in ids && lib.rows[id].url == p.1;
  }

  ghost predicate HasOld(lib: Library, ids: set<Id>, p: (Id, string)) {
    exists id :: id in ids && id in lib.rows && lib.rows[id].agency == p.0 && lib.rows[id].url == p.1
  }

  lemma OrphanedMeans(lib: Library, gone: set<Id>, p: (Id, string))
    ensures p in Orphaned(lib.rows, gone) <==> HasOld(lib, gone, p) && !Referenced(lib.rows - gone, p.0, p.1)
  {
  }

  lemma OrphanedBoth(lib: Library, done: set<Id>, c: Id, s: Sweep, p: (Id, string))
    requires WellFormed(lib) && c in lib.clients && c !in done && s.purge.Some? && Timely(s)
    ensures p in Orphaned(lib.rows, OldIn(lib, done + {c}, s.purge))
      <==> p in Orphaned(lib.rows, OldIn(lib, done, s.purge)) || p in Tagged(lib.clients[c], CollectedThen(lib, done, c, s))
  {
    FreshMeans(lib, done, c, s, p);
    OrphanedMeans(lib, OldIn(lib, done, s.purge), p);
    OrphanedMeans(lib, OldIn(lib, done + {c}, s.purge), p);
    OneMoreOld(lib, done, c, s);
    StillReferenced(lib, OldIn(lib, done, s.purge), OldIn(lib, {c}, s.purge), p);
  }

  /** Dropping `ids` on top of `gone` ends the references to `p` exactly if none is left or the last ones are in `ids`. */
  lemma StillReferenced(lib: Library, gone: set<Id>, ids: set<Id>, p: (Id, string))
    ensures !Referenced(lib.rows - gone, p.0, p.1) ==> !Referenced(lib.rows - (gone + ids), p.0, p.1)
    ensures Referenced(lib.rows - gone, p.0, p.1) && !Referenced(lib.rows - (gone + ids), p.0, p.1) ==> HasOld(lib, ids, p)
    ensures HasOld(lib, gone + ids, p) <==> HasOld(lib, gone, p) || HasOld(lib, ids, p)
  {
    if Referenced(lib.rows - gone, p.0, p.1) {
      var id :| id in lib.rows - gone && lib.rows[id].agency == p.0 && lib.rows[id].url == p.1;
      if id !in ids {
        assert (lib.rows - (gone + ids))[id] == lib.rows[id];
      }
    }
    if Referenced(lib.rows - (gone + ids), p.0, p.1) {
      var id :| id in lib.rows - (gone + ids) && lib.rows[id].agency == p.0 && lib.rows[id].url == p.1;
      assert (lib.rows - gone)[id] == lib.rows[id];
    }
  }

  lemma OrphanedOnce(lib: Library, done: set<Id>, c: Id, s: Sweep, p: (Id, string))
    requires WellFormed(lib) && c in lib.clients && c !in done && s.purge.Some? && Timely(s)
    ensures !(p in Orphaned(lib.rows, OldIn(lib, done, s.purge)) && p in Tagged(lib.clients[c], CollectedThen(lib, done, c, s)))
  {
    FreshMeans(lib, done, c, s, p);
    OrphanedMeans(lib, OldIn(lib, done, s.purge), p);
    var ids := OldIn(lib, {c}, s.purge);
    if HasOld(lib, ids, p) {
      var id :| id in ids && id in lib.rows && lib.rows[id].agency == p.0 && lib.rows[id].url == p.1;
      assert id !in OldIn(lib, done, s.purge);
      assert (lib.rows - OldIn(lib, done, s.purge))[id] == lib.rows[id];
    }
  }

  lemma OneMoreBlobs(lib: Library, done: set<Id>, c: Id, s: Sweep)
    requires WellFormed(lib) && c in lib.clients && c !in done && s.purge.Some? && Timely(s)
    ensures (if s.storage then BlobsAfter(Swept(lib, done, s).blobs, CollectedThen(lib, done, c, s) - s.down)
             else Swept(lib, done, s).blobs)
            == Swept(lib, done + {c}, s).blobs
  {
    var collected, before := CollectedThen(lib, done, c, s), Urls(Orphaned(lib.rows, OldIn(lib, done, s.purge)));
    OneMoreOrphaned(lib, done, c, s);
    UrlsOfUnion(Orphaned(lib.rows, OldIn(lib, done, s.purge)), lib.clients[c], collected);
    BlobsTwice(lib.blobs, before - s.down, collected - s.down);
    assert (before + collected) - s.down == (before - s.down) + (collected - s.down);
  }

  lemma OneMoreClient(lib: Library, done: set<Id>, c: Id, s: Sweep)
    requires WellFormed(lib) && c in lib.clients && c !in done && Timely(s)
    ensures SweepClient(Swept(lib, done, s), lib.clients[c], c, s) == Swept(lib, done + {c}, s)
  {
    OneMoreRows(lib, done, c, s);
    if s.purge.Some? {
      OneMoreOld(lib, done, c, s);
      OneMoreBlobs(lib, done, c, s);
    } else {
      assert OldIn(lib, done + {c}, s.purge) == {} && OldIn(lib, done, s.purge) == {} && OldIn(lib, {c}, s.purge) == {};
      assert RowsThen(lib, done, c, s) - {} == RowsThen(lib, done, c, s);
    }
  }

  lemma UrlsOfUnion(pairs: set<(Id, string)>, agency: Id, urls: set<string>)
    ensures Urls(pairs + Tagged(agency, urls)) == Urls(pairs) + urls
  {
    forall u | u in urls ensures u in Urls(pairs + Tagged(agency, urls)) {
      assert (agency, u) in Tagged(agency, urls);
    }
    forall u | u in Urls(pairs) ensures u in Urls(pairs + Tagged(agency, urls)) {
      var p :| p in pairs && p.1 == u;
      assert p in pairs + Tagged(agency, urls);
    }
  }

  lemma BlobsTwice(blobs: map<string, Bytes>, a: set<string>, b: set<string>)
    ensures BlobsAfter(BlobsAfter(blobs, a), b) == BlobsAfter(blobs, a + b)
  {
  }

  lemma OneMoreCollected(lib: Library, done: set<Id>, c: Id, s: Sweep)
    requires WellFormed(lib) && c in lib.clients && c !in done && s.purge.Some? && Timely(s)
    ensures |Deleted(lib, OldIn(lib, done + {c}, s.purge), s)|
            == |Deleted(lib, OldIn(lib, done, s.purge), s)| + |Removed(s, CollectedThen(lib, done, c, s))|
  {
    var collected := CollectedThen(lib, done, c, s);
    var before, added := Deleted(lib, OldIn(lib, done, s.purge), s), Tagged(lib.clients[c], Removed(s, collected));
    OneMoreOrphaned(lib, done, c, s);
    TaggedSize(lib.clients[c], Removed(s, collected));
    DeletedSplit(lib, OldIn(lib, done, s.purge), OldIn(lib, done + {c}, s.purge), lib.clients[c], collected, s);
    assert before !! added && Deleted(lib, OldIn(lib, done + {c}, s.purge), s) == before + added;
  }

  lemma DeletedSplit(lib: Library, gone: set<Id>, all: set<Id>, agency: Id, urls: set<string>, s: Sweep)
    requires Orphaned(lib.rows, all) == Orphaned(lib.rows, gone) + Tagged(agency, urls)
    requires Orphaned(lib.rows, gone) !! Tagged(agency, urls)
    ensures Deleted(lib, all, s) == Deleted(lib, gone, s) + Tagged(agency, Removed(s, urls))
    ensures Deleted(lib, gone, s) !! Tagged(agency, Removed(s, urls))
  {
    forall p ensures p in Tagged(agency, Removed(s, urls)) <==> p in Tagged(agency, urls) && s.storage && p.1 !in s.down {
    }
  }

  lemma ClientTotalsThen(lib: Library, done: set<Id>, c: Id, s: Sweep)
    requires WellFormed(lib) && c in lib.clients && c !in done && s.purge.Some? && Timely(s)
    ensures ClientTotals(Swept(lib, done, s), lib.clients[c], c, s)
            == Totals(|StaleIn(lib, {c}, s.stale)|, |OldIn(lib, {c}, s.purge)|,
                      |Removed(s, CollectedThen(lib, done, c, s))|)
  {
    StaleThen(lib, done, c, s);
    OneMoreOld(lib, done, c, s);
  }

  lemma OneMoreTotals(lib: Library, done: set<Id>, c: Id, s: Sweep)
    requires WellFormed(lib) && c in lib.clients && c !in done && Timely(s)
    ensures Plus(SweptTotals(lib, done, s), ClientTotals(Swept(lib, done, s), lib.clients[c], c, s))
            == SweptTotals(lib, done + {c}, s)
  {
    if s.purge.Some? {
      ClientTotalsThen(lib, done, c, s);
      AddTotals(lib, done, c, s);
    } else {
      StaleThen(lib, done, c, s);
      OneMoreStale(lib, done, c, s);
      NothingOld(lib, done, s);
      NothingOld(lib, done + {c}, s);
    }
  }

  lemma AddTotals(lib: Library, done: set<Id>, c: Id, s: Sweep)
    requires WellFormed(lib) && c in lib.clients && c !in done && s.purge.Some? && Timely(s)
    ensures SweptTotals(lib, done + {c}, s)
            == Plus(SweptTotals(lib, done, s),
                    Totals(|StaleIn(lib, {c}, s.stale)|, |OldIn(lib, {c}, s.purge)|,
                      |Removed(s, CollectedThen(lib, done, c, s))|))
  {
    OneMoreStale(lib, done, c, s);
    OneMoreOld(lib, done, c, s);
    OneMoreCollected(lib, done, c, s);
  }

  lemma NothingOld(lib: Library, clients: set<Id>, s: Sweep)
    requires s.purge.None?
    ensures SweptTotals(lib, clients, s).purged == 0 && SweptTotals(lib, clients, s).blobsDeleted == 0
  {
    assert OldIn(lib, clients, s.purge) == {};
    assert Orphaned(lib.rows, {}) == {} && Deleted(lib, {}, s) == {};
  }

  lemma NothingToSweep(lib: Library, clients: set<Id>, s: Sweep)
    requires StaleIn(lib, clients, s.stale) == {} && OldIn(lib, clients, s.purge) == {}
    ensures Swept(lib, clients, s) == lib && SweptTotals(lib, clients, s) == Totals(0, 0, 0)
  {
    assert Orphaned(lib.rows, {}) == {} && Deleted(lib, {}, s) == {} && Removed(s, Urls({})) == {};
    assert SweptRows(lib, clients, s) == lib.rows;
    assert BlobsAfter(lib.blobs, {}) == lib.blobs;
  }

  lemma SweptNobody(lib: Library, s: Sweep)
    ensures Swept(lib, {}, s) == lib && SweptTotals(lib, {}, s) == Totals(0, 0, 0)
  {
    NothingToSweep(lib, {}, s);
  }

  // ---- main results ---------------------------------------------------------

  /** Sweeping client after client is the closed form over the set of clients: their order plays no role. */
  lemma {:induction false} SweepHasClosedForm(lib: Library, targets: seq<Id>, s: Sweep)
    requires WellFormed(lib) && Timely(s) && NoDup(targets) && forall c :: c in targets ==> c in lib.clients
    ensures SweepAll(lib, targets, s) == (Swept(lib, Elements(targets), s), SweptTotals(lib, Elements(targets), s))
  {
    if targets == [] {
      SweptNobody(lib, s);
      assert Elements(targets) == {};
    } else {
      var c, init := Last(targets), targets[..|targets| - 1];
      SweepHasClosedForm(lib, init, s);
      assert Elements(targets) == Elements(init) + {c};
      OneMoreClient(lib, Elements(init), c, s);
      OneMoreTotals(lib, Elements(init), c, s);
    }
  }

  /** Two sweeps over the same clients in different orders end in the same rows and blobs with the same totals. */
  lemma SweepOrderIsIrrelevant(lib: Library, a: seq<Id>, b: seq<Id>, s: Sweep)
    requires WellFormed(lib) && Timely(s) && NoDup(a) && NoDup(b) && forall c :: c in a <==> c in b
    requires forall c :: c in a ==> c in lib.clients
    ensures SweepAll(lib, a, s) == SweepAll(lib, b, s)
  {
    SweepHasClosedForm(lib, a, s);
    SweepHasClosedForm(lib, b, s);
    assert Elements(a) == Elements(b);
  }

  /** No row the sweep archives is purged by the same sweep. */
  lemma ArchivedSurvives(lib: Library, clients: set<Id>, s: Sweep, id: Id)
    requires Timely(s) && id in StaleIn(lib, clients, s.stale)
    ensures var rows := Swept(lib, clients, s).rows; id in rows && rows[id] == lib.rows[id].(archivedAt := Some(s.now))
  {
  }

  lemma {:induction false} OrphansAtMostRows(rows: Table, all: set<Id>, gone: set<Id>)
    requires gone <= all
    ensures var pairs := set id | id in gone && id in rows && !Referenced(rows - all, rows[id].agency, rows[id].url)
                           :: (rows[id].agency, rows[id].url);
      |pairs| <= |gone|
  {
    var pairs := set id | id in gone && id in rows && !Referenced(rows - all, rows[id].agency, rows[id].url)
                   :: (rows[id].agency, rows[id].url);
    if gone != {} {
      var x :| x in gone;
      var fewer := set id | id in gone - {x} && id in rows && !Referenced(rows - all, rows[id].agency, rows[id].url)
                     :: (rows[id].agency, rows[id].url);
      OrphansAtMostRows(rows, all, gone - {x});
      assert x in rows ==> pairs <= fewer + {(rows[x].agency, rows[x].url)};
      assert x !in rows ==> pairs <= fewer;
      AtMostOneMore(pairs, fewer, if x in rows then (rows[x].agency, rows[x].url) else (0, ""));
    }
  }

  lemma AtMostOneMore<T>(a: set<T>, b: set<T>, x: T)
    requires a <= b + {x}
    ensures |a| <= |b| + 1
  {
    SubsetSize(a, b + {x});
  }

  lemma {:induction false} SubsetSize<T>(a: set<T>, b: set<T>)
    requires a <= b
    ensures |a| <= |b|
  {
    if a != {} {
      var x :| x in a;
      SubsetSize(a - {x}, b - {x});
    }
  }

  /** Sharing: never more blobs deleted than rows purged. */
  lemma BlobsAtMostRows(lib: Library, clients: set<Id>, s: Sweep)
    ensures SweptTotals(lib, clients, s).blobsDeleted <= SweptTotals(lib, clients, s).purged
  {
    var gone := OldIn(lib, clients, s.purge);
    OrphansAtMostRows(lib.rows, gone, gone);
    SubsetSize(Deleted(lib, gone, s), Orphaned(lib.rows, gone));
  }

  lemma NothingIsLeft(lib: Library, s: Sweep)
    requires WellFormed(lib) && Timely(s)
    ensures var t := Swept(lib, lib.clients.Keys, s);
      StaleIn(t, t.clients.Keys, s.stale) == {} && OldIn(t, t.clients.Keys, s.purge) == {}
  {
    var t := Swept(lib, lib.clients.Keys, s);
    forall id | id in t.rows ensures !IsStale(t.items, t.rows[id], s.stale) {
      assert id in lib.rows;
    }
  }

  /** Sweeping every client again at the same time changes nothing and counts nothing. */
  lemma SecondSweepIsIdle(lib: Library, s: Sweep)
    requires WellFormed(lib) && Timely(s)
    ensures var t := Swept(lib, lib.clients.Keys, s);
      Swept(t, t.clients.Keys, s) == t && SweptTotals(t, t.clients.Keys, s) == Totals(0, 0, 0)
  {
    NothingIsLeft(lib, s);
    NothingToSweep(Swept(lib, lib.clients.Keys, s), lib.clients.Keys, s);
  }
}
