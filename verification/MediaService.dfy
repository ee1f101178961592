/**
 * The media library as the program runs it: the stores are fields that each method updates in place, and every
 * contract ties the new state to the model's call on the old one.
 */
module MediaService {
  import opened Errors
  import opened Seqs
  import opened Media
  import opened MediaInvariants
  import opened MediaSweep

  datatype PurgeResult = PurgeResult(purged: nat, blobsDeleted: nat)
  datatype SweepResult = SweepResult(clients: nat, totals: Totals)

  /** What storage does while a sweep runs: deleting the URLs of `down` throws; it may be absent altogether. */
  datatype Storage = Storage(present: bool, down: set<string>)

  function SweepAt(retentionDays: int, purgeDays: Option<int>, now: int, storage: Storage): Sweep {
    Sweep(Cutoff(now, retentionDays), if purgeDays.Some? then Some(Cutoff(now, purgeDays.value)) else None, now,
          storage.down, storage.present)
  }

  predicate SweepDaysOk(retentionDays: int, purgeDays: Option<int>) {
    RetentionDaysOk(retentionDays) && (purgeDays.Some? ==> PurgeDaysOk(purgeDays.value))
  }

  /** One client's turn, as the two calls the sweep makes. */
  ghost function SweepTurn(lib: Library, c: Id, retentionDays: int, purgeDays: Option<int>, now: int, storage: Storage): Library
    requires WellFormed(lib) && c in lib.clients
  {
    var t := Do(lib, Call.Retain(lib.clients[c], c, retentionDays, now));
    RetainIsWellFormed(lib, c, retentionDays, now);
    if purgeDays.Some? then Do(t, Call.Purge(lib.clients[c], c, purgeDays.value, now, storage.down, storage.present)) else t
  }

  lemma RetainIsWellFormed(lib: Library, c: Id, days: int, now: int)
    requires WellFormed(lib) && c in lib.clients
    ensures WellFormed(Do(lib, Call.Retain(lib.clients[c], c, days, now)))
  {
    ShrunkIsWellFormed(lib, Do(lib, Call.Retain(lib.clients[c], c, days, now)).rows);
  }

  /** So the sweep over all clients is a run of ordinary calls. */
  lemma SweepTurnIsSweepClient(lib: Library, c: Id, retentionDays: int, purgeDays: Option<int>, now: int, storage: Storage)
    requires WellFormed(lib) && c in lib.clients && SweepDaysOk(retentionDays, purgeDays)
    ensures SweepTurn(lib, c, retentionDays, purgeDays, now, storage)
            == SweepClient(lib, lib.clients[c], c, SweepAt(retentionDays, purgeDays, now, storage))
  {
  }

  /** What the two calls of a turn count. */
  lemma TurnTotals(lib: Library, c: Id, retentionDays: int, purgeDays: Option<int>, now: int, storage: Storage)
    requires WellFormed(lib) && c in lib.clients && SweepDaysOk(retentionDays, purgeDays)
    ensures var agency, s := lib.clients[c], SweepAt(retentionDays, purgeDays, now, storage);
      var stale := |StaleIds(lib.items, lib.rows, agency, c, s.stale)|;
      var kept := Do(lib, Call.Retain(agency, c, retentionDays, now)).rows;
      ClientTotals(lib, agency, c, s)
      == if purgeDays.None? then Totals(stale, 0, 0)
         else var ids := PurgedIds(kept, agency, c, Cutoff(now, purgeDays.value));
              Totals(stale, |ids|, if storage.present then |Collectable(kept, kept - ids, agency, ids) - storage.down| else 0)
  {
  }

  lemma SweptIsWellFormed(lib: Library, clients: set<Id>, s: Sweep)
    requires WellFormed(lib)
    ensures WellFormed(Swept(lib, clients, s))
  {
    ShrunkIsWellFormed(lib, SweptRows(lib, clients, s));
  }

  lemma SweepAllNext(lib: Library, targets: seq<Id>, i: nat, s: Sweep)
    requires i < |targets| && forall c :: c in targets ==> c in lib.clients
    ensures var (t, sum) := SweepAll(lib, targets[..i], s);
      var c := targets[i];
      SweepAll(lib, targets[..i + 1], s)
      == (SweepClient(t, lib.clients[c], c, s), Plus(sum, ClientTotals(t, lib.clients[c], c, s)))
  {
    assert targets[..i + 1][..i] == targets[..i];
  }

  /** With bad days the sweep throws at its first client: before its archiving, or after it when only the purge days are bad. */
  ghost predicate OnlyArchivedOne(lib: Library, t: Library, days: int, now: int)
    requires WellFormed(lib)
  {
    exists c :: c in lib.clients && t == Do(lib, Call.Retain(lib.clients[c], c, days, now))
  }

  predicate CanGenerate(lib: Library, agency: Id, item: Id) {
    item in lib.items && AgencyOf(lib, item) == agency
  }

  /** How reattach answers; the checks come in this order. */
  function ReattachAnswer(lib: Library, agency: Id, source: Id, target: Id): Result<()> {
    if !OfAgency(lib.rows, agency, source) then Err(NotFound)
    else if !(target in lib.items && AgencyOf(lib, target) == agency) then Err(NotFound)
    else if ClientOf(lib, target) != lib.rows[source].client then Err(Validation)
    else Ok(())
  }

  lemma NothingToPurge(lib: Library, agency: Id, client: Id, before: int, down: set<string>, storage: bool)
    requires PurgedIds(lib.rows, agency, client, before) == {}
    ensures PurgeBefore(lib, agency, client, before, down, storage) == lib
  {
    assert lib.rows - {} == lib.rows;
    assert Collectable(lib.rows, lib.rows, agency, {}) == {};
    assert BlobsAfter(lib.blobs, {} - down) == lib.blobs;
  }

  /** The rows of `ids` archived at `at`. */
  ghost function Stamped(rows: Table, ids: set<Id>, at: int): Table {
    map id | id in rows :: if id in ids then rows[id].(archivedAt := Some(at)) else rows[id]
  }

  lemma StampOne(rows: Table, ids: set<Id>, todo: set<Id>, id: Id, at: int)
    requires id in rows && id in todo
    ensures Stamped(rows, ids - (todo - {id}), at)
            == if id in ids then Stamped(rows, ids - todo, at)[id := rows[id].(archivedAt := Some(at))]
               else Stamped(rows, ids - todo, at)
    ensures |ids - (todo - {id})| == |ids - todo| + if id in ids then 1 else 0
  {
    assert ids - (todo - {id}) == if id in ids then (ids - todo) + {id} else ids - todo;
  }

  lemma StampedIsArchived(items: map<Id, Item>, rows: Table, agency: Id, client: Id, before: int, at: int)
    ensures Stamped(rows, StaleIds(items, rows, agency, client, before), at)
            == ArchiveRows(items, rows, agency, client, before, at)
  {
  }

  /** Anchoring the source changes no version of its group, so the next version is one above the highest there was. */
  lemma NextVersionIs(rows: Table, anchored: Table, agency: Id, source: Id, g: Id, version: nat)
    requires source in rows && rows[source].agency == agency && g == GroupOf(rows, source)
    requires anchored == rows[source := rows[source].(group := Some(g))] && version == NextVersion(anchored, agency, g)
    ensures forall r :: r in rows && rows[r].agency == agency && (r == g || rows[r].group == Some(g)) ==>
      rows[r].version < version
    ensures exists r :: r in rows && rows[r].agency == agency && (r == g || rows[r].group == Some(g))
                        && rows[r].version + 1 == version
  {
    var vs := VersionsIn(anchored, agency, g);
    forall r | r in rows && rows[r].agency == agency && (r == g || rows[r].group == Some(g)) ensures rows[r].version in vs {
      assert IsMember(anchored, agency, g, r) && anchored[r].version == rows[r].version;
    }
    assert IsMember(anchored, agency, g, source) && rows[source].version in vs;
    var r :| r in anchored && IsMember(anchored, agency, g, r) && anchored[r].version == Max(vs);
    assert rows[r].version + 1 == version;
  }

  // ---- what the calls do, row by row and blob by blob -----------------------

  /** The rows that are in both tables and differ. */
  ghost function Changed(before: Table, after: Table): set<Id> {
    set id | id in before && id in after && before[id] != after[id]
  }

  /** A row with that URL is gone, and its agency has no other left. */
  ghost predicate LostLastRow(before: Table, after: Table, url: string) {
    exists id :: id in before && id !in after && before[id].url == url && NoneLeft(after, before[id].agency, url)
  }

  ghost predicate NoneLeft(rows: Table, agency: Id, url: string) {
    forall r :: r in rows && rows[r].agency == agency ==> rows[r].url != url
  }

  /** Retention archives the client's live generated or reused rows that are too old and whose item is not in use. */
  lemma RetainInFields(lib: Library, agency: Id, client: Id, days: int, now: int)
    requires WellFormed(lib)
    ensures var t := Do(lib, Call.Retain(agency, client, days, now));
      && t == lib.(rows := t.rows) && t.rows.Keys == lib.rows.Keys
      && (forall id :: id in lib.rows ==>
            var r := lib.rows[id];
            t.rows[id] == if 1 <= days <= 3650 && r.agency == agency && r.client == client && r.archivedAt.None?
                             && (r.source.Generated? || r.source.Reused?) && r.createdAt < now - days * 24 * 60 * 60 * 1000
                             && !(lib.items[r.item].status.Approved? || lib.items[r.item].status.Scheduled?
                                  || lib.items[r.item].status.Published?)
                          then r.(archivedAt := Some(now)) else r)
      && (RetentionDaysOk(days) ==>
            |StaleIds(lib.items, lib.rows, agency, client, Cutoff(now, days))| == |Changed(lib.rows, t.rows)|)
  {
    var t := Do(lib, Call.Retain(agency, client, days, now));
    if RetentionDaysOk(days) {
      assert Changed(lib.rows, t.rows) == StaleIds(lib.items, lib.rows, agency, client, Cutoff(now, days));
    }
  }

  /** A purge drops the client's rows archived too long ago, and then the blobs whose last row in the agency that was. */
  lemma PurgeInFields(lib: Library, agency: Id, client: Id, days: int, now: int, down: set<string>, storage: bool)
    requires WellFormed(lib)
    ensures var t := Do(lib, Call.Purge(agency, client, days, now, down, storage));
      && t == lib.(rows := t.rows, blobs := t.blobs) && t.rows.Keys <= lib.rows.Keys && t.blobs.Keys <= lib.blobs.Keys
      && (forall id :: id in lib.rows ==>
            var r := lib.rows[id];
            && (id in t.rows <==> !(0 <= days <= 3650 && r.agency == agency && r.client == client
                                    && r.archivedAt.Some? && r.archivedAt.value < now - days * 24 * 60 * 60 * 1000))
            && (id in t.rows ==> t.rows[id] == r))
      && (forall k :: k in lib.blobs ==>
            && (k in t.blobs <==> !(storage && "/api/assets/" + k !in down && LostLastRow(lib.rows, t.rows, "/api/assets/" + k)))
            && (k in t.blobs ==> t.blobs[k] == lib.blobs[k]))
      && (PurgeDaysOk(days) ==>
            |PurgedIds(lib.rows, agency, client, Cutoff(now, days))| == |lib.rows.Keys - t.rows.Keys|)
  {
    var t := Do(lib, Call.Purge(agency, client, days, now, down, storage));
    var ids := PurgedIds(lib.rows, agency, client, Cutoff(now, days));
    if PurgeDaysOk(days) {
      assert lib.rows.Keys - t.rows.Keys == ids;
      forall url ensures url in Collectable(lib.rows, t.rows, agency, ids) <==> LostLastRow(lib.rows, t.rows, url) {
        CollectedIsLost(lib.rows, t.rows, agency, ids, url);
      }
    }
  }

  lemma CollectedIsLost(rows: Table, survivors: Table, agency: Id, ids: set<Id>, url: string)
    requires survivors == rows - ids && forall id :: id in ids ==> id in rows && rows[id].agency == agency
    ensures url in Collectable(rows, survivors, agency, ids) <==> LostLastRow(rows, survivors, url)
  {
    assert Referenced(survivors, agency, url) <==> !NoneLeft(survivors, agency, url);
    if url in UrlsOf(rows, ids) {
      var id :| id in ids && id in rows && rows[id].url == url;
      assert id !in survivors;
    }
  }

  /**
   * A sweep of every client: rows archived too long ago are dropped, and the live generated or reused rows that are too
   * old and whose item is not in use are archived.
   */
  ghost predicate SweepsRows(lib: Library, after: Table, retentionDays: int, purgeDays: Option<int>, now: int)
    requires WellFormed(lib)
  {
    && after.Keys <= lib.rows.Keys
    && (forall id :: id in lib.rows ==>
          (id in after <==> !(purgeDays.Some? && lib.rows[id].archivedAt.Some?
                              && lib.rows[id].archivedAt.value < now - purgeDays.value * 24 * 60 * 60 * 1000)))
    && (forall id :: id in after ==>
          var r := lib.rows[id];
          after[id] == if r.archivedAt.None? && (r.source.Generated? || r.source.Reused?)
                          && r.createdAt < now - retentionDays * 24 * 60 * 60 * 1000
                          && !(lib.items[r.item].status.Approved? || lib.items[r.item].status.Scheduled?
                               || lib.items[r.item].status.Published?)
                       then r.(archivedAt := Some(now)) else r)
  }

  /** Blobs go exactly if a row over them went, its agency has no other left, and storage lets them be deleted. */
  ghost predicate SweepsBlobs(lib: Library, after: Table, blobs: map<string, Bytes>, storage: Storage) {
    && blobs.Keys <= lib.blobs.Keys
    && forall k :: k in lib.blobs ==>
         && (k in blobs <==> !(storage.present && "/api/assets/" + k !in storage.down
                               && LostLastRow(lib.rows, after, "/api/assets/" + k)))
         && (k in blobs ==> blobs[k] == lib.blobs[k])
  }

  /** The URLs that lost their last row, with the agencies that lost it. */
  ghost function Lost(before: Table, after: Table): set<(Id, string)> {
    set id | id in before && id !in after && NoneLeft(after, before[id].agency, before[id].url)
      :: (before[id].agency, before[id].url)
  }

  /** The totals are the archived rows, the dropped rows, and the URLs that went and could be deleted. */
  ghost predicate CountsSweep(before: Table, after: Table, storage: Storage, totals: Totals) {
    && totals.archived == |Changed(before, after)| && totals.purged == |before.Keys - after.Keys|
    && totals.blobsDeleted == |set p | p in Lost(before, after) && storage.present && p.1 !in storage.down|
  }

  lemma SweptRowsInFields(lib: Library, retentionDays: int, purgeDays: Option<int>, now: int, storage: Storage)
    requires WellFormed(lib) && SweepDaysOk(retentionDays, purgeDays)
    ensures var s := SweepAt(retentionDays, purgeDays, now, storage);
      SweepsRows(lib, Swept(lib, lib.clients.Keys, s).rows, retentionDays, purgeDays, now)
  {
  }

  lemma SweptBlobsInFields(lib: Library, s: Sweep, storage: Storage)
    requires WellFormed(lib) && s.storage == storage.present && s.down == storage.down
    ensures var t := Swept(lib, lib.clients.Keys, s); SweepsBlobs(lib, t.rows, t.blobs, storage)
  {
    var t, gone := Swept(lib, lib.clients.Keys, s), OldIn(lib, lib.clients.Keys, s.purge);
    forall url ensures url in Urls(Orphaned(lib.rows, gone)) <==> LostLastRow(lib.rows, t.rows, url) {
      OrphanedIsLost(lib, s, url);
    }
  }

  lemma SweptCountsInFields(lib: Library, s: Sweep, storage: Storage)
    requires WellFormed(lib) && s.storage == storage.present && s.down == storage.down
    ensures CountsSweep(lib.rows, Swept(lib, lib.clients.Keys, s).rows, storage, SweptTotals(lib, lib.clients.Keys, s))
  {
    var rows, gone := Swept(lib, lib.clients.Keys, s).rows, OldIn(lib, lib.clients.Keys, s.purge);
    assert Changed(lib.rows, rows) == StaleIn(lib, lib.clients.Keys, s.stale);
    assert lib.rows.Keys - rows.Keys == gone;
    LostIsOrphaned(lib, s);
    assert (set p | p in Lost(lib.rows, rows) && storage.present && p.1 !in storage.down) == Deleted(lib, gone, s);
  }

  lemma LostIsOrphaned(lib: Library, s: Sweep)
    requires WellFormed(lib)
    ensures Lost(lib.rows, SweptRows(lib, lib.clients.Keys, s)) == Orphaned(lib.rows, OldIn(lib, lib.clients.Keys, s.purge))
  {
    var gone, rows := OldIn(lib, lib.clients.Keys, s.purge), SweptRows(lib, lib.clients.Keys, s);
    forall id | id in lib.rows
      ensures Referenced(lib.rows - gone, lib.rows[id].agency, lib.rows[id].url)
              <==> !NoneLeft(rows, lib.rows[id].agency, lib.rows[id].url)
    {
      SweepKeepsReferences(lib, lib.clients.Keys, s, lib.rows[id].agency, lib.rows[id].url);
    }
  }

  lemma OrphanedIsLost(lib: Library, s: Sweep, url: string)
    requires WellFormed(lib)
    ensures var gone := OldIn(lib, lib.clients.Keys, s.purge);
      url in Urls(Orphaned(lib.rows, gone)) <==> LostLastRow(lib.rows, SweptRows(lib, lib.clients.Keys, s), url)
  {
    var gone, rows := OldIn(lib, lib.clients.Keys, s.purge), SweptRows(lib, lib.clients.Keys, s);
    forall agency ensures Referenced(lib.rows - gone, agency, url) <==> !NoneLeft(rows, agency, url) {
      SweepKeepsReferences(lib, lib.clients.Keys, s, agency, url);
    }
    if url in Urls(Orphaned(lib.rows, gone)) {
      var p :| p in Orphaned(lib.rows, gone) && p.1 == url;
      var id :| id in gone && id in lib.rows && p == (lib.rows[id].agency, lib.rows[id].url)
                && !Referenced(lib.rows - gone, p.0, url);
      assert id !in rows;
    }
    if LostLastRow(lib.rows, rows, url) {
      var id :| id in lib.rows && id !in rows && lib.rows[id].url == url && NoneLeft(rows, lib.rows[id].agency, url);
      assert (lib.rows[id].agency, url) in Orphaned(lib.rows, gone);
    }
  }

  lemma MaxIs(vs: set<nat>, m: nat)
    requires (m == 0 || m in vs) && forall v :: v in vs ==> v <= m
    ensures Max(vs) == m
  {
  }

  class MediaLibrary {
    var clients: map<Id, Id>
    var items: map<Id, Item>
    var rows: Table
    var blobs: map<string, Bytes>

    ghost function Lib(): Library
      reads this
    {
      Library(clients, items, rows, blobs)
    }

    constructor ()
      ensures Lib() == Empty()
    {
      clients, items, rows, blobs := map[], map[], map[], map[];
    }

    // ---- storage ------------------------------------------------------------

    method Put(key: string, bytes: Bytes) returns (url: string)
      modifies `blobs
      ensures blobs == old(blobs)[key := bytes] && url == UrlOf(key)
    {
      blobs := blobs[key := bytes];
      url := UrlOf(key);
    }

    /** Foreign URLs are left alone and count as deleted; a deletion that throws deletes nothing. */
    method DeleteByUrl(url: string, down: set<string>) returns (ok: bool)
      modifies `blobs
      ensures ok == (url !in down)
      ensures blobs == if ok then BlobsAfter(old(blobs), {url}) else old(blobs)
      ensures blobs.Keys <= old(blobs).Keys && forall k :: k in old(blobs) ==>
        && (k in blobs <==> !(url !in down && url == "/api/assets/" + k))
        && (k in blobs ==> blobs[k] == old(blobs)[k])
    {
      if url in down {
        return false;
      }
      if Owned(url) {
        blobs := blobs - {KeyOf(url)};
        assert url == UrlOf(KeyOf(url));
      }
      return true;
    }

    // ---- generation and reuse -----------------------------------------------

    method FindByHash(agency: Id, client: Id, hash: Digest) returns (found: Option<Id>)
      ensures found.Some? ==> SameBytes(rows, agency, client, hash, found.value)
      ensures found.None? ==> forall id :: !SameBytes(rows, agency, client, hash, id)
    {
      var todo := rows.Keys;
      while todo != {}
        invariant todo <= rows.Keys && forall id :: id in rows && id !in todo ==> !SameBytes(rows, agency, client, hash, id)
        decreases |todo|
      {
        var id :| id in todo;
        if SameBytes(rows, agency, client, hash, id) {
          return Some(id);
        }
        todo := todo - {id};
      }
      return None;
    }

    /** Stores the image bytes, unless the client already has them, and adds a row. */
    method GenerateImage(agency: Id, item: Id, bytes: Bytes, key: string, id: Id, now: int)
      returns (answer: Result<Id>, dedupedFrom: Option<Id>)
      requires WellFormed(Lib()) && FreshId(rows, id) && FreshKey(Lib(), key)
      modifies `rows, `blobs
      ensures var call := Call.Generate(item, bytes, dedupedFrom, key, id, now);
        if CanGenerate(old(Lib()), agency, item)
        then answer == Ok(id) && Possible(old(Lib()), call) && Lib() == Do(old(Lib()), call)
        else answer == Err(NotFound) && Lib() == old(Lib())
      ensures answer.Ok? <==> item in items && clients[items[item].client] == agency
      ensures answer.Ok? ==>
        var client, url := items[item].client, if dedupedFrom.Some? then old(rows)[dedupedFrom.value].url else "/api/assets/" + key;
        && rows == old(rows)[id := Asset(agency, client, item, Image, url, Source.Generated, Some(Sha256(bytes)), None, 1,
                                         None, now)]
        && blobs == (if dedupedFrom.Some? then old(blobs) else old(blobs)[key := bytes])
        && (if dedupedFrom.Some?
            then dedupedFrom.value in old(rows) && old(rows)[dedupedFrom.value].agency == agency
                 && old(rows)[dedupedFrom.value].client == client
                 && old(rows)[dedupedFrom.value].hash == Some(Sha256(bytes))
            else forall e :: e in old(rows) && old(rows)[e].agency == agency && old(rows)[e].client == client ==>
                   old(rows)[e].hash != Some(Sha256(bytes)))
    {
      if !(item in items && clients[items[item].client] == agency) {
        return Err(NotFound), None;
      }
      var client := items[item].client;
      dedupedFrom := FindByHash(agency, client, Sha256(bytes));
      var url: string;
      if dedupedFrom.Some? {
        url := rows[dedupedFrom.value].url;
      } else {
        forall e | e in rows && rows[e].agency == agency && rows[e].client == client
          ensures rows[e].hash != Some(Sha256(bytes))
        {
          assert !SameBytes(rows, agency, client, Sha256(bytes), e);
        }
        url := Put(key, bytes);
      }
      rows := rows[id := Asset(agency, client, item, Image, url, Source.Generated, Some(Sha256(bytes)), None, 1, None, now)];
      answer := Ok(id);
    }

    /** Stores the assembled video under its own key and adds a row; videos are not deduped. */
    method ProduceVideo(agency: Id, item: Id, bytes: Bytes, key: string, id: Id, now: int) returns (answer: Result<Id>)
      requires WellFormed(Lib()) && FreshId(rows, id) && FreshKey(Lib(), key)
      modifies `rows, `blobs
      ensures if CanGenerate(old(Lib()), agency, item)
        then answer == Ok(id) && Lib() == Do(old(Lib()), Call.ProduceVideo(item, bytes, key, id, now))
        else answer == Err(NotFound) && Lib() == old(Lib())
      ensures answer.Ok? <==> item in items && clients[items[item].client] == agency
      ensures answer.Ok? ==>
        && rows == old(rows)[id := Asset(agency, items[item].client, item, Video, "/api/assets/" + key, Source.Generated, None,
                                         None, 1, None, now)]
        && blobs == old(blobs)[key := bytes]
    {
      if !(item in items && clients[items[item].client] == agency) {
        return Err(NotFound);
      }
      var client := items[item].client;
      var url := Put(key, bytes);
      rows := rows[id := Asset(agency, client, item, Video, url, Source.Generated, None, None, 1, None, now)];
      answer := Ok(id);
    }

    /** A pushed asset keeps its own absolute URL. */
    method PushUpload(agency: Id, item: Id, kind: Kind, url: string, id: Id, now: int) returns (answer: Result<Id>)
      requires WellFormed(Lib()) && FreshId(rows, id) && !Owned(url)
      modifies `rows
      ensures if CanGenerate(old(Lib()), agency, item)
        then answer == Ok(id) && Lib() == Do(old(Lib()), Call.PushUpload(item, kind, url, id, now))
        else answer == Err(NotFound) && Lib() == old(Lib())
      ensures answer.Ok? <==> item in items && clients[items[item].client] == agency
      ensures answer.Ok? ==>
        rows == old(rows)[id := Asset(agency, items[item].client, item, kind, url, Source.Upload, None, None, 1, None, now)]
    {
      if !(item in items && clients[items[item].client] == agency) {
        return Err(NotFound);
      }
      var client := items[item].client;
      rows := rows[id := Asset(agency, client, item, kind, url, Source.Upload, None, None, 1, None, now)];
      answer := Ok(id);
    }

    /** One above the highest version in the group. */
    method NextVersionOf(agency: Id, g: Id) returns (version: nat)
      ensures version == NextVersion(rows, agency, g)
    {
      var top, todo := 0, rows.Keys;
      while todo != {}
        invariant todo <= rows.Keys && (top == 0 || top in VersionsIn(rows, agency, g))
        invariant forall id :: id in rows && IsMember(rows, agency, g, id) && id !in todo ==> rows[id].version <= top
        decreases |todo|
      {
        var id :| id in todo;
        if IsMember(rows, agency, g, id) {
          top := if rows[id].version > top then rows[id].version else top;
        }
        todo := todo - {id};
      }
      MaxIs(VersionsIn(rows, agency, g), top);
      version := top + 1;
    }

    /**
     * A new row over the source's URL for another item of the same client, as the next version of the source's group;
     * a source without a group becomes the first of its own.
     */
    method Reattach(agency: Id, source: Id, target: Id, id: Id, now: int) returns (answer: Result<()>)
      requires WellFormed(Lib()) && FreshId(rows, id)
      modifies `rows
      ensures answer == ReattachAnswer(old(Lib()), agency, source, target)
      ensures Lib() == Do(old(Lib()), Call.Reattach(agency, source, target, id, now))
      ensures answer == Err(NotFound) <==>
        !(source in old(rows) && old(rows)[source].agency == agency
          && target in items && clients[items[target].client] == agency)
      ensures source in old(rows) && old(rows)[source].agency == agency
              && target in items && clients[items[target].client] == agency ==>
        answer == if items[target].client != old(rows)[source].client then Err(Validation) else Ok(())
      ensures answer.Err? ==> rows == old(rows)
      ensures answer.Ok? ==>
        var src := old(rows)[source];
        var g := if src.group.Some? then src.group.value else source;
        && rows.Keys == old(rows).Keys + {id}
        && rows[id].item == target && rows[id].source.Reused? && rows[id].createdAt == now && rows[id].archivedAt.None?
        && rows[id].kind == src.kind && rows[id].url == src.url && rows[id].hash == src.hash
        && rows[id].agency == agency && rows[id].client == src.client && rows[id].group == Some(g)
        && (forall r :: r in old(rows) && old(rows)[r].agency == agency && (r == g || old(rows)[r].group == Some(g)) ==>
              old(rows)[r].version < rows[id].version)
        && (exists r :: r in old(rows) && old(rows)[r].agency == agency && (r == g || old(rows)[r].group == Some(g))
              && old(rows)[r].version + 1 == rows[id].version)
        && rows[source] == src.(group := Some(g))
        && (forall r :: r in old(rows) && r != source ==> rows[r] == old(rows)[r])
    {
      if !OfAgency(rows, agency, source) {
        return Err(NotFound);
      }
      if !(target in items && clients[items[target].client] == agency) {
        return Err(NotFound);
      }
      var src := rows[source];
      if items[target].client != src.client {
        return Err(Validation);
      }
      var g := if src.group.Some? then src.group.value else source;
      if src.group.None? {
        rows := rows[source := src.(group := Some(g))];
      }
      assert rows == old(rows)[source := src.(group := Some(g))];
      var version := NextVersionOf(agency, g);
      NextVersionIs(old(rows), rows, agency, source, g, version);
      rows := rows[id := Asset(agency, src.client, target, src.kind, src.url, Source.Reused, src.hash, Some(g), version, None, now)];
      return Ok(());
    }

    // ---- lifecycle ----------------------------------------------------------

    method SetArchived(agency: Id, asset: Id, archived: bool, now: int) returns (answer: Result<()>)
      requires WellFormed(Lib())
      modifies `rows
      ensures answer == if OfAgency(old(rows), agency, asset) then Ok(()) else Err(NotFound)
      ensures Lib() == Do(old(Lib()), Call.SetArchived(agency, asset, archived, now))
      ensures answer.Ok? <==> asset in old(rows) && old(rows)[asset].agency == agency
      ensures rows == if answer.Err? then old(rows)
                      else old(rows)[asset := old(rows)[asset].(archivedAt := if archived then Some(now) else None)]
    {
      if !OfAgency(rows, agency, asset) {
        return Err(NotFound);
      }
      rows := rows[asset := rows[asset].(archivedAt := if archived then Some(now) else None)];
      return Ok(());
    }

    method ArchiveStale(agency: Id, client: Id, before: int, at: int) returns (archived: nat)
      modifies `rows
      ensures rows == ArchiveRows(items, old(rows), agency, client, before, at)
      ensures archived == |StaleIds(items, old(rows), agency, client, before)|
      ensures rows.Keys == old(rows).Keys && forall id :: id in rows ==>
        var r := old(rows)[id];
        rows[id] == if r.agency == agency && r.client == client && r.archivedAt.None?
                       && (r.source.Generated? || r.source.Reused?) && r.createdAt < before
                       && !(r.item in items && (items[r.item].status.Approved? || items[r.item].status.Scheduled?
                                                || items[r.item].status.Published?))
                    then r.(archivedAt := Some(at)) else r
      ensures archived == |Changed(old(rows), rows)|
    {
      archived := 0;
      ghost var table, stale := rows, StaleIds(items, rows, agency, client, before);
      var todo := rows.Keys;
      while todo != {}
        invariant todo <= table.Keys && rows == Stamped(table, stale - todo, at)
        invariant archived == |stale - todo|
        decreases |todo|
      {
        var id :| id in todo;
        var r := rows[id];
        assert r == table[id] by { assert id !in stale - todo; }
        StampOne(table, stale, todo, id, at);
        if Of(r, agency, client) && IsStale(items, r, before) {
          rows := rows[id := r.(archivedAt := Some(at))];
          archived := archived + 1;
        }
        todo := todo - {id};
      }
      StampedIsArchived(items, table, agency, client, before, at);
      assert stale - {} == stale;
      assert Changed(table, rows) == stale;
    }

    method RunRetention(agency: Id, client: Id, days: int, now: int) returns (answer: Result<nat>)
      requires WellFormed(Lib())
      modifies `rows
      ensures Lib() == Do(old(Lib()), Call.Retain(agency, client, days, now))
      ensures answer == if RetentionDaysOk(days)
                        then Ok(|StaleIds(items, old(rows), agency, client, Cutoff(now, days))|) else Err(Validation)
    {
      if !RetentionDaysOk(days) {
        return Err(Validation);
      }
      var archived := ArchiveStale(agency, client, Cutoff(now, days), now);
      return Ok(archived);
    }

    method CountByUrl(agency: Id, url: string) returns (n: nat)
      ensures n > 0 <==> Referenced(rows, agency, url)
    {
      n := 0;
      var todo := rows.Keys;
      while todo != {}
        invariant todo <= rows.Keys
        invariant n > 0 ==> Referenced(rows, agency, url)
        invariant n == 0 ==> forall id :: id in rows && id !in todo ==> !(rows[id].agency == agency && rows[id].url == url)
        decreases |todo|
      {
        var id :| id in todo;
        if rows[id].agency == agency && rows[id].url == url {
          n := n + 1;
        }
        todo := todo - {id};
      }
    }

    /** The distinct URLs of the purged rows, each deleted once nothing in the agency references it. */
    method CollectBlobs(agency: Id, urls: set<string>, down: set<string>) returns (deleted: nat)
      modifies `blobs
      ensures var collected := set url | url in urls && !Referenced(rows, agency, url);
        blobs == BlobsAfter(old(blobs), collected - down) && deleted == |collected - down|
    {
      deleted := 0;
      var todo := urls;
      ghost var hit: set<string> := {};
      assert BlobsAfter(blobs, hit) == blobs;
      while todo != {}
        invariant todo <= urls && hit !! todo
        invariant forall url :: url in hit <==> url in urls && url !in todo && url !in down && !Referenced(rows, agency, url)
        invariant blobs == BlobsAfter(old(blobs), hit) && deleted == |hit|
        decreases |todo|
      {
        var url :| url in todo;
        var n := CountByUrl(agency, url);
        if n == 0 {
          var ok := DeleteByUrl(url, down);
          if ok {
            deleted := deleted + 1;
            BlobsTwice(old(blobs), hit, {url});
            hit := hit + {url};
          }
        }
        todo := todo - {url};
      }
      assert hit == (set url | url in urls && !Referenced(rows, agency, url)) - down;
    }

    method PurgeArchived(agency: Id, client: Id, days: int, now: int, down: set<string>, storage: bool)
      returns (answer: Result<PurgeResult>)
      requires WellFormed(Lib())
      modifies `rows, `blobs
      ensures Lib() == Do(old(Lib()), Call.Purge(agency, client, days, now, down, storage))
      ensures var ids := PurgedIds(old(rows), agency, client, Cutoff(now, days));
        answer == if !PurgeDaysOk(days) then Err(Validation)
                  else Ok(PurgeResult(|ids|, if storage then |Collectable(old(rows), rows, agency, ids) - down| else 0))
    {
      if !PurgeDaysOk(days) {
        return Err(Validation);
      }
      var before := Cutoff(now, days);
      var ids := PurgedIds(rows, agency, client, before);
      if |ids| == 0 {
        NothingToPurge(Lib(), agency, client, before, down, storage);
        assert Collectable(rows, rows, agency, {}) == {};
        return Ok(PurgeResult(0, 0));
      }
      var urls := UrlsOf(rows, ids);
      rows := rows - ids;
      var deleted := 0;
      if storage {
        deleted := CollectBlobs(agency, urls, down);
      }
      return Ok(PurgeResult(|ids|, deleted));
    }

    /** Every client, each once, in no particular order. */
    method SweepTargets() returns (targets: seq<Id>)
      ensures NoDup(targets) && Elements(targets) == clients.Keys
    {
      targets := [];
      var todo := clients.Keys;
      while todo != {}
        invariant todo <= clients.Keys && NoDup(targets)
        invariant forall c :: c in targets <==> c in clients && c !in todo
        decreases |todo|
      {
        var c :| c in todo;
        targets := targets + [c];
        todo := todo - {c};
      }
    }

    /** One client's turn in the sweep. */
    method SweepOne(c: Id, retentionDays: int, purgeDays: Option<int>, now: int, storage: Storage) returns (answer: Result<Totals>)
      requires WellFormed(Lib()) && c in clients
      modifies `rows, `blobs
      ensures SweepDaysOk(retentionDays, purgeDays) ==>
        && Lib() == SweepTurn(old(Lib()), c, retentionDays, purgeDays, now, storage)
        && answer == Ok(ClientTotals(old(Lib()), clients[c], c, SweepAt(retentionDays, purgeDays, now, storage)))
      ensures !SweepDaysOk(retentionDays, purgeDays) ==> answer == Err(Validation)
      ensures !SweepDaysOk(retentionDays, purgeDays) ==>
        Lib() == Do(old(Lib()), Call.Retain(clients[c], c, retentionDays, now))
    {
      var agency := clients[c];
      ghost var lib := Lib();
      RetainIsWellFormed(lib, c, retentionDays, now);
      var retained := RunRetention(agency, c, retentionDays, now);
      if retained.Err? {
        return Err(Validation);
      }
      if purgeDays.None? {
        return Ok(Totals(retained.value, 0, 0));
      }
      var result := PurgeArchived(agency, c, purgeDays.value, now, storage.down, storage.present);
      if result.Err? {
        return Err(Validation);
      }
      TurnTotals(lib, c, retentionDays, purgeDays, now, storage);
      return Ok(Totals(retained.value, result.value.purged, result.value.blobsDeleted));
    }

    /** The loop over the targets. */
    method SweepEach(targets: seq<Id>, retentionDays: int, purgeDays: Option<int>, now: int, storage: Storage)
      returns (answer: Result<Totals>)
      requires WellFormed(Lib()) && NoDup(targets) && forall c :: c in targets ==> c in clients
      modifies `rows, `blobs
      ensures answer == if targets == [] || SweepDaysOk(retentionDays, purgeDays)
                        then Ok(SweepAll(old(Lib()), targets, SweepAt(retentionDays, purgeDays, now, storage)).1)
                        else Err(Validation)
      ensures Lib() == if targets == [] || SweepDaysOk(retentionDays, purgeDays)
                       then SweepAll(old(Lib()), targets, SweepAt(retentionDays, purgeDays, now, storage)).0
                       else Do(old(Lib()), Call.Retain(clients[targets[0]], targets[0], retentionDays, now))
    {
      ghost var lib, s := Lib(), SweepAt(retentionDays, purgeDays, now, storage);
      var totals := Totals(0, 0, 0);
      assert targets[..0] == [];
      for i := 0 to |targets|
        invariant i > 0 ==> SweepDaysOk(retentionDays, purgeDays)
        invariant i == 0 ==> Lib() == lib
        invariant clients == lib.clients && WellFormed(Lib())
        invariant (Lib(), totals) == SweepAll(lib, targets[..i], s)
      {
        var turn := SweepOne(targets[i], retentionDays, purgeDays, now, storage);
        if turn.Err? {
          return Err(Validation);
        }
        totals := Plus(totals, turn.value);
        SweepNext(lib, targets, i, retentionDays, purgeDays, now, storage);
      }
      assert targets[..|targets|] == targets;
      return Ok(totals);
    }

    /** The scheduled sweep, whatever storage does: its result is the closed form over the set of all clients. */
    method RunRetentionSweep(retentionDays: int, purgeDays: Option<int>, now: int, storage: Storage)
      returns (answer: Result<SweepResult>)
      requires WellFormed(Lib())
      modifies `rows, `blobs
      ensures clients == map[] || SweepDaysOk(retentionDays, purgeDays) ==>
        var s := SweepAt(retentionDays, purgeDays, now, storage);
        && Lib() == Swept(old(Lib()), clients.Keys, s)
        && answer == Ok(SweepResult(|clients|, SweptTotals(old(Lib()), clients.Keys, s)))
      ensures clients != map[] && !SweepDaysOk(retentionDays, purgeDays) ==>
        answer == Err(Validation) && OnlyArchivedOne(old(Lib()), Lib(), retentionDays, now)
      ensures 1 <= retentionDays <= 3650 && (purgeDays.None? || 0 <= purgeDays.value <= 3650) ==>
        answer.Ok? && answer.value.clients == |clients|
        && SweepsRows(old(Lib()), rows, retentionDays, purgeDays, now)
        && SweepsBlobs(old(Lib()), rows, blobs, storage)
        && CountsSweep(old(rows), rows, storage, answer.value.totals)
    {
      var targets := SweepTargets();
      ghost var s := SweepAt(retentionDays, purgeDays, now, storage);
      NoDupSize(targets);
      if targets == [] {
        SweptNobody(Lib(), s);
      } else {
        assert targets[0] in Elements(targets);
        if SweepDaysOk(retentionDays, purgeDays) {
          SweepHasClosedForm(Lib(), targets, s);
        }
      }
      if SweepDaysOk(retentionDays, purgeDays) {
        SweptRowsInFields(Lib(), retentionDays, purgeDays, now, storage);
        SweptBlobsInFields(Lib(), s, storage);
        SweptCountsInFields(Lib(), s, storage);
      }
      var swept := SweepEach(targets, retentionDays, purgeDays, now, storage);
      if swept.Err? {
        return Err(Validation);
      }
      return Ok(SweepResult(|targets|, swept.value));
    }
  }

  lemma SweepNext(lib: Library, targets: seq<Id>, i: nat, retentionDays: int, purgeDays: Option<int>, now: int, storage: Storage)
    requires WellFormed(lib) && NoDup(targets) && i < |targets| && forall c :: c in targets ==> c in lib.clients
    requires SweepDaysOk(retentionDays, purgeDays)
    ensures var s := SweepAt(retentionDays, purgeDays, now, storage);
      var (t, sum) := SweepAll(lib, targets[..i], s);
      && WellFormed(t) && t.clients == lib.clients
      && SweepAll(lib, targets[..i + 1], s)
         == (SweepTurn(t, targets[i], retentionDays, purgeDays, now, storage),
             Plus(sum, ClientTotals(t, lib.clients[targets[i]], targets[i], s)))
      && WellFormed(SweepAll(lib, targets[..i + 1], s).0)
  {
    var s := SweepAt(retentionDays, purgeDays, now, storage);
    SweepHasClosedForm(lib, targets[..i], s);
    SweepStaysWellFormed(lib, targets, i, s);
    SweepStaysWellFormed(lib, targets, i + 1, s);
    SweepAllNext(lib, targets, i, s);
    SweepTurnIsSweepClient(SweepAll(lib, targets[..i], s).0, targets[i], retentionDays, purgeDays, now, storage);
  }

  lemma SweepStaysWellFormed(lib: Library, targets: seq<Id>, i: nat, s: Sweep)
    requires WellFormed(lib) && Timely(s) && NoDup(targets) && i <= |targets|
    requires forall c :: c in targets ==> c in lib.clients
    ensures WellFormed(SweepAll(lib, targets[..i], s).0)
  {
    SweepHasClosedForm(lib, targets[..i], s);
    SweptIsWellFormed(lib, Elements(targets[..i]), s);
  }
}
