/** What every reachable media library satisfies: no dangling row, sound reference counts, sound version groups. */
module MediaInvariants {
  import opened Seqs
  import opened StateMachine
  import opened Media

  // ---- the invariant --------------------------------------------------------

  /** A row with an owned URL has its blob, and a digest is the digest of that blob. */
  ghost predicate StoredOk(rows: Table, blobs: map<string, Bytes>, id: Id)
    requires id in rows
  {
    var r := rows[id];
    && (Owned(r.url) ==> KeyOf(r.url) in blobs)
    && (r.hash.Some? ==> Owned(r.url) && KeyOf(r.url) in blobs && Sha256(blobs[KeyOf(r.url)]) == r.hash.value)
  }

  /** An owned URL is only ever used by rows of one client. */
  ghost predicate UrlOk(rows: Table, i: Id, j: Id)
    requires i in rows && j in rows
  {
    Owned(rows[i].url) && rows[i].url == rows[j].url ==> rows[i].client == rows[j].client
  }

  /** Two rows of one version group have different versions of the same thing. */
  ghost predicate GroupOk(rows: Table, i: Id, j: Id)
    requires i in rows && j in rows
  {
    && (rows[i].group == Some(j) ==> rows[j].group == Some(j))
    && (i != j && GroupOf(rows, i) == GroupOf(rows, j) ==>
          && rows[i].version != rows[j].version
          && rows[i].client == rows[j].client && rows[i].url == rows[j].url
          && rows[i].kind == rows[j].kind && rows[i].hash == rows[j].hash)
  }

  ghost predicate TableOk(rows: Table) {
    && (forall i :: i in rows ==> rows[i].version >= 1)
    && (forall i, j :: i in rows && j in rows ==> UrlOk(rows, i, j))
    && (forall i, j :: i in rows && j in rows ==> GroupOk(rows, i, j))
  }

  ghost predicate Stored(rows: Table, blobs: map<string, Bytes>) {
    forall i :: i in rows ==> StoredOk(rows, blobs, i)
  }

  ghost predicate Sound(lib: Library) {
    WellFormed(lib) && TableOk(lib.rows) && Stored(lib.rows, lib.blobs)
  }

  // ---- rows that only lose or change bookkeeping fields ---------------------

  /** Same row up to `archivedAt`. */
  predicate SameAsset(a: Asset, b: Asset) {
    a == b.(archivedAt := a.archivedAt)
  }

  /** `t` has some of the rows of `s`, changed in nothing but `archivedAt`. */
  ghost predicate Shrunk(s: Table, t: Table) {
    forall i :: i in t ==> i in s && SameAsset(t[i], s[i])
  }

  lemma ShrunkIsOk(s: Table, t: Table)
    requires TableOk(s) && Shrunk(s, t)
    ensures TableOk(t)
  {
    forall i, j | i in t && j in t ensures UrlOk(t, i, j) && GroupOk(t, i, j) {
      assert UrlOk(s, i, j) && GroupOk(s, i, j);
    }
  }

  lemma ShrunkIsStored(s: Table, t: Table, blobs: map<string, Bytes>)
    requires Stored(s, blobs) && Shrunk(s, t)
    ensures Stored(t, blobs)
  {
    forall i | i in t ensures StoredOk(t, blobs, i) {
      assert StoredOk(s, blobs, i);
    }
  }

  lemma ShrunkIsWellFormed(lib: Library, t: Table)
    requires WellFormed(lib) && Shrunk(lib.rows, t)
    ensures WellFormed(lib.(rows := t))
  {
  }

  // ---- a new row ------------------------------------------------------------

  lemma NewRowIsOk(rows: Table, id: Id, r: Asset)
    requires TableOk(rows) && FreshId(rows, id) && r.group.None? && r.version == 1
    requires Owned(r.url) ==> forall j :: j in rows && rows[j].url == r.url ==> rows[j].client == r.client
    ensures TableOk(rows[id := r])
  {
    var t := rows[id := r];
    forall i, j | i in t && j in t ensures UrlOk(t, i, j) && GroupOk(t, i, j) {
      if i != id && j != id {
        assert UrlOk(rows, i, j) && GroupOk(rows, i, j);
      }
    }
  }

  lemma NewRowIsStored(rows: Table, blobs: map<string, Bytes>, id: Id, r: Asset, blobs': map<string, Bytes>)
    requires Stored(rows, blobs) && id !in rows
    requires forall k :: k in blobs ==> k in blobs' && blobs'[k] == blobs[k]
    requires StoredOk(rows[id := r], blobs', id)
    ensures Stored(rows[id := r], blobs')
  {
    var t := rows[id := r];
    forall i | i in t ensures StoredOk(t, blobs', i) {
      if i != id { assert StoredOk(rows, blobs, i); }
    }
  }

  lemma GenerateIsSound(lib: Library, call: Call)
    requires Sound(lib) && Possible(lib, call) && (call.Generate? || call.ProduceVideo?)
    ensures Sound(Do(lib, call))
  {
    UrlRoundTrip(call.key);
    var t := Do(lib, call);
    if call.Generate? && call.existing.Some? {
      var e := call.existing.value;
      assert StoredOk(lib.rows, lib.blobs, e);
      assert forall j :: j in lib.rows ==> UrlOk(lib.rows, e, j);
    }
    NewRowIsOk(lib.rows, call.id, t.rows[call.id]);
    NewRowIsStored(lib.rows, lib.blobs, call.id, t.rows[call.id], t.blobs);
  }

  lemma UploadIsSound(lib: Library, call: Call)
    requires Sound(lib) && Possible(lib, call) && call.PushUpload?
    ensures Sound(Do(lib, call))
  {
    var t := Do(lib, call);
    NewRowIsOk(lib.rows, call.id, t.rows[call.id]);
    NewRowIsStored(lib.rows, lib.blobs, call.id, t.rows[call.id], t.blobs);
  }

  // ---- reattach -------------------------------------------------------------

  /** Anchoring writes down the group the asset already is in. */
  lemma AnchorIsOk(rows: Table, source: Id)
    requires TableOk(rows) && source in rows
    ensures TableOk(rows[source := rows[source].(group := Some(GroupOf(rows, source)))])
  {
    var t := rows[source := rows[source].(group := Some(GroupOf(rows, source)))];
    assert forall i :: i in t ==> GroupOf(t, i) == GroupOf(rows, i);
    forall i, j | i in t && j in t ensures UrlOk(t, i, j) && GroupOk(t, i, j) {
      assert UrlOk(rows, i, j) && GroupOk(rows, i, j) && GroupOk(rows, j, i);
    }
  }

  /** In a sound table the members of an anchored group are the rows of that group, all of one agency. */
  lemma MembersAreGroup(rows: Table, source: Id, g: Id, agency: Id)
    requires TableOk(rows) && source in rows && rows[source].group == Some(g) && rows[source].agency == agency
    requires forall i, j :: i in rows && j in rows && rows[i].client == rows[j].client ==> rows[i].agency == rows[j].agency
    ensures forall i :: i in rows ==> (IsMember(rows, agency, g, i) <==> GroupOf(rows, i) == g)
  {
    forall i | i in rows ensures IsMember(rows, agency, g, i) <==> GroupOf(rows, i) == g {
      assert GroupOk(rows, source, i) && GroupOk(rows, i, source);
    }
  }

  /** A next version of `source` fits in. */
  lemma NextVersionIsOk(rows: Table, source: Id, id: Id, r: Asset)
    requires TableOk(rows) && source in rows && FreshId(rows, id)
    requires r.group.Some? && rows[source].group == r.group && r.version >= 1
    requires r.client == rows[source].client && r.url == rows[source].url
    requires r.kind == rows[source].kind && r.hash == rows[source].hash
    requires forall i :: i in rows && GroupOf(rows, i) == r.group.value ==> rows[i].version < r.version
    ensures TableOk(rows[id := r])
  {
    var t := rows[id := r];
    assert forall i :: i in rows ==> GroupOf(t, i) == GroupOf(rows, i);
    assert r.group != Some(id);
    forall i, j | i in t && j in t ensures UrlOk(t, i, j) && GroupOk(t, i, j) {
      if i != id && j != id {
        assert UrlOk(rows, i, j) && GroupOk(rows, i, j);
      } else if i != id {
        assert UrlOk(rows, i, source) && UrlOk(rows, source, i) && GroupOk(rows, i, source) && GroupOk(rows, source, i);
      } else if j != id {
        assert UrlOk(rows, j, source) && UrlOk(rows, source, j) && GroupOk(rows, j, source) && GroupOk(rows, source, j);
      }
    }
  }

  lemma ReattachIsOk(lib: Library, agency: Id, source: Id, target: Id, id: Id, now: int)
    requires Sound(lib) && FreshId(lib.rows, id) && CanReattach(lib, agency, source, target)
    ensures TableOk(ReattachRows(lib, agency, source, target, id, now))
  {
    var src, g := lib.rows[source], GroupOf(lib.rows, source);
    var anchored := lib.rows[source := src.(group := Some(g))];
    AnchorIsOk(lib.rows, source);
    MembersAreGroup(anchored, source, g, agency);
    assert FreshId(anchored, id);
    var r := ReattachRows(lib, agency, source, target, id, now)[id];
    forall i | i in anchored && GroupOf(anchored, i) == g ensures anchored[i].version < r.version {
      assert anchored[i].version in VersionsIn(anchored, agency, g);
    }
    NextVersionIsOk(anchored, source, id, r);
  }

  lemma ReattachIsSound(lib: Library, call: Call)
    requires Sound(lib) && Possible(lib, call) && call.Reattach? && CanReattach(lib, call.agency, call.source, call.target)
    ensures Sound(Do(lib, call))
  {
    ReattachIsOk(lib, call.agency, call.source, call.target, call.id, call.now);
    var t := Do(lib, call);
    forall i | i in t.rows ensures StoredOk(t.rows, t.blobs, i) {
      assert StoredOk(lib.rows, lib.blobs, if i == call.id then call.source else i);
    }
  }

  // ---- purge ----------------------------------------------------------------

  /**
   * The per-agency reference count is sound: a blob the purge deletes is not used by any surviving row of any
   * agency.
   */
  lemma CollectedIsUnused(lib: Library, agency: Id, client: Id, before: int, id: Id)
    requires Sound(lib)
    requires var ids := PurgedIds(lib.rows, agency, client, before); id in lib.rows && id !in ids
    ensures var ids := PurgedIds(lib.rows, agency, client, before);
      Owned(lib.rows[id].url) ==> lib.rows[id].url !in Collectable(lib.rows, lib.rows - ids, agency, ids)
  {
    var ids := PurgedIds(lib.rows, agency, client, before);
    var survivors, url := lib.rows - ids, lib.rows[id].url;
    if Owned(url) && url in UrlsOf(lib.rows, ids) {
      var p :| p in ids && p in lib.rows && lib.rows[p].url == url;
      assert UrlOk(lib.rows, p, id);
      assert id in survivors && survivors[id].agency == agency;
    }
  }

  lemma PurgeIsSound(lib: Library, agency: Id, client: Id, before: int, down: set<string>, storage: bool)
    requires Sound(lib)
    ensures Sound(PurgeBefore(lib, agency, client, before, down, storage))
  {
    var t := PurgeBefore(lib, agency, client, before, down, storage);
    assert Shrunk(lib.rows, t.rows);
    ShrunkIsOk(lib.rows, t.rows);
    forall i | i in t.rows ensures StoredOk(t.rows, t.blobs, i) {
      assert StoredOk(lib.rows, lib.blobs, i);
      CollectedIsUnused(lib, agency, client, before, i);
      if Owned(lib.rows[i].url) { assert UrlOf(KeyOf(lib.rows[i].url)) == lib.rows[i].url; }
    }
  }

  lemma PurgeCallIsSound(lib: Library, call: Call)
    requires Sound(lib) && call.Purge?
    ensures Sound(Do(lib, call))
  {
    PurgeIsSound(lib, call.agency, call.client, Cutoff(call.now, call.days), call.down, call.storage);
  }

  // ---- every run ------------------------------------------------------------

  lemma CallIsSound(lib: Library, call: Call)
    requires Sound(lib) && Possible(lib, call)
    ensures Sound(Do(lib, call))
  {
    if call.Generate? || call.ProduceVideo? { GenerateIsSound(lib, call); }
    else if call.PushUpload? { UploadIsSound(lib, call); }
    else if call.Reattach? {
      if CanReattach(lib, call.agency, call.source, call.target) { ReattachIsSound(lib, call); }
    } else if call.Purge? {
      PurgeCallIsSound(lib, call);
    } else if call.SetArchived? || call.Retain? {
      var t := Do(lib, call);
      ShrunkIsOk(lib.rows, t.rows);
      ShrunkIsStored(lib.rows, t.rows, lib.blobs);
    }
  }

  /**
   * In every reachable library each row with an owned URL has its blob in storage, even when blob deletions fail
   * or there is no storage to collect; digests are true; owned URLs belong to one client; version groups are sound.
   */
  lemma {:induction false} ReachableIsSound(calls: seq<Call>)
    ensures Sound(History(calls))
  {
    if calls != [] {
      ReachableIsSound(calls[..|calls| - 1]);
      var lib := History(calls[..|calls| - 1]);
      if Possible(lib, Last(calls)) { CallIsSound(lib, Last(calls)); }
    }
  }

  // ---- no orphans while storage works ---------------------------------------

  /** Every stored blob is used by a row. */
  ghost predicate NoOrphans(lib: Library) {
    forall k :: k in lib.blobs ==> HasRow(lib.rows, UrlOf(k))
  }

  ghost predicate HasRow(rows: Table, url: string) {
    exists id :: id in rows && rows[id].url == url
  }

  predicate StorageWorks(call: Call) {
    call.Purge? ==> call.storage && call.down == {}
  }

  lemma RowsKeepUrls(s: Library, t: Library)
    requires NoOrphans(s) && (forall k :: k in t.blobs ==> k in s.blobs)
    requires forall id :: id in s.rows ==> id in t.rows && t.rows[id].url == s.rows[id].url
    ensures NoOrphans(t)
  {
    forall k | k in t.blobs ensures HasRow(t.rows, UrlOf(k)) {
      var id :| id in s.rows && s.rows[id].url == UrlOf(k);
      assert t.rows[id].url == UrlOf(k);
    }
  }

  /** A blob that the purge did not collect still has a row. */
  lemma KeptBlobHasRow(rows: Table, survivors: Table, agency: Id, ids: set<Id>, url: string)
    requires survivors == rows - ids && HasRow(rows, url)
    requires url !in Collectable(rows, survivors, agency, ids)
    ensures HasRow(survivors, url)
  {
    var id :| id in rows && rows[id].url == url;
    if id in ids {
      assert url in UrlsOf(rows, ids);
      var i :| i in survivors && survivors[i].agency == agency && survivors[i].url == url;
    } else {
      assert survivors[id].url == url;
    }
  }

  lemma PurgeLeavesNoOrphans(lib: Library, agency: Id, client: Id, before: int)
    requires NoOrphans(lib)
    ensures NoOrphans(PurgeBefore(lib, agency, client, before, {}, true))
  {
    var ids := PurgedIds(lib.rows, agency, client, before);
    var collected := Collectable(lib.rows, lib.rows - ids, agency, ids);
    assert collected - {} == collected;
    forall k | k in lib.blobs && UrlOf(k) !in collected ensures HasRow(lib.rows - ids, UrlOf(k)) {
      KeptBlobHasRow(lib.rows, lib.rows - ids, agency, ids, UrlOf(k));
    }
  }

  lemma PurgeCallLeavesNoOrphans(lib: Library, call: Call)
    requires WellFormed(lib) && NoOrphans(lib) && call.Purge? && StorageWorks(call)
    ensures NoOrphans(Do(lib, call))
  {
    PurgeLeavesNoOrphans(lib, call.agency, call.client, Cutoff(call.now, call.days));
  }

  lemma GenerateLeavesNoOrphans(lib: Library, call: Call)
    requires Sound(lib) && NoOrphans(lib) && Possible(lib, call) && (call.Generate? || call.ProduceVideo?)
    ensures NoOrphans(Do(lib, call))
  {
    var t := Do(lib, call);
    forall k | k in t.blobs ensures HasRow(t.rows, UrlOf(k)) {
      if k in lib.blobs {
        var id :| id in lib.rows && lib.rows[id].url == UrlOf(k);
        assert t.rows[id].url == UrlOf(k);
      } else {
        assert t.rows[call.id].url == UrlOf(k);
      }
    }
  }

  lemma CallLeavesNoOrphans(lib: Library, call: Call)
    requires Sound(lib) && NoOrphans(lib) && Possible(lib, call) && StorageWorks(call)
    ensures NoOrphans(Do(lib, call))
  {
    if call.Purge? {
      PurgeCallLeavesNoOrphans(lib, call);
    } else if call.Generate? || call.ProduceVideo? {
      GenerateLeavesNoOrphans(lib, call);
    } else {
      RowsKeepUrls(lib, Do(lib, call));
    }
  }

  /** While storage works, the stored blobs are exactly the owned URLs of the rows. */
  lemma {:induction false} BlobsAreOwnedUrls(calls: seq<Call>)
    requires forall i :: 0 <= i < |calls| ==> StorageWorks(calls[i])
    ensures var lib := History(calls);
      forall k :: k in lib.blobs <==> HasRow(lib.rows, UrlOf(k))
  {
    NoOrphansEver(calls);
    ReachableIsSound(calls);
    var lib := History(calls);
    forall k, id | id in lib.rows && lib.rows[id].url == UrlOf(k) ensures k in lib.blobs {
      UrlRoundTrip(k);
      assert StoredOk(lib.rows, lib.blobs, id);
    }
  }

  lemma {:induction false} NoOrphansEver(calls: seq<Call>)
    requires forall i :: 0 <= i < |calls| ==> StorageWorks(calls[i])
    ensures NoOrphans(History(calls))
  {
    if calls != [] {
      var lib := History(calls[..|calls| - 1]);
      NoOrphansEver(calls[..|calls| - 1]);
      ReachableIsSound(calls[..|calls| - 1]);
      if Possible(lib, Last(calls)) { CallLeavesNoOrphans(lib, Last(calls)); }
    }
  }
}
