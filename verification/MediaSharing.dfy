/** Sharing blobs is invisible: the library refines a plain store in which every row owns its bytes. */
module MediaSharing {
  import opened Seqs
  import opened StateMachine
  import opened Media
  import opened MediaInvariants

  /** The plain store: bytes per row, no URLs and no sharing. */
  type Plain = map<Id, Bytes>

  /** What a call does to the plain store. Which rows exist is the library's business; the bytes are copied. */
  ghost function PlainDo(plain: Plain, lib: Library, call: Call): Plain {
    match call
    case Generate(_, bytes, _, _, id, _) => plain[id := bytes]
    case ProduceVideo(_, bytes, _, id, _) => plain[id := bytes]
    case Reattach(agency, source, target, id, _) =>
      if CanReattach(lib, agency, source, target) && source in plain then plain[id := plain[source]] else plain
    case Purge(agency, client, days, now, _, _) =>
      if PurgeDaysOk(days) then plain - PurgedIds(lib.rows, agency, client, Cutoff(now, days)) else plain
    case _ => plain
  }

  ghost function PlainHistory(calls: seq<Call>): Plain {
    if calls == [] then map[]
    else
      var lib, plain := History(calls[..|calls| - 1]), PlainHistory(calls[..|calls| - 1]);
      if WellFormed(lib) && Possible(lib, Last(calls)) then PlainDo(plain, lib, Last(calls)) else plain
  }

  /** What a client gets when it follows a row's URL. */
  function Read(lib: Library, id: Id): Option<Bytes> {
    if id in lib.rows && Owned(lib.rows[id].url) && KeyOf(lib.rows[id].url) in lib.blobs
    then Some(lib.blobs[KeyOf(lib.rows[id].url)]) else None
  }

  ghost predicate RowRefines(lib: Library, plain: Plain, id: Id) {
    && (id in plain <==> id in lib.rows && Owned(lib.rows[id].url))
    && (id in plain ==> Read(lib, id) == Some(plain[id]))
  }

  ghost predicate Refines(lib: Library, plain: Plain) {
    forall id :: RowRefines(lib, plain, id)
  }

  /** A dedupe hit holds exactly the bytes that were just generated. */
  lemma DedupeHits(lib: Library, agency: Id, client: Id, bytes: Bytes, e: Id)
    requires Sound(lib) && SameBytes(lib.rows, agency, client, Sha256(bytes), e)
    ensures Read(lib, e) == Some(bytes)
  {
    assert StoredOk(lib.rows, lib.blobs, e);
  }

  /** Old rows read the same after a new blob was put under a fresh key. */
  lemma PutKeepsReads(lib: Library, t: Library, key: string, bytes: Bytes, id: Id)
    requires FreshKey(lib, key) && t.blobs == lib.blobs[key := bytes]
    requires id in lib.rows && id in t.rows && t.rows[id] == lib.rows[id]
    ensures Read(t, id) == Read(lib, id)
  {
    var url := lib.rows[id].url;
    assert Owned(url) ==> url == UrlOf(KeyOf(url));
  }

  lemma CreateRefines(lib: Library, plain: Plain, call: Call)
    requires Sound(lib) && Possible(lib, call) && Refines(lib, plain) && (call.Generate? || call.ProduceVideo?)
    ensures Refines(Do(lib, call), PlainDo(plain, lib, call))
  {
    var t, plain' := Do(lib, call), PlainDo(plain, lib, call);
    UrlRoundTrip(call.key);
    forall id ensures RowRefines(t, plain', id) {
      assert RowRefines(lib, plain, id);
      if call.Generate? && call.existing.Some? {
        DedupeHits(lib, AgencyOf(lib, call.item), ClientOf(lib, call.item), call.bytes, call.existing.value);
      } else if id != call.id && id in lib.rows {
        PutKeepsReads(lib, t, call.key, call.bytes, id);
      }
    }
  }

  lemma ReattachRefines(lib: Library, plain: Plain, call: Call)
    requires Sound(lib) && Possible(lib, call) && Refines(lib, plain) && call.Reattach?
    ensures Refines(Do(lib, call), PlainDo(plain, lib, call))
  {
    var t, plain' := Do(lib, call), PlainDo(plain, lib, call);
    assert RowRefines(lib, plain, call.source) && RowRefines(lib, plain, call.id);
    forall id ensures RowRefines(t, plain', id) {
      assert RowRefines(lib, plain, id);
    }
  }

  lemma PurgeRefines(lib: Library, plain: Plain, agency: Id, client: Id, before: int, down: set<string>, storage: bool)
    requires Sound(lib) && Refines(lib, plain)
    ensures Refines(PurgeBefore(lib, agency, client, before, down, storage), plain - PurgedIds(lib.rows, agency, client, before))
  {
    var t := PurgeBefore(lib, agency, client, before, down, storage);
    var ids := PurgedIds(lib.rows, agency, client, before);
    forall id ensures RowRefines(t, plain - ids, id) {
      assert RowRefines(lib, plain, id);
      if id in lib.rows && id !in ids && Owned(lib.rows[id].url) {
        CollectedIsUnused(lib, agency, client, before, id);
        assert UrlOf(KeyOf(lib.rows[id].url)) == lib.rows[id].url;
      }
    }
  }

  lemma CallRefines(lib: Library, plain: Plain, call: Call)
    requires Sound(lib) && Possible(lib, call) && Refines(lib, plain)
    ensures Refines(Do(lib, call), PlainDo(plain, lib, call))
  {
    if call.Generate? || call.ProduceVideo? { CreateRefines(lib, plain, call); }
    else if call.Reattach? { ReattachRefines(lib, plain, call); }
    else if call.Purge? {
      PurgeRefines(lib, plain, call.agency, call.client, Cutoff(call.now, call.days), call.down, call.storage);
    } else {
      forall id ensures RowRefines(Do(lib, call), PlainDo(plain, lib, call), id) {
        assert RowRefines(lib, plain, id);
      }
    }
  }

  /** At every moment of any run, reading a surviving row's owned URL returns the bytes that row owns. */
  lemma {:induction false} LibraryRefinesPlain(calls: seq<Call>)
    ensures Refines(History(calls), PlainHistory(calls))
  {
    if calls != [] {
      var init := calls[..|calls| - 1];
      LibraryRefinesPlain(init);
      ReachableIsSound(init);
      if Possible(History(init), Last(calls)) { CallRefines(History(init), PlainHistory(init), Last(calls)); }
    }
  }

  /** A row keeps its bytes as long as it survives. */
  lemma PlainKeeps(plain: Plain, lib: Library, call: Call, id: Id)
    requires Possible(lib, call) && Refines(lib, plain) && id in plain && id in PlainDo(plain, lib, call)
    ensures PlainDo(plain, lib, call)[id] == plain[id]
  {
    assert RowRefines(lib, plain, id);
  }

  /** In the plain store, row `id` owns `bytes`. */
  ghost predicate Owns(calls: seq<Call>, id: Id, bytes: Bytes) {
    var plain := PlainHistory(calls);
    id in plain && plain[id] == bytes
  }

  /** A row keeps the bytes it owns for as long as it survives. */
  lemma {:induction false} SurvivorOwns(init: seq<Call>, later: seq<Call>, id: Id, bytes: Bytes)
    requires Owns(init, id, bytes)
    requires forall n :: 0 <= n <= |later| ==> id in History(init + later[..n]).rows
    ensures Owns(init + later, id, bytes)
  {
    if later == [] {
      assert init + later == init;
    } else {
      var n := |later| - 1;
      assert init + later == (init + later[..n]) + [Last(later)] && later[..|later|] == later;
      forall k | 0 <= k <= n ensures id in History(init + later[..n][..k]).rows {
        assert later[..n][..k] == later[..k];
      }
      SurvivorOwns(init, later[..n], id, bytes);
      SurvivorKeepsBytes(init + later[..n], Last(later), id, bytes);
    }
  }

  lemma OwnerReads(calls: seq<Call>, id: Id, bytes: Bytes)
    requires Owns(calls, id, bytes)
    ensures Read(History(calls), id) == Some(bytes)
  {
    LibraryRefinesPlain(calls);
    assert RowRefines(History(calls), PlainHistory(calls), id);
  }

  /**
   * An image generated at some point reads back as the generated bytes at every later moment up to which its
   * row survived, whatever was deduped against it, reattached, archived or purged meanwhile.
   */
  lemma GeneratedImageReadsBack(before: seq<Call>, g: Call, later: seq<Call>)
    requires g.Generate? && Possible(History(before), g)
    requires forall n :: 0 <= n <= |later| ==> g.id in History(before + [g] + later[..n]).rows
    ensures Read(History(before + [g] + later), g.id) == Some(g.bytes)
  {
    ReachableIsSound(before);
    assert (before + [g])[..|before + [g]| - 1] == before;
    SurvivorOwns(before + [g], later, g.id, g.bytes);
    OwnerReads(before + [g] + later, g.id, g.bytes);
  }

  /** A reused image reads back as the bytes its source owned, even after the source row is gone. */
  lemma ReusedImageReadsBack(before: seq<Call>, r: Call, later: seq<Call>, bytes: Bytes)
    requires r.Reattach? && Possible(History(before), r) && Owns(before, r.source, bytes)
    requires CanReattach(History(before), r.agency, r.source, r.target)
    requires forall n :: 0 <= n <= |later| ==> r.id in History(before + [r] + later[..n]).rows
    ensures Read(History(before + [r] + later), r.id) == Some(bytes)
  {
    ReachableIsSound(before);
    assert (before + [r])[..|before + [r]| - 1] == before;
    SurvivorOwns(before + [r], later, r.id, bytes);
    OwnerReads(before + [r] + later, r.id, bytes);
  }

  lemma SurvivorKeepsBytes(init: seq<Call>, call: Call, id: Id, bytes: Bytes)
    requires Owns(init, id, bytes) && id in History(init + [call]).rows
    ensures Owns(init + [call], id, bytes)
  {
    var calls := init + [call];
    assert calls[..|calls| - 1] == init;
    LibraryRefinesPlain(init);
    ReachableIsSound(init);
    if Possible(History(init), call) {
      StepKeepsBytes(History(init), PlainHistory(init), call, id);
    }
  }

  lemma StepKeepsBytes(lib: Library, plain: Plain, call: Call, id: Id)
    requires Sound(lib) && Possible(lib, call) && Refines(lib, plain) && id in plain && id in Do(lib, call).rows
    ensures var plain' := PlainDo(plain, lib, call); id in plain' && plain'[id] == plain[id]
  {
    assert RowRefines(lib, plain, id);
    CallRefines(lib, plain, call);
    SurvivorStaysOwned(lib, call, id);
    assert RowRefines(Do(lib, call), PlainDo(plain, lib, call), id);
    PlainKeeps(plain, lib, call, id);
  }

  lemma SurvivorStaysOwned(lib: Library, call: Call, id: Id)
    requires WellFormed(lib) && id in lib.rows && Owned(lib.rows[id].url)
    ensures Possible(lib, call) && id in Do(lib, call).rows ==> Do(lib, call).rows[id].url == lib.rows[id].url
  {
  }
}
