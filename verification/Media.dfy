/**
 * The media library: asset rows that share stored blobs, through dedupe on generation and through reattach.
 * Rows are a table keyed by id; every service call is one atomic step.
 */
module Media {
  import opened Seqs
  import opened StateMachine

  type Id = nat  // identifiers are only ever compared
  newtype Byte = x: int | 0 <= x < 256
  type Bytes = seq<Byte>

  /** SHA-256, taken to be collision free: a digest determines its bytes. */
  datatype Digest = Sha256(bytes: Bytes)

  datatype Kind = Image | Video | Audio
  datatype Source = Generated | Upload | Reused
  datatype Asset = Asset(agency: Id, client: Id, item: Id, kind: Kind, url: string, source: Source,
                         hash: Option<Digest>, group: Option<Id>, version: nat, archivedAt: Option<int>, createdAt: int)
  datatype Item = Item(client: Id, status: ItemStatus)

  type Table = map<Id, Asset>
  datatype Library = Library(clients: map<Id, Id>, items: map<Id, Item>, rows: Table, blobs: map<string, Bytes>)

  /** `days` before `now`, in milliseconds. */
  function Cutoff(now: int, days: int): int {
    now - days * 86_400_000
  }

  const MaxRetentionDays := 3650

  // ---- storage --------------------------------------------------------------

  const UrlPrefix := "/api/assets/"

  function UrlOf(key: string): string {
    UrlPrefix + key
  }

  /** `deleteByUrl` leaves URLs without the prefix alone. */
  predicate Owned(url: string) {
    UrlPrefix <= url
  }

  function KeyOf(url: string): string
    requires Owned(url)
  {
    url[|UrlPrefix|..]
  }

  lemma UrlRoundTrip(key: string)
    ensures Owned(UrlOf(key)) && KeyOf(UrlOf(key)) == key
  {
  }

  // ---- queries --------------------------------------------------------------

  predicate OfAgency(rows: Table, agency: Id, id: Id) {
    id in rows && rows[id].agency == agency
  }

  /** `groupId = g or id = g`. */
  predicate IsMember(rows: Table, agency: Id, g: Id, id: Id) {
    OfAgency(rows, agency, id) && (rows[id].group == Some(g) || id == g)
  }

  /** The group an asset is, or would be, anchored in. */
  function GroupOf(rows: Table, id: Id): Id
    requires id in rows
  {
    if rows[id].group.Some? then rows[id].group.value else id
  }

  ghost function VersionsIn(rows: Table, agency: Id, g: Id): set<nat> {
    set id | id in rows && IsMember(rows, agency, g, id) :: rows[id].version
  }

  ghost function Max(vs: set<nat>): (m: nat)
    ensures forall v :: v in vs ==> v <= m
    ensures vs != {} ==> m in vs
    ensures vs == {} ==> m == 0
  {
    if vs == {} then 0
    else
      var v :| v in vs;
      var rest := Max(vs - {v});
      assert vs == (vs - {v}) + {v};
      if v > rest then v else rest
  }

  ghost function NextVersion(rows: Table, agency: Id, g: Id): nat {
    Max(VersionsIn(rows, agency, g)) + 1
  }

  predicate Retained(s: ItemStatus) {
    s.Approved? || s.Scheduled? || s.Published?
  }

  /** `archiveStale` picks live, reusable rows created before the cutoff whose item is not in use. */
  predicate IsStale(items: map<Id, Item>, r: Asset, before: int) {
    && r.archivedAt.None?
    && (r.source.Generated? || r.source.Reused?)
    && r.createdAt < before
    && !(r.item in items && Retained(items[r.item].status))
  }

  predicate IsPurgeable(r: Asset, before: int) {
    r.archivedAt.Some? && r.archivedAt.value < before
  }

  predicate Of(r: Asset, agency: Id, client: Id) {
    r.agency == agency && r.client == client
  }

  // ---- service calls --------------------------------------------------------

  /** A row a dedupe lookup may answer with: same client, same digest. */
  predicate SameBytes(rows: Table, agency: Id, client: Id, hash: Digest, id: Id) {
    id in rows && Of(rows[id], agency, client) && rows[id].hash == Some(hash)
  }

  function NewRow(lib: Library, item: Id, kind: Kind, url: string, source: Source, hash: Option<Digest>, now: int): Asset
    requires item in lib.items && lib.items[item].client in lib.clients
  {
    var client := lib.items[item].client;
    Asset(lib.clients[client], client, item, kind, url, source, hash, None, 1, None, now)
  }

  function Archived(items: map<Id, Item>, r: Asset, agency: Id, client: Id, before: int, now: int): Asset {
    if Of(r, agency, client) && IsStale(items, r, before) then r.(archivedAt := Some(now)) else r
  }

  function ArchiveRows(items: map<Id, Item>, rows: Table, agency: Id, client: Id, before: int, now: int): Table {
    map id | id in rows :: Archived(items, rows[id], agency, client, before, now)
  }

  function PurgedIds(rows: Table, agency: Id, client: Id, before: int): set<Id> {
    set id | id in rows && Of(rows[id], agency, client) && IsPurgeable(rows[id], before)
  }

  function UrlsOf(rows: Table, ids: set<Id>): set<string> {
    set id | id in ids && id in rows :: rows[id].url
  }

  /** `countByUrl > 0`. */
  predicate Referenced(rows: Table, agency: Id, url: string) {
    exists id :: id in rows && rows[id].agency == agency && rows[id].url == url
  }

  /** URLs whose blob the purge asks storage to delete: of purged rows, and no longer referenced in the agency. */
  ghost function Collectable(rows: Table, survivors: Table, agency: Id, ids: set<Id>): set<string> {
    set url | url in UrlsOf(rows, ids) && !Referenced(survivors, agency, url)
  }

  ghost function BlobsAfter(blobs: map<string, Bytes>, deleted: set<string>): map<string, Bytes> {
    map k | k in blobs && UrlOf(k) !in deleted :: blobs[k]
  }

  datatype Call =
    | AddClient(client: Id, agency: Id)
    | AddItem(item: Id, client: Id)
    | SetStatus(item: Id, status: ItemStatus)
      // `existing` is what findByHash answers; `key` and `id` are freshly generated
    | Generate(item: Id, bytes: Bytes, existing: Option<Id>, key: string, id: Id, now: int)
    | ProduceVideo(item: Id, bytes: Bytes, key: string, id: Id, now: int)
    | PushUpload(item: Id, kind: Kind, url: string, id: Id, now: int)
    | Reattach(agency: Id, source: Id, target: Id, id: Id, now: int)
    | SetArchived(agency: Id, asset: Id, archived: bool, now: int)
    | Retain(agency: Id, client: Id, days: int, now: int)
      // `down` are the URLs whose deletion throws; without storage no blob is touched
    | Purge(agency: Id, client: Id, days: int, now: int, down: set<string>, storage: bool)

  /** Generated ids and keys are new, lookups answer correctly, and pushed URLs are absolute. */
  ghost predicate Possible(lib: Library, call: Call) {
    match call
    case AddClient(client, _) => client !in lib.clients
    case AddItem(item, client) => item !in lib.items && client in lib.clients
    case SetStatus(item, _) => item in lib.items
    case Generate(item, bytes, existing, key, id, _) =>
      && item in lib.items && FreshId(lib.rows, id)
      && (match existing
          case Some(e) => SameBytes(lib.rows, AgencyOf(lib, item), ClientOf(lib, item), Sha256(bytes), e)
          case None => FreshKey(lib, key)
                       && forall e :: !SameBytes(lib.rows, AgencyOf(lib, item), ClientOf(lib, item), Sha256(bytes), e))
    case ProduceVideo(item, _, key, id, _) => item in lib.items && FreshId(lib.rows, id) && FreshKey(lib, key)
    case PushUpload(item, _, url, id, _) => item in lib.items && FreshId(lib.rows, id) && !Owned(url)
    case Reattach(_, _, _, id, _) => FreshId(lib.rows, id)
    case _ => true
  }

  ghost predicate FreshId(rows: Table, id: Id) {
    id !in rows && forall r :: r in rows ==> rows[r].group != Some(id)
  }

  ghost predicate FreshKey(lib: Library, key: string) {
    key !in lib.blobs && forall r :: r in lib.rows ==> lib.rows[r].url != UrlOf(key)
  }

  function ClientOf(lib: Library, item: Id): Id {
    if item in lib.items then lib.items[item].client else 0
  }

  function AgencyOf(lib: Library, item: Id): Id {
    if ClientOf(lib, item) in lib.clients then lib.clients[ClientOf(lib, item)] else 0
  }

  /** `reattach` finds the source and the target in the agency, and they belong to one client. */
  predicate CanReattach(lib: Library, agency: Id, source: Id, target: Id) {
    && OfAgency(lib.rows, agency, source)
    && target in lib.items && AgencyOf(lib, target) == agency
    && ClientOf(lib, target) == lib.rows[source].client
  }

  ghost function ReattachRows(lib: Library, agency: Id, source: Id, target: Id, id: Id, now: int): Table
    requires CanReattach(lib, agency, source, target)
  {
    var src, g := lib.rows[source], GroupOf(lib.rows, source);
    var anchored := lib.rows[source := src.(group := Some(g))];
    anchored[id := Asset(agency, src.client, target, src.kind, src.url, Reused, src.hash, Some(g),
                         NextVersion(anchored, agency, g), None, now)]
  }

  /** Rows archived before the cutoff go; then each of their URLs that nothing references any more is deleted. */
  ghost function PurgeBefore(lib: Library, agency: Id, client: Id, before: int, down: set<string>, storage: bool): Library {
    var ids := PurgedIds(lib.rows, agency, client, before);
    var collected := Collectable(lib.rows, lib.rows - ids, agency, ids);
    lib.(rows := lib.rows - ids,
         blobs := if storage then BlobsAfter(lib.blobs, collected - down) else lib.blobs)
  }

  predicate RetentionDaysOk(days: int) { 1 <= days <= MaxRetentionDays }
  predicate PurgeDaysOk(days: int) { 0 <= days <= MaxRetentionDays }

  ghost predicate WellFormed(lib: Library) {
    && (forall x :: x in lib.items ==> lib.items[x].client in lib.clients)
    && (forall id :: id in lib.rows ==>
          var r := lib.rows[id];
          && r.item in lib.items && lib.items[r.item].client == r.client
          && r.client in lib.clients && lib.clients[r.client] == r.agency)
  }

  /** One service call. A call that throws changes nothing. */
  ghost function Do(lib: Library, call: Call): Library
    requires WellFormed(lib) && Possible(lib, call)
  {
    match call
    case AddClient(client, agency) => lib.(clients := lib.clients[client := agency])
    case AddItem(item, client) => lib.(items := lib.items[item := Item(client, Draft)])
    case SetStatus(item, status) => lib.(items := lib.items[item := lib.items[item].(status := status)])
    case Generate(item, bytes, existing, key, id, now) =>
      var url := if existing.Some? then lib.rows[existing.value].url else UrlOf(key);
      lib.(rows := lib.rows[id := NewRow(lib, item, Image, url, Generated, Some(Sha256(bytes)), now)],
           blobs := if existing.Some? then lib.blobs else lib.blobs[key := bytes])
    case ProduceVideo(item, bytes, key, id, now) =>
      lib.(rows := lib.rows[id := NewRow(lib, item, Video, UrlOf(key), Generated, None, now)],
           blobs := lib.blobs[key := bytes])
    case PushUpload(item, kind, url, id, now) =>
      lib.(rows := lib.rows[id := NewRow(lib, item, kind, url, Upload, None, now)])
    case Reattach(agency, source, target, id, now) =>
      if CanReattach(lib, agency, source, target)
      then lib.(rows := ReattachRows(lib, agency, source, target, id, now)) else lib
    case SetArchived(agency, asset, archived, now) =>
      if OfAgency(lib.rows, agency, asset)
      then lib.(rows := lib.rows[asset := lib.rows[asset].(archivedAt := if archived then Some(now) else None)])
      else lib
    case Retain(agency, client, days, now) =>
      if RetentionDaysOk(days)
      then lib.(rows := ArchiveRows(lib.items, lib.rows, agency, client, Cutoff(now, days), now)) else lib
    case Purge(agency, client, days, now, down, storage) =>
      if PurgeDaysOk(days) then PurgeBefore(lib, agency, client, Cutoff(now, days), down, storage) else lib
  }

  ghost function Empty(): Library {
    Library(map[], map[], map[], map[])
  }

  /** Any sequence of service calls; impossible ones are skipped. */
  ghost function History(calls: seq<Call>): Library {
    if calls == [] then Empty()
    else
      var lib := History(calls[..|calls| - 1]);
      if WellFormed(lib) && Possible(lib, Last(calls)) then Do(lib, Last(calls)) else lib
  }
}
