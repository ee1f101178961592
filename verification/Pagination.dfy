/** Cursor pagination over the client list, and walks along `nextCursor` while others insert and update rows. */
module Pagination {
  import opened Errors
  import opened Seqs

  type Id = nat  // ids are only ever compared

  datatype Record = Record(id: Id, agency: Id, name: string, website: Option<string>, niche: Option<string>, createdAt: int)
  type Rows = seq<Record>

  datatype Key = Key(createdAt: int, id: Id)

  function KeyOf(r: Record): Key {
    Key(r.createdAt, r.id)
  }

  /** (createdAt desc, id desc): `j` comes after `i`. */
  predicate Beyond(i: Key, j: Key) {
    i.createdAt > j.createdAt || (i.createdAt == j.createdAt && i.id > j.id)
  }

  function Newer(): (Record, Record) -> bool {
    (a: Record, b: Record) => Beyond(KeyOf(a), KeyOf(b))
  }

  function OfAgency(agency: Id): Record -> bool {
    (r: Record) => r.agency == agency
  }

  // ---- pages ----------------------------------------------------------------

  const DefaultPageSize := 20
  const MaxPageSize := 100

  predicate PositiveInteger(x: real) {
    x.Floor as real == x && x >= 1.0
  }

  /** Twenty if nothing is asked for; else what is asked for but at most a hundred, and nothing but positive integers. */
  function ClampLimit(limit: Option<real>): (r: Result<nat>)
    ensures r.Err? <==> limit.Some? && !PositiveInteger(limit.value)
    ensures r.Err? ==> r.code == Validation
    ensures r.Ok? ==> 1 <= r.value <= 100
    ensures limit.None? ==> r.Ok? && r.value == 20
    ensures limit.Some? && r.Ok? ==> r.value as real <= limit.value && (r.value < 100 ==> r.value as real == limit.value)
  {
    if limit.None? then Ok(DefaultPageSize)
    else if limit.value.Floor as real != limit.value || limit.value < 1.0 then Err(Validation)
    else Ok(if limit.value.Floor <= MaxPageSize then limit.value.Floor else MaxPageSize)
  }

  /** By creation time, newest first, and the higher id first among rows of one moment. */
  ghost predicate NewestFirst(items: Rows) {
    forall i, j :: 0 <= i < j < |items| ==>
      items[i].createdAt > items[j].createdAt || (items[i].createdAt == items[j].createdAt && items[i].id > items[j].id)
  }

  /** The agency's rows, or those that come after the row `c` of it. */
  ghost function OlderThan(rows: Rows, agency: Id, c: Option<Record>): set<Record> {
    set r | r in rows && r.agency == agency
            && (c.Some? ==> c.value.createdAt > r.createdAt || (c.value.createdAt == r.createdAt && c.value.id > r.id))
  }

  /** The page shows the newest `n` of `ahead`; it says whether that leaves any, and if so where to go on. */
  ghost predicate ShowsFirst(page: Page, ahead: set<Record>, n: nat) {
    && (forall r :: r in page.items ==> r in ahead)
    && (forall r :: r in ahead && r !in page.items ==>
          && page.items != []
          && var last := Last(page.items);
          last.createdAt > r.createdAt || (last.createdAt == r.createdAt && last.id > r.id))
    && |page.items| == (if |ahead| <= n then |ahead| else n)
    && (page.hasMore <==> |ahead| > n)
    && (page.nextCursor == if page.hasMore && page.items != [] then Some(Last(page.items).id) else None)
  }

  /** The agency's whole list, newest first. */
  function Listing(rows: Rows, agency: Id): Rows {
    Sort(Filter(rows, OfAgency(agency)), Newer())
  }

  function WithId(id: Id): Record -> bool {
    (r: Record) => r.id == id
  }

  function IndexOf(list: Rows, id: Id): Option<nat> {
    FindIndex(list, WithId(id))
  }

  /** The store's query: a cursor that is not in the list gives an empty page, else one steps past it. */
  function FindMany(rows: Rows, agency: Id, take: nat, cursor: Option<Id>): Rows {
    var list := Listing(rows, agency);
    if cursor.None? then Take(list, take)
    else
      var at := IndexOf(list, cursor.value);
      if at.None? then [] else Take(list[at.value + 1..], take)
  }

  datatype Page = Page(items: Rows, nextCursor: Option<Id>, hasMore: bool)

  /** Slice the over-fetched rows. */
  function ToCursorPage(rows: Rows, limit: nat): Page
    requires limit >= 1
  {
    var items := Take(rows, limit);
    if |rows| > limit then Page(items, Some(Last(items).id), true) else Page(items, None, false)
  }

  function ListPage(rows: Rows, agency: Id, cursor: Option<Id>, limit: Option<real>): Result<Page> {
    var n := ClampLimit(limit);
    if n.Err? then Err(n.code) else Ok(ToCursorPage(FindMany(rows, agency, n.value + 1, cursor), n.value))
  }

  // ---- how the table changes ------------------------------------------------

  predicate DistinctIds(rows: Rows) {
    rows == [] || (DistinctIds(rows[..|rows| - 1]) && !HasId(rows[..|rows| - 1], Last(rows).id))
  }

  predicate HasId(rows: Rows, id: Id) {
    exists r :: r in rows && r.id == id
  }

  predicate SameRow(a: Record, b: Record) {
    a.id == b.id && a.agency == b.agency && a.createdAt == b.createdAt
  }

  /** Rows are only added, and only their editable fields change: what creates and updates do. */
  predicate Evolves(rows: Rows, later: Rows) {
    rows == [] || (later != [] && SameRow(rows[0], later[0]) && Evolves(rows[1..], later[1..]))
  }

  lemma {:induction false} AppendEvolves(rows: Rows, more: Rows)
    ensures Evolves(rows, rows + more)
  {
    if rows != [] {
      assert (rows + more)[1..] == rows[1..] + more;
      AppendEvolves(rows[1..], more);
    }
  }

  /** Any number of writes between two pages is one change of the table. */
  lemma {:induction false} EvolvesTransitive(a: Rows, b: Rows, c: Rows)
    requires Evolves(a, b) && Evolves(b, c)
    ensures Evolves(a, c)
  {
    if a != [] { EvolvesTransitive(a[1..], b[1..], c[1..]); }
  }

  lemma {:induction false} UpdateEvolves(rows: Rows, i: nat, r: Record)
    requires i < |rows| && SameRow(rows[i], r)
    ensures Evolves(rows, rows[i := r])
  {
    if i > 0 {
      assert rows[i := r][1..] == rows[1..][i - 1 := r];
      UpdateEvolves(rows[1..], i - 1, r);
    } else {
      assert rows[i := r][1..] == rows[1..] && rows[1..] + [] == rows[1..];
      AppendEvolves(rows[1..], []);
    }
  }

  lemma {:induction false} UpdateKeepsIds(rows: Rows, i: nat, r: Record)
    requires DistinctIds(rows) && i < |rows| && SameRow(rows[i], r)
    ensures DistinctIds(rows[i := r])
    ensures forall id :: HasId(rows[i := r], id) <==> HasId(rows, id)
  {
    var n, t := |rows| - 1, rows[i := r];
    if i < n {
      assert t[..n] == rows[..n][i := r];
      UpdateKeepsIds(rows[..n], i, r);
    } else {
      assert t[..n] == rows[..n];
    }
    forall id ensures HasId(t, id) <==> HasId(rows, id) {
      if HasId(t, id) {
        var k :| 0 <= k < |t| && t[k].id == id;
        assert rows[k] in rows && rows[k].id == id;
      }
      if HasId(rows, id) {
        var k :| 0 <= k < |rows| && rows[k].id == id;
        assert t[k] in t && t[k].id == id;
      }
    }
  }

  lemma {:induction false} IdsDiffer(rows: Rows, i: nat, j: nat)
    requires DistinctIds(rows) && i < j < |rows|
    ensures rows[i].id != rows[j].id
  {
    var n := |rows| - 1;
    if j < n {
      IdsDiffer(rows[..n], i, j);
    } else {
      assert rows[..n][i] in rows[..n];
    }
  }

  datatype Change = Change(name: Option<string>, website: Option<Option<string>>, niche: Option<Option<string>>)

  function Applied(r: Record, data: Change): Record {
    r.(name := if data.name.Some? then data.name.value else r.name,
       website := if data.website.Some? then data.website.value else r.website,
       niche := if data.niche.Some? then data.niche.value else r.niche)
  }

  class ClientStore {
    var rows: Rows

    ghost predicate Valid()
      reads this
    {
      DistinctIds(rows)
    }

    constructor ()
      ensures Valid() && rows == []
    {
      rows := [];
    }

    /** Adds a row under a fresh id, whatever the clock says. */
    method Create(id: Id, agency: Id, name: string, website: Option<string>, niche: Option<string>, now: int)
      returns (r: Record)
      requires Valid() && !HasId(rows, id)
      modifies this
      ensures Valid() && r == Record(id, agency, name, website, niche, now) && rows == old(rows) + [r]
      ensures Evolves(old(rows), rows)
    {
      r := Record(id, agency, name, website, niche, now);
      AppendEvolves(rows, [r]);
      rows := rows + [r];
      assert rows[..|rows| - 1] == old(rows);
    }

    /** Scoped write: only a row of that agency is changed, and only in what `data` gives. */
    method Update(id: Id, agency: Id, data: Change) returns (r: Option<Record>)
      requires Valid()
      modifies this
      ensures Valid() && Evolves(old(rows), rows) && |rows| == |old(rows)|
      ensures r.Some? <==> exists i :: 0 <= i < |old(rows)| && old(rows)[i].id == id && old(rows)[i].agency == agency
      ensures r.Some? ==> r.value in rows && r.value.id == id
      ensures forall i :: 0 <= i < |rows| ==>
        var was := old(rows)[i];
        if was.id == id && was.agency == agency
        then
          && rows[i].id == id && rows[i].agency == agency && rows[i].createdAt == was.createdAt
          && rows[i].name == (if data.name.Some? then data.name.value else was.name)
          && rows[i].website == (if data.website.Some? then data.website.value else was.website)
          && rows[i].niche == (if data.niche.Some? then data.niche.value else was.niche)
        else rows[i] == was
    {
      assert rows + [] == rows;
      AppendEvolves(rows, []);
      for i := 0 to |rows|
        invariant rows == old(rows)
        invariant forall k :: 0 <= k < i ==> !(rows[k].id == id && rows[k].agency == agency)
      {
        if rows[i].id == id && rows[i].agency == agency {
          var row := Applied(rows[i], data);
          UpdateEvolves(rows, i, row);
          UpdateKeepsIds(rows, i, row);
          forall k | i < k < |rows| ensures rows[k].id != id {
            IdsDiffer(rows, i, k);
          }
          rows := rows[i := row];
          assert rows[i] == row;
          return Some(row);
        }
      }
      return None;
    }

    /**
     * The repository's page: the first rows after the cursor row, whether more follow, and the last row shown as the
     * next cursor. A cursor that is no row of the agency gives an empty last page.
     */
    method List(agency: Id, cursor: Option<Id>, limit: Option<real>) returns (page: Result<Page>)
      requires Valid()
      ensures page == ListPage(rows, agency, cursor, limit)
      ensures page.Err? <==> limit.Some? && !PositiveInteger(limit.value)
      ensures page.Err? ==> page.code == Validation
      ensures page.Ok? ==> PageAfter(page.value, rows, agency, cursor, ClampLimit(limit).value)
      ensures page.Ok? ==> NewestFirst(page.value.items)
      ensures page.Ok? && cursor.None? ==> ShowsFirst(page.value, OlderThan(rows, agency, None), ClampLimit(limit).value)
      ensures page.Ok? ==> forall c :: c in rows && c.agency == agency && cursor == Some(c.id) ==>
        ShowsFirst(page.value, OlderThan(rows, agency, Some(c)), ClampLimit(limit).value)
    {
      var n := ClampLimit(limit);
      if n.Err? {
        return Err(n.code);
      }
      var found := FindMany(rows, agency, n.value + 1, cursor);
      page := Ok(ToCursorPage(found, n.value));
      ListedPage(rows, agency, cursor, limit);
    }
  }

  // ---- one page -------------------------------------------------------------

  function After(k: Option<Key>): Record -> bool {
    (r: Record) => k.Some? ==> Beyond(k.value, KeyOf(r))
  }

  /** The agency's rows after `k`, in list order. */
  function Rest(rows: Rows, agency: Id, k: Option<Key>): Rows {
    Filter(Listing(rows, agency), After(k))
  }

  lemma ListingMembers(rows: Rows, agency: Id)
    ensures forall r :: r in Listing(rows, agency) <==> r in rows && r.agency == agency
  {
    var own, list := Filter(rows, OfAgency(agency)), Listing(rows, agency);
    SortPermutes(own, Newer());
    FilterMembers(rows, OfAgency(agency));
    forall r ensures r in list <==> r in own {
      assert r in list <==> r in multiset(list);
      assert r in own <==> r in multiset(own);
    }
  }

  lemma ListingIsDistinct(rows: Rows, agency: Id)
    requires DistinctIds(rows)
    ensures NoDup(Listing(rows, agency))
  {
    var own := Filter(rows, OfAgency(agency));
    forall i, j | 0 <= i < j < |rows| ensures rows[i] != rows[j] {
      IdsDiffer(rows, i, j);
    }
    FilterKeepsNoDup(rows, OfAgency(agency));
    SortPermutes(own, Newer());
    NoDupPermutes(own, Listing(rows, agency));
  }

  lemma SameIdSameRow(rows: Rows, a: Record, b: Record)
    requires DistinctIds(rows) && a in rows && b in rows
    ensures a.id == b.id ==> a == b
  {
    var i :| 0 <= i < |rows| && rows[i] == a;
    var j :| 0 <= j < |rows| && rows[j] == b;
    if i < j { IdsDiffer(rows, i, j); }
    if j < i { IdsDiffer(rows, j, i); }
  }

  /** The order is total: the list is strictly newest first. */
  lemma ListingAscends(rows: Rows, agency: Id)
    requires DistinctIds(rows)
    ensures Ascending(Listing(rows, agency), Newer()) && NewestFirst(Listing(rows, agency))
  {
    var list := Listing(rows, agency);
    ListingMembers(rows, agency);
    ListingIsDistinct(rows, agency);
    SortSorts(Filter(rows, OfAgency(agency)), Newer());
    forall i, j | 0 <= i < j < |list| ensures Newer()(list[i], list[j]) {
      assert list[i] in list && list[j] in list;
      SameIdSameRow(rows, list[i], list[j]);
    }
  }

  lemma {:induction false} RestAscends(list: Rows, p: Record -> bool)
    requires Ascending(list, Newer())
    ensures Ascending(Filter(list, p), Newer())
  {
    if list != [] {
      RestAscends(list[1..], p);
      FilterMembers(list[1..], p);
      assert forall r :: r in list[1..] ==> Newer()(list[0], r);
    }
  }

  lemma {:induction false} AllAfter(list: Rows, k: Option<Key>)
    requires forall r :: r in list ==> After(k)(r)
    ensures Filter(list, After(k)) == list
  {
    if list != [] { AllAfter(list[1..], k); }
  }

  /** In a strictly ordered list the rows after a row's key are the ones after its position. */
  lemma {:induction false} SliceIsAfter(list: Rows, at: nat)
    requires Ascending(list, Newer()) && at < |list|
    ensures Filter(list, After(Some(KeyOf(list[at])))) == list[at + 1..]
  {
    var k := Some(KeyOf(list[at]));
    assert !After(k)(list[0]) by { assert at > 0 ==> Newer()(list[0], list[at]); }
    if at == 0 {
      forall r | r in list[1..] ensures After(k)(r) {
        var i :| 1 <= i < |list| && list[i] == r;
        assert Newer()(list[0], list[i]);
      }
      AllAfter(list[1..], k);
    } else {
      SliceIsAfter(list[1..], at - 1);
      assert list[1..][at - 1] == list[at] && list[1..][at..] == list[at + 1..];
    }
  }

  /** The cursor is a row of the agency in the table. */
  ghost predicate HasKey(rows: Rows, agency: Id, k: Key) {
    exists r :: r in rows && r.agency == agency && KeyOf(r) == k
  }

  function IdOf(k: Option<Key>): Option<Id> {
    if k.Some? then Some(k.value.id) else None
  }

  /** A page is the first `n` rows after the cursor row. */
  lemma PageIsRest(rows: Rows, agency: Id, k: Option<Key>, n: nat)
    requires DistinctIds(rows) && n >= 1 && (k.Some? ==> HasKey(rows, agency, k.value))
    ensures FindMany(rows, agency, n + 1, IdOf(k)) == Take(Rest(rows, agency, k), n + 1)
  {
    ListingAscends(rows, agency);
    if k.None? {
      AllAfter(Listing(rows, agency), k);
    } else {
      CursorIsFound(rows, agency, k.value);
      SliceIsAfter(Listing(rows, agency), IndexOf(Listing(rows, agency), k.value.id).value);
    }
  }

  lemma CursorIsFound(rows: Rows, agency: Id, k: Key)
    requires DistinctIds(rows) && HasKey(rows, agency, k)
    ensures var list := Listing(rows, agency);
      var at := IndexOf(list, k.id);
      at.Some? && KeyOf(list[at.value]) == k
  {
    var list := Listing(rows, agency);
    ListingMembers(rows, agency);
    var r :| r in rows && r.agency == agency && KeyOf(r) == k;
    FindIndexFinds(list, WithId(k.id));
    var found := list[IndexOf(list, k.id).value];
    assert found in list;
    SameIdSameRow(rows, found, r);
  }

  /** The page of the first `n` of the rows still to come. */
  predicate PageOf(page: Page, rest: Rows, n: nat)
    requires n >= 1
  {
    && page.items == Take(rest, n)
    && (page.hasMore <==> |rest| > n)
    && page.nextCursor == if |rest| > n then Some(rest[n - 1].id) else None
  }

  /** The rows of one page, in terms of the rows after the cursor. */
  lemma PageIs(rows: Rows, agency: Id, k: Option<Key>, limit: Option<real>)
    requires DistinctIds(rows) && (k.Some? ==> HasKey(rows, agency, k.value)) && ClampLimit(limit).Ok?
    ensures var page := ListPage(rows, agency, IdOf(k), limit);
      page.Ok? && PageOf(page.value, Rest(rows, agency, k), ClampLimit(limit).value)
  {
    var n := ClampLimit(limit).value;
    PageIsRest(rows, agency, k, n);
    OverFetched(Rest(rows, agency, k), n);
  }

  lemma OverFetched(rest: Rows, n: nat)
    requires n >= 1
    ensures PageOf(ToCursorPage(Take(rest, n + 1), n), rest, n)
  {
  }

  lemma UnknownCursor(rows: Rows, agency: Id, id: Id, limit: Option<real>)
    requires ClampLimit(limit).Ok?
    ensures !(exists r :: r in rows && r.agency == agency && r.id == id) ==>
      ListPage(rows, agency, Some(id), limit) == Ok(Page([], None, false))
  {
    ListingMembers(rows, agency);
    FindIndexFinds(Listing(rows, agency), WithId(id));
  }

  /**
   * The page after a cursor: the first `n` of the agency's rows, or of those after the cursor row; an empty last page
   * if no row of the agency has that id.
   */
  ghost predicate PageAfter(page: Page, rows: Rows, agency: Id, cursor: Option<Id>, n: nat)
    requires n >= 1
  {
    && (cursor.None? ==> PageOf(page, Rest(rows, agency, None), n))
    && (forall r :: r in rows && r.agency == agency && cursor == Some(r.id) ==>
          PageOf(page, Rest(rows, agency, Some(KeyOf(r))), n))
    && (cursor.Some? && !(exists r :: r in rows && r.agency == agency && r.id == cursor.value) ==>
          page == Page([], None, false))
  }

  function KeyOfRow(c: Option<Record>): Option<Key> {
    if c.Some? then Some(KeyOf(c.value)) else None
  }

  lemma RestIsOlder(rows: Rows, agency: Id, c: Option<Record>)
    requires DistinctIds(rows)
    ensures var rest := Rest(rows, agency, KeyOfRow(c));
      NewestFirst(rest) && Elements(rest) == OlderThan(rows, agency, c) && |rest| == |OlderThan(rows, agency, c)|
  {
    var rest := Rest(rows, agency, KeyOfRow(c));
    RestIs(rows, agency, KeyOfRow(c));
    forall i, j | 0 <= i < j < |rest|
      ensures rest[i].createdAt > rest[j].createdAt || (rest[i].createdAt == rest[j].createdAt && rest[i].id > rest[j].id)
    {
      assert Newer()(rest[i], rest[j]);
    }
    AscendingNoDup(rest);
    NoDupSize(rest);
    forall r ensures r in Elements(rest) <==> r in OlderThan(rows, agency, c) {
    }
  }

  lemma PageShowsFirst(page: Page, rows: Rows, agency: Id, c: Option<Record>, n: nat)
    requires DistinctIds(rows) && n >= 1 && PageOf(page, Rest(rows, agency, KeyOfRow(c)), n)
    ensures NewestFirst(page.items) && ShowsFirst(page, OlderThan(rows, agency, c), n)
  {
    RestIsOlder(rows, agency, c);
    TakenFirst(page, Rest(rows, agency, KeyOfRow(c)), n);
  }

  lemma TakenFirst(page: Page, rest: Rows, n: nat)
    requires n >= 1 && NewestFirst(rest) && |Elements(rest)| == |rest| && PageOf(page, rest, n)
    ensures NewestFirst(page.items) && ShowsFirst(page, Elements(rest), n)
  {
    forall i | 0 <= i < |page.items| ensures page.items[i] == rest[i] && rest[i] in page.items {
    }
    forall r | r in rest && r !in page.items
      ensures page.items != []
      ensures Last(page.items).createdAt > r.createdAt || (Last(page.items).createdAt == r.createdAt && Last(page.items).id > r.id)
    {
      var i :| 0 <= i < |rest| && rest[i] == r;
    }
  }

  lemma AscendingNoDup(list: Rows)
    requires Ascending(list, Newer())
    ensures NoDup(list)
  {
    forall i, j | 0 <= i < j < |list| ensures list[i] != list[j] {
      assert Newer()(list[i], list[j]);
    }
  }

  lemma ListedPage(rows: Rows, agency: Id, cursor: Option<Id>, limit: Option<real>)
    requires DistinctIds(rows) && ClampLimit(limit).Ok?
    ensures var page, n := ListPage(rows, agency, cursor, limit), ClampLimit(limit).value;
      && page.Ok? && PageAfter(page.value, rows, agency, cursor, n) && NewestFirst(page.value.items)
      && (cursor.None? ==> ShowsFirst(page.value, OlderThan(rows, agency, None), n))
      && forall c :: c in rows && c.agency == agency && cursor == Some(c.id) ==>
           ShowsFirst(page.value, OlderThan(rows, agency, Some(c)), n)
  {
    var page, n := ListPage(rows, agency, cursor, limit), ClampLimit(limit).value;
    if cursor.None? {
      PageIs(rows, agency, None, limit);
      PageShowsFirst(page.value, rows, agency, None, n);
    } else {
      forall c | c in rows && c.agency == agency && cursor == Some(c.id)
        ensures PageOf(page.value, Rest(rows, agency, Some(KeyOf(c))), n)
        ensures NewestFirst(page.value.items) && ShowsFirst(page.value, OlderThan(rows, agency, Some(c)), n)
      {
        PageIs(rows, agency, Some(KeyOf(c)), limit);
        PageShowsFirst(page.value, rows, agency, Some(c), n);
      }
      UnknownCursor(rows, agency, cursor.value, limit);
    }
  }

  // ---- walks ----------------------------------------------------------------

  datatype Walked = Walked(items: Rows, done: bool)

  /** Page after page along `nextCursor`, the table being `stores[i]` when page `i` is fetched. */
  function Walk(stores: seq<Rows>, limits: seq<Option<real>>, agency: Id, cursor: Option<Id>): Walked
    requires |stores| <= |limits|
  {
    if stores == [] then Walked([], false)
    else
      var page := ListPage(stores[0], agency, cursor, limits[0]);
      if page.Err? then Walked([], false)
      else if page.value.nextCursor.None? then Walked(page.value.items, true)
      else
        var rest := Walk(stores[1..], limits[1..], agency, page.value.nextCursor);
        Walked(page.value.items + rest.items, rest.done)
  }

  /** Between pages others create and update rows. */
  ghost predicate Evolving(stores: seq<Rows>) {
    stores == [] || (DistinctIds(stores[0]) && Evolving(stores[1..]) && (|stores| > 1 ==> Evolves(stores[0], stores[1])))
  }

  lemma {:induction false} RowSurvives(a: Rows, b: Rows, r: Record)
    requires Evolves(a, b) && r in a
    ensures HasKey(b, r.agency, KeyOf(r))
  {
    if r == a[0] {
      assert b[0] in b;
    } else {
      RowSurvives(a[1..], b[1..], r);
      var r' :| r' in b[1..] && r'.agency == r.agency && KeyOf(r') == KeyOf(r);
      assert r' in b;
    }
  }

  /** The walk told in terms of the rows after the cursor row: their first `n`, and on from the last of those. */
  function RestWalk(stores: seq<Rows>, limits: seq<Option<real>>, agency: Id, k: Option<Key>): Walked
    requires |stores| <= |limits|
  {
    if stores == [] || ClampLimit(limits[0]).Err? then Walked([], false)
    else
      var rest, n := Rest(stores[0], agency, k), ClampLimit(limits[0]).value;
      if |rest| <= n then Walked(rest, true)
      else
        var more := RestWalk(stores[1..], limits[1..], agency, Some(KeyOf(rest[n - 1])));
        Walked(rest[..n] + more.items, more.done)
  }

  /** One page of a walk, in terms of the rows after the cursor row. */
  lemma WalkNext(stores: seq<Rows>, limits: seq<Option<real>>, agency: Id, k: Option<Key>)
    requires |stores| <= |limits| && stores != [] && DistinctIds(stores[0]) && ClampLimit(limits[0]).Ok?
    requires k.Some? ==> HasKey(stores[0], agency, k.value)
    ensures var rest, n := Rest(stores[0], agency, k), ClampLimit(limits[0]).value;
      Walk(stores, limits, agency, IdOf(k))
      == if |rest| <= n then Walked(rest, true)
         else var more := Walk(stores[1..], limits[1..], agency, Some(rest[n - 1].id)); Walked(rest[..n] + more.items, more.done)
  {
    PageIs(stores[0], agency, k, limits[0]);
  }

  lemma {:induction false} WalkIsRestWalk(stores: seq<Rows>, limits: seq<Option<real>>, agency: Id, k: Option<Key>)
    requires |stores| <= |limits| && Evolving(stores)
    requires stores != [] && k.Some? ==> HasKey(stores[0], agency, k.value)
    ensures Walk(stores, limits, agency, IdOf(k)) == RestWalk(stores, limits, agency, k)
  {
    if stores != [] && ClampLimit(limits[0]).Ok? {
      var rest, n := Rest(stores[0], agency, k), ClampLimit(limits[0]).value;
      WalkNext(stores, limits, agency, k);
      if |rest| > n {
        LastSurvives(stores, agency, k, n);
        WalkIsRestWalk(stores[1..], limits[1..], agency, Some(KeyOf(rest[n - 1])));
      }
    }
  }

  /** The rows after `k` are the agency's rows after `k`, newest first. */
  lemma RestIs(rows: Rows, agency: Id, k: Option<Key>)
    requires DistinctIds(rows)
    ensures Ascending(Rest(rows, agency, k), Newer())
    ensures forall r :: r in Rest(rows, agency, k) <==> r in rows && r.agency == agency && After(k)(r)
  {
    ListingAscends(rows, agency);
    ListingMembers(rows, agency);
    FilterMembers(Listing(rows, agency), After(k));
    RestAscends(Listing(rows, agency), After(k));
  }

  /** Everything a walk from `k` shows lies strictly after `k`, in strictly descending order. */
  lemma {:induction false} WalkDescends(stores: seq<Rows>, limits: seq<Option<real>>, agency: Id, k: Option<Key>)
    requires |stores| <= |limits| && Evolving(stores)
    ensures Descends(RestWalk(stores, limits, agency, k).items, k)
  {
    if stores != [] && ClampLimit(limits[0]).Ok? {
      var rest, n := Rest(stores[0], agency, k), ClampLimit(limits[0]).value;
      RestDescends(stores[0], agency, k);
      if |rest| > n {
        var last := rest[n - 1];
        WalkDescends(stores[1..], limits[1..], agency, Some(KeyOf(last)));
        PageThenRest(rest, n, k, RestWalk(stores[1..], limits[1..], agency, Some(KeyOf(last))).items);
      }
    }
  }

  /** The row a page ends with is still there when the next page is fetched. */
  lemma LastSurvives(stores: seq<Rows>, agency: Id, k: Option<Key>, n: nat)
    requires stores != [] && Evolving(stores) && 1 <= n <= |Rest(stores[0], agency, k)|
    ensures |stores| > 1 ==> HasKey(stores[1], agency, KeyOf(Rest(stores[0], agency, k)[n - 1]))
  {
    RestIs(stores[0], agency, k);
    var last := Rest(stores[0], agency, k)[n - 1];
    assert last in Rest(stores[0], agency, k);
    if |stores| > 1 { RowSurvives(stores[0], stores[1], last); }
  }

  /** Strictly newest first, and all after `k`. */
  ghost predicate Descends(items: Rows, k: Option<Key>) {
    Ascending(items, Newer()) && forall r :: r in items ==> After(k)(r)
  }

  lemma RestDescends(rows: Rows, agency: Id, k: Option<Key>)
    requires DistinctIds(rows)
    ensures Descends(Rest(rows, agency, k), k)
  {
    RestIs(rows, agency, k);
  }

  lemma PageThenRest(rest: Rows, n: nat, k: Option<Key>, more: Rows)
    requires 1 <= n < |rest| && Descends(rest, k) && Descends(more, Some(KeyOf(rest[n - 1])))
    ensures Descends(rest[..n] + more, k)
  {
    var all := rest[..n] + more;
    assert rest[n - 1] in rest;
    forall i, j | 0 <= i < j < |all| ensures Newer()(all[i], all[j]) {
      if i < n <= j {
        assert all[j] == more[j - n] && more[j - n] in more;
        assert i < n - 1 ==> Newer()(rest[i], rest[n - 1]);
      }
    }
    forall r | r in all ensures After(k)(r) {
      if r in more {
        assert After(Some(KeyOf(rest[n - 1])))(r);
      }
    }
  }

  ghost predicate Shows(items: Rows, k: Key) {
    exists r :: r in items && KeyOf(r) == k
  }

  /** A finished walk from `k` shows every row after `k` that was there when it began. */
  lemma {:induction false} WalkCovers(stores: seq<Rows>, limits: seq<Option<real>>, agency: Id, k: Option<Key>, r: Record)
    requires |stores| <= |limits| && Evolving(stores) && stores != []
    requires r in stores[0] && r.agency == agency && After(k)(r)
    requires RestWalk(stores, limits, agency, k).done
    ensures Shows(RestWalk(stores, limits, agency, k).items, KeyOf(r))
  {
    var rest, n := Rest(stores[0], agency, k), ClampLimit(limits[0]).value;
    var i := PlaceInRest(stores[0], agency, k, r);
    if |rest| <= n || i < n {
      ShownOnPage(rest, n, i, RestWalk(stores, limits, agency, k).items);
    } else {
      var last := rest[n - 1];
      assert Newer()(last, rest[i]);
      RowSurvives(stores[0], stores[1], r);
      var r' :| r' in stores[1] && r'.agency == agency && KeyOf(r') == KeyOf(r);
      WalkCovers(stores[1..], limits[1..], agency, Some(KeyOf(last)), r');
      var shown :| shown in RestWalk(stores[1..], limits[1..], agency, Some(KeyOf(last))).items && KeyOf(shown) == KeyOf(r);
      assert shown in RestWalk(stores, limits, agency, k).items;
    }
  }

  lemma PlaceInRest(rows: Rows, agency: Id, k: Option<Key>, r: Record) returns (i: nat)
    requires DistinctIds(rows) && r in rows && r.agency == agency && After(k)(r)
    ensures i < |Rest(rows, agency, k)| && Rest(rows, agency, k)[i] == r
    ensures Ascending(Rest(rows, agency, k), Newer())
  {
    RestIs(rows, agency, k);
    i :| 0 <= i < |Rest(rows, agency, k)| && Rest(rows, agency, k)[i] == r;
  }

  lemma ShownOnPage(rest: Rows, n: nat, i: nat, items: Rows)
    requires i < |rest| && (if |rest| <= n then items == rest else i < n && rest[..n] <= items)
    ensures Shows(items, KeyOf(rest[i]))
  {
    assert items[i] == rest[i] by { assert |rest| > n ==> rest[..n][i] == rest[i]; }
    assert items[i] in items;
  }

  lemma {:induction false} RowSurvivesAll(stores: seq<Rows>, r: Record)
    requires stores != [] && Evolving(stores) && r in stores[0]
    ensures DistinctIds(Last(stores)) && HasKey(Last(stores), r.agency, KeyOf(r))
  {
    if |stores| > 1 {
      RowSurvives(stores[0], stores[1], r);
      var r' :| r' in stores[1] && r'.agency == r.agency && KeyOf(r') == KeyOf(r);
      RowSurvivesAll(stores[1..], r');
    }
  }

  lemma ShownNow(stores: seq<Rows>, agency: Id, k: Option<Key>, r: Record)
    requires stores != [] && Evolving(stores) && r in Rest(stores[0], agency, k)
    ensures HasKey(Last(stores), agency, KeyOf(r))
  {
    RestIs(stores[0], agency, k);
    RowSurvivesAll(stores, r);
  }

  /** Whatever a walk shows is a row of the agency in the final table. */
  lemma {:induction false} ShownRowsExist(stores: seq<Rows>, limits: seq<Option<real>>, agency: Id, k: Option<Key>, r: Record)
    requires stores != [] && |stores| <= |limits| && Evolving(stores)
    requires r in RestWalk(stores, limits, agency, k).items
    ensures HasKey(Last(stores), agency, KeyOf(r))
  {
    var rest, n := Rest(stores[0], agency, k), ClampLimit(limits[0]).value;
    if r in rest {
      ShownNow(stores, agency, k, r);
    } else {
      assert forall x :: x in rest[..n] ==> x in rest;
      ShownRowsExist(stores[1..], limits[1..], agency, Some(KeyOf(rest[n - 1])), r);
    }
  }

  lemma OneKeyPerId(rows: Rows, agency: Id, a: Key, b: Key)
    requires DistinctIds(rows) && HasKey(rows, agency, a) && HasKey(rows, agency, b)
    ensures a.id == b.id ==> a == b
  {
    var x :| x in rows && x.agency == agency && KeyOf(x) == a;
    var y :| y in rows && y.agency == agency && KeyOf(y) == b;
    SameIdSameRow(rows, x, y);
  }

  lemma {:induction false} EvolvedIdsDistinct(stores: seq<Rows>)
    requires stores != [] && Evolving(stores)
    ensures DistinctIds(Last(stores))
  {
    if |stores| > 1 { EvolvedIdsDistinct(stores[1..]); }
  }

  /**
   * A walk while others insert and update rows: strictly descending, no row twice, and, once finished, every row
   * that existed at the start.
   */
  lemma WalkIsExact(stores: seq<Rows>, limits: seq<Option<real>>, agency: Id)
    requires |stores| <= |limits| && Evolving(stores) && stores != []
    ensures var w := Walk(stores, limits, agency, None);
      && NewestFirst(w.items)
      && (forall i, j :: 0 <= i < j < |w.items| ==> w.items[i].id != w.items[j].id)
      && (w.done ==> forall r :: r in stores[0] && r.agency == agency ==> Shows(w.items, KeyOf(r)))
  {
    WalkIsRestWalk(stores, limits, agency, None);
    WalkDescends(stores, limits, agency, None);
    var w := Walk(stores, limits, agency, None);
    EvolvedIdsDistinct(stores);
    forall i, j | 0 <= i < j < |w.items| ensures w.items[i].id != w.items[j].id {
      assert Newer()(w.items[i], w.items[j]);
      ShownRowsExist(stores, limits, agency, None, w.items[i]);
      ShownRowsExist(stores, limits, agency, None, w.items[j]);
      OneKeyPerId(Last(stores), agency, KeyOf(w.items[i]), KeyOf(w.items[j]));
    }
    if w.done {
      forall r | r in stores[0] && r.agency == agency ensures Shows(w.items, KeyOf(r)) {
        WalkCovers(stores, limits, agency, None, r);
      }
    }
  }

  // ---- walks over a table at rest -------------------------------------------

  predicate AllAre(stores: seq<Rows>, rows: Rows) {
    stores == [] || (stores[0] == rows && AllAre(stores[1..], rows))
  }

  predicate AllOk(limits: seq<Option<real>>) {
    limits == [] || (ClampLimit(limits[0]).Ok? && AllOk(limits[1..]))
  }

  /** What a walk of at most `pages` pages makes of the rows ahead of it. */
  predicate CutsUp(w: Walked, rest: Rows, pages: nat) {
    && w.items <= rest
    && (w.done ==> w.items == rest)
    && (pages > |rest| ==> w.done)
  }

  lemma CutsUpNext(rest: Rows, n: nat, more: Walked, pages: nat)
    requires 1 <= n < |rest| && CutsUp(more, rest[n..], pages)
    ensures CutsUp(Walked(rest[..n] + more.items, more.done), rest, pages + 1)
  {
    assert rest == rest[..n] + rest[n..];
  }

  lemma RestAfterPage(rows: Rows, agency: Id, k: Option<Key>, n: nat)
    requires DistinctIds(rows) && 1 <= n < |Rest(rows, agency, k)|
    ensures var rest := Rest(rows, agency, k);
      Rest(rows, agency, Some(KeyOf(rest[n - 1]))) == rest[n..]
  {
    var rest := Rest(rows, agency, k);
    var last := rest[n - 1];
    RestIs(rows, agency, k);
    SliceIsAfter(rest, n - 1);
    assert last in rest;
    LaterStill(k, last);
    FilterTwice(Listing(rows, agency), k, Some(KeyOf(last)));
  }

  lemma LaterStill(k: Option<Key>, last: Record)
    requires After(k)(last)
    ensures forall r :: After(Some(KeyOf(last)))(r) ==> After(k)(r)
  {
  }

  lemma {:induction false} FilterTwice(list: Rows, k: Option<Key>, k': Option<Key>)
    requires forall r :: r in list && After(k')(r) ==> After(k)(r)
    ensures Filter(Filter(list, After(k)), After(k')) == Filter(list, After(k'))
  {
    if list != [] {
      FilterTwice(list[1..], k, k');
      if After(k)(list[0]) { assert Filter(list, After(k))[1..] == Filter(list[1..], After(k)); }
    }
  }

  /** With nothing changing, the pages of a walk are the rest of the list cut up; each page leaves fewer rows. */
  lemma {:induction false} RestingWalk(stores: seq<Rows>, limits: seq<Option<real>>, rows: Rows, agency: Id, k: Option<Key>)
    requires |stores| <= |limits| && AllAre(stores, rows) && DistinctIds(rows)
    requires AllOk(limits)
    ensures CutsUp(RestWalk(stores, limits, agency, k), Rest(rows, agency, k), |stores|)
  {
    if stores != [] {
      var rest, n := Rest(rows, agency, k), ClampLimit(limits[0]).value;
      if |rest| > n {
        RestAfterPage(rows, agency, k, n);
        RestingWalk(stores[1..], limits[1..], rows, agency, Some(KeyOf(rest[n - 1])));
        CutsUpNext(rest, n, RestWalk(stores[1..], limits[1..], agency, Some(KeyOf(rest[n - 1]))), |stores| - 1);
      }
    }
  }

  /** With nothing changing, a walk ends, and its pages together are the agency's whole list. */
  lemma WalkIsWholeList(stores: seq<Rows>, limits: seq<Option<real>>, rows: Rows, agency: Id)
    requires |stores| <= |limits| && AllAre(stores, rows) && DistinctIds(rows)
    requires AllOk(limits)
    requires |stores| > |Listing(rows, agency)|
    ensures Walk(stores, limits, agency, None) == Walked(Listing(rows, agency), true)
  {
    AllAfter(Listing(rows, agency), None);
    RestingStoresEvolve(stores, rows);
    WalkIsRestWalk(stores, limits, agency, None);
    RestingWalk(stores, limits, rows, agency, None);
  }

  lemma {:induction false} RestingStoresEvolve(stores: seq<Rows>, rows: Rows)
    requires AllAre(stores, rows) && DistinctIds(rows)
    ensures Evolving(stores)
  {
    if stores != [] {
      RestingStoresEvolve(stores[1..], rows);
      assert rows + [] == rows;
      AppendEvolves(rows, []);
    }
  }
}
