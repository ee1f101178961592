/** Version groups: what `versions` lists. */
module MediaVersions {
  import opened Seqs
  import opened StateMachine
  import opened Media
  import opened MediaInvariants

  /** The sort key of the version query. */
  function VersionOf(rows: Table, id: Id): nat {
    if id in rows then rows[id].version else 0
  }

  function ByVersion(rows: Table): (Id, Id) -> bool {
    (i: Id, j: Id) => VersionOf(rows, i) < VersionOf(rows, j)
  }

  function InGroup(rows: Table, agency: Id, g: Id): Id -> bool {
    (id: Id) => IsMember(rows, agency, g, id)
  }

  /** The store's version query over a table read in some row order: filter, then sort by version. */
  function ListVersions(rows: Table, order: seq<Id>, agency: Id, g: Id): seq<Id> {
    Sort(Filter(order, InGroup(rows, agency, g)), ByVersion(rows))
  }

  /** The service: not found, an ungrouped asset alone, or its whole group. */
  function Versions(rows: Table, order: seq<Id>, agency: Id, id: Id): Option<seq<Id>> {
    if !OfAgency(rows, agency, id) then None
    else if rows[id].group.None? then Some([id])
    else Some(ListVersions(rows, order, agency, rows[id].group.value))
  }

  /** The order in which a store happens to hold its rows. */
  ghost predicate IsOrderOf(order: seq<Id>, rows: Table) {
    NoDup(order) && forall id :: id in rows <==> id in order
  }

  /** Strictly increasing versions, and exactly the rows of group `g`. */
  ghost predicate IsGroupList(rows: Table, g: Id, list: seq<Id>) {
    && (forall id :: id in list <==> id in rows && GroupOf(rows, id) == g)
    && Ascending(list, ByVersion(rows))
  }

  lemma {:induction false} ListVersionsIsGroupList(rows: Table, order: seq<Id>, agency: Id, g: Id)
    requires TableOk(rows) && IsOrderOf(order, rows)
    requires forall i :: i in rows ==> (IsMember(rows, agency, g, i) <==> GroupOf(rows, i) == g)
    ensures IsGroupList(rows, g, ListVersions(rows, order, agency, g))
  {
    var members := Filter(order, InGroup(rows, agency, g));
    var list := ListVersions(rows, order, agency, g);
    FilterMembers(order, InGroup(rows, agency, g));
    FilterKeepsNoDup(order, InGroup(rows, agency, g));
    SortPermutes(members, ByVersion(rows));
    SortSorts(members, ByVersion(rows));
    NoDupPermutes(members, list);
    forall id ensures id in list <==> id in rows && GroupOf(rows, id) == g {
      assert id in list <==> id in multiset(list);
      assert id in members <==> id in multiset(members);
    }
    forall i, j | 0 <= i < j < |list| ensures ByVersion(rows)(list[i], list[j]) {
      assert list[i] in list && list[j] in list;
      assert GroupOk(rows, list[i], list[j]);
    }
  }

  /** Every row lists its whole group, in strictly increasing version order. */
  lemma VersionsIsGroupList(lib: Library, order: seq<Id>, agency: Id, id: Id)
    requires WellFormed(lib) && TableOk(lib.rows) && IsOrderOf(order, lib.rows) && OfAgency(lib.rows, agency, id)
    ensures var list := Versions(lib.rows, order, agency, id);
      list.Some? && IsGroupList(lib.rows, GroupOf(lib.rows, id), list.value)
    ensures var rows, list := lib.rows, Versions(lib.rows, order, agency, id).value;
      var g := if rows[id].group.Some? then rows[id].group.value else id;
      && (forall i :: i in list <==> i in rows && (if rows[i].group.Some? then rows[i].group.value else i) == g)
      && forall i, j :: 0 <= i < j < |list| ==> rows[list[i]].version < rows[list[j]].version
  {
    var rows := lib.rows;
    if rows[id].group.Some? {
      var g := rows[id].group.value;
      MembersAreGroup(rows, id, g, agency);
      ListVersionsIsGroupList(rows, order, agency, g);
    } else {
      forall i | i in rows && GroupOf(rows, i) == id ensures i == id {
        assert GroupOk(rows, i, id);
      }
    }
  }

  lemma GroupListIsUnique(rows: Table, g: Id, a: seq<Id>, b: seq<Id>)
    requires IsGroupList(rows, g, a) && IsGroupList(rows, g, b)
    ensures a == b
  {
    NoDupSameMembers(a, b);
    SortedUnique(a, b, ByVersion(rows));
  }

  lemma NoDupSameMembers<T>(a: seq<T>, b: seq<T>)
    requires NoDup(a) && NoDup(b) && forall x :: x in a <==> x in b
    ensures multiset(a) == multiset(b)
  {
    NoDupCount(a);
    NoDupCount(b);
    forall x ensures multiset(a)[x] == multiset(b)[x] {
      assert x in a <==> x in multiset(a);
      assert x in b <==> x in multiset(b);
    }
  }

  /**
   * In every reachable library, any two members of a version group list the same versions, however the store
   * orders its rows; what was purged before, the anchor row included, makes no difference.
   */
  lemma MembersListTheSame(calls: seq<Call>, order: seq<Id>, order': seq<Id>, agency: Id, i: Id, j: Id)
    requires var rows := History(calls).rows;
      && IsOrderOf(order, rows) && IsOrderOf(order', rows)
      && OfAgency(rows, agency, i) && j in rows && GroupOf(rows, i) == GroupOf(rows, j)
    ensures var rows := History(calls).rows;
      Versions(rows, order, agency, i).Some? && Versions(rows, order, agency, i) == Versions(rows, order', agency, j)
  {
    var lib := History(calls);
    ReachableIsSound(calls);
    assert GroupOk(lib.rows, i, j);
    VersionsIsGroupList(lib, order, agency, i);
    VersionsIsGroupList(lib, order', agency, j);
    GroupListIsUnique(lib.rows, GroupOf(lib.rows, i), Versions(lib.rows, order, agency, i).value,
                      Versions(lib.rows, order', agency, j).value);
  }

  function Outside(gone: set<Id>): Id -> bool {
    (i: Id) => i !in gone
  }

  lemma RestIsGroupList(rows: Table, gone: set<Id>, g: Id, list: seq<Id>)
    requires IsGroupList(rows, g, list)
    ensures IsGroupList(rows - gone, g, Filter(list, Outside(gone)))
  {
    var rest, kept := rows - gone, Filter(list, Outside(gone));
    FilterAscends(list, Outside(gone), rows);
    FilterMembers(list, Outside(gone));
    forall i, j | 0 <= i < j < |kept| ensures ByVersion(rest)(kept[i], kept[j]) {
      assert ByVersion(rows)(kept[i], kept[j]);
      assert kept[i] in rest && kept[j] in rest;
    }
    forall id ensures id in kept <==> id in rest && GroupOf(rest, id) == g {
      assert id in rest ==> rest[id] == rows[id];
    }
  }

  /**
   * Purging any members, the anchor row included, removes exactly them from the list of every surviving member;
   * the rest keep their order.
   */
  lemma PurgeOnlyShortensTheList(lib: Library, gone: set<Id>, order: seq<Id>, order': seq<Id>, agency: Id, id: Id)
    requires Sound(lib) && OfAgency(lib.rows, agency, id) && id !in gone
    requires IsOrderOf(order, lib.rows) && IsOrderOf(order', lib.rows - gone)
    ensures var list := Versions(lib.rows, order, agency, id);
      && list.Some?
      && Versions(lib.rows - gone, order', agency, id) == Some(Filter(list.value, Outside(gone)))
  {
    var rest, g := lib.rows - gone, GroupOf(lib.rows, id);
    VersionsIsGroupList(lib, order, agency, id);
    var list := Versions(lib.rows, order, agency, id).value;
    RestIsGroupList(lib.rows, gone, g, list);
    ShrunkIsOk(lib.rows, rest);
    ShrunkIsWellFormed(lib, rest);
    VersionsIsGroupList(lib.(rows := rest), order', agency, id);
    GroupListIsUnique(rest, g, Versions(rest, order', agency, id).value, Filter(list, Outside(gone)));
  }

  lemma {:induction false} FilterAscends(list: seq<Id>, p: Id -> bool, rows: Table)
    requires Ascending(list, ByVersion(rows))
    ensures Ascending(Filter(list, p), ByVersion(rows))
  {
    if list != [] {
      FilterAscends(list[1..], p, rows);
      FilterMembers(list[1..], p);
      assert forall i :: i in list[1..] ==> ByVersion(rows)(list[0], i);
    }
  }
}
