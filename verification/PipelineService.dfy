/**
 * The pipeline's operations as the program runs them when nothing interferes: each method updates the stores in
 * place, and its contract is the outcome a caller sees. PipelineAlone connects them to the protocol.
 */
module PipelineService {
  import opened Errors
  import opened Seqs
  import opened StateMachine
  import opened Pipeline

  type Outcome = Result<()>
  datatype JobOutcome = JobReturned | JobThrew(err: Failure)

  // ---- specifications -------------------------------------------------------

  function WithStatus(items: map<Id, Item>, x: Id, status: ItemStatus): map<Id, Item> {
    if x in items then items[x := items[x].(status := status)] else items
  }

  /** ComplianceService.assertApprovable. */
  function GateOutcome(items: map<Id, Item>, configs: map<Id, Config>, fallback: Config, agency: Id, x: Id): Outcome {
    var found := Find(items, ByAgency(agency), x);
    if found.None? then Err(NotFound)
    else if Complies(found.value.copy, ConfigOf(configs, fallback, agency)) then Ok(())
    else Err(Validation)
  }

  /** How ApprovalService.move answers. */
  function MoveOutcome(items: map<Id, Item>, configs: map<Id, Config>, fallback: Config, agency: Id, x: Id,
                       to: ItemStatus): Outcome {
    var found := Find(items, ByAgency(agency), x);
    if found.None? then Err(NotFound)
    else if !CanTransition(found.value.status, to) then Err(Conflict)
    else if to == Approved then GateOutcome(items, configs, fallback, agency, x)
    else Ok(())
  }

  /** How ReviewService.decide answers. */
  function DecideOutcome(items: map<Id, Item>, configs: map<Id, Config>, fallback: Config, share: Option<Share>, x: Id,
                         approve: bool, comment: string): Outcome {
    if share.None? || Find(items, ByClient(share.value.client), x).None? then Err(NotFound)
    else if !DecisionAccepted(Find(items, ByClient(share.value.client), x).value, approve, comment) then Err(Validation)
    else if approve then GateOutcome(items, configs, fallback, share.value.agency, x)
    else Ok(())
  }

  /** How the publish route answers while the queue takes the job: an approved or failed item of the account's client. */
  function PublishOutcome(items: map<Id, Item>, accounts: map<Id, Account>, data: Payload): Outcome {
    var account, found := FindAccount(accounts, data.agency, data.account), Find(items, ByAgency(data.agency), data.item);
    if account.None? || found.None? then Err(NotFound)
    else if found.value.client != account.value.client then Err(Validation)
    else if !CanTransition(found.value.status, Scheduled) then Err(Conflict)
    else Ok(())
  }

  /**
   * Both ways into `approved` are gated alike: for an item in review, the approval service and the client's reviewer
   * answer the same, and they approve exactly an item whose copy complies with the agency's configuration.
   */
  lemma ApprovalPathsAgree(items: map<Id, Item>, configs: map<Id, Config>, fallback: Config, share: Share, x: Id, comment: string)
    requires x in items && items[x].status == InReview && items[x].agency == share.agency && items[x].client == share.client
    requires |comment| <= MaxCommentLength
    ensures MoveOutcome(items, configs, fallback, share.agency, x, Approved)
         == DecideOutcome(items, configs, fallback, Some(share), x, true, comment)
    ensures MoveOutcome(items, configs, fallback, share.agency, x, Approved).Ok?
         <==> Complies(items[x].copy, ConfigOf(configs, fallback, share.agency))
  {
  }

  /** Nothing that either way approves breaks a rule, whatever the item, the link or the comment. */
  lemma OnlyCompliantIsApproved(items: map<Id, Item>, configs: map<Id, Config>, fallback: Config, agency: Id,
                                share: Option<Share>, x: Id, comment: string)
    ensures MoveOutcome(items, configs, fallback, agency, x, Approved).Ok? ==>
      x in items && items[x].agency == agency && Complies(items[x].copy, ConfigOf(configs, fallback, agency))
    ensures DecideOutcome(items, configs, fallback, share, x, true, comment).Ok? ==>
      && x in items && items[x].agency == share.value.agency
      && Complies(items[x].copy, ConfigOf(configs, fallback, share.value.agency))
  {
  }

  /** Does the worker get as far as opening a job row? Otherwise it throws or returns before any write. */
  predicate OpensRow(items: map<Id, Item>, accounts: map<Id, Account>, data: Payload) {
    && FindAccount(accounts, data.agency, data.account).Some?
    && Find(items, ByAgency(data.agency), data.item).Some?
    && Find(items, ByAgency(data.agency), data.item).value.status != Published
  }

  /** What the try block of an opened job comes to: nothing thrown, or the error it throws. */
  function TryResult(client: Id, seen: Item, post: PostResult): PostResult {
    if seen.client != client then PostError(AppFailure(Validation))
    else if seen.status != Scheduled then PostError(AppFailure(Conflict))
    else if seen.copy.None? || seen.copy.value.caption == "" then PostError(AppFailure(Validation))
    else post
  }

  function JobTry(items: map<Id, Item>, accounts: map<Id, Account>, data: Payload, post: PostResult): PostResult
    requires OpensRow(items, accounts, data)
  {
    TryResult(FindAccount(accounts, data.agency, data.account).value.client,
              Find(items, ByAgency(data.agency), data.item).value, post)
  }

  /** The item's status after a handler that opened a row. */
  function StatusAfterJob(before: ItemStatus, result: PostResult, final: bool): ItemStatus {
    if before != Scheduled then before
    else match result
      case PostOk => Published
      case PostError(err) => if !IsRetryable(err) || final then Failed else Scheduled
  }

  function JobOutcomeOf(items: map<Id, Item>, accounts: map<Id, Account>, data: Payload, post: PostResult): JobOutcome {
    if FindAccount(accounts, data.agency, data.account).None? then JobThrew(AppFailure(NotFound))
    else if Find(items, ByAgency(data.agency), data.item).None? then JobThrew(AppFailure(NotFound))
    else if !OpensRow(items, accounts, data) then JobReturned
    else match JobTry(items, accounts, data, post)
      case PostOk => JobReturned
      case PostError(err) => JobThrew(err)
  }

  function ItemsAfterJob(items: map<Id, Item>, accounts: map<Id, Account>, data: Payload, final: bool,
                         post: PostResult): map<Id, Item> {
    if OpensRow(items, accounts, data)
    then WithStatus(items, data.item,
                    StatusAfterJob(items[data.item].status, JobTry(items, accounts, data, post), final))
    else items
  }

  function RowsAfterJob(items: map<Id, Item>, accounts: map<Id, Account>, rows: seq<Row>, worker: ProcId,
                        data: Payload, post: PostResult): seq<Row> {
    if OpensRow(items, accounts, data)
    then rows + [Row(data.item, worker,
                     if JobTry(items, accounts, data, post).PostOk? then RowPublished else RowFailed)]
    else rows
  }

  /** The worker reaches the platform: account and item are there, and the checks of the try block pass. */
  predicate Deliverable(items: map<Id, Item>, accounts: map<Id, Account>, data: Payload) {
    && OpensRow(items, accounts, data)
    && PreflightPasses(FindAccount(accounts, data.agency, data.account).value.client,
                       Find(items, ByAgency(data.agency), data.item).value)
  }

  predicate WorthRetrying(answer: PostResult) {
    answer.PostError? && IsRetryable(answer.err)
  }

  function AllFailed(x: Id, worker: ProcId, n: nat): seq<Row> {
    seq(n, _ => Row(x, worker, RowFailed))
  }

  /** One row per attempt, all failed except a last one that succeeded; none left posting. */
  function AttemptRows(x: Id, worker: ProcId, n: nat, ok: bool): seq<Row>
    requires n >= 1
  {
    AllFailed(x, worker, n - 1) + [Row(x, worker, if ok then RowPublished else RowFailed)]
  }

  lemma AttemptRowsNext(x: Id, worker: ProcId, n: nat)
    ensures AllFailed(x, worker, n + 1) == AllFailed(x, worker, n) + [Row(x, worker, RowFailed)]
    ensures forall rows :: rows + AllFailed(x, worker, n + 1) == rows + AllFailed(x, worker, n) + [Row(x, worker, RowFailed)]
  {
  }

  // ---- the due query --------------------------------------------------------

  /** Due items in table order, earliest first: filter, stable sort by due time, cut at the limit. */
  function DueItems(items: map<Id, Item>, table: seq<Id>, now: int, limit: nat, only: Option<Id>): (r: seq<Payload>)
    ensures |r| <= limit
  {
    var due := Filter(table, x => IsDue(items, now, only, x));
    var sorted := Sort(due, (x, y) => DueTime(items, x) < DueTime(items, y));
    Map(Take(sorted, limit), x => PayloadOf(items, x))
  }

  function DueTime(items: map<Id, Item>, x: Id): int {
    if x in items && items[x].due.Some? then items[x].due.value else 0
  }

  function PayloadOf(items: map<Id, Item>, x: Id): Payload {
    if x in items && items[x].target.Some? then Payload(items[x].agency, x, items[x].target.value)
    else Payload(0, x, 0)
  }

  function DueSorted(items: map<Id, Item>, table: seq<Id>, now: int, only: Option<Id>): seq<Id> {
    Sort(Filter(table, x => IsDue(items, now, only, x)), (x, y) => DueTime(items, x) < DueTime(items, y))
  }

  lemma DueSortedFacts(items: map<Id, Item>, table: seq<Id>, now: int, only: Option<Id>)
    requires NoDup(table) && forall x :: x in items ==> x in table
    ensures var s := DueSorted(items, table, now, only);
      && NoDup(s)
      && (forall k :: 0 <= k < |s| ==> IsDue(items, now, only, s[k]))
      && (forall x :: IsDue(items, now, only, x) ==> x in s)
      && (forall j, k :: 0 <= j < k < |s| ==> DueTime(items, s[j]) <= DueTime(items, s[k]))
  {
    var p := x => IsDue(items, now, only, x);
    var lt := (x: Id, y: Id) => DueTime(items, x) < DueTime(items, y);
    var due, s := Filter(table, p), DueSorted(items, table, now, only);
    FilterMembers(table, p);
    SortPermutes(due, lt);
    SortSorts(due, lt);
    FilterKeepsNoDup(table, p);
    NoDupPermutes(due, s);
    forall k | 0 <= k < |s| ensures IsDue(items, now, only, s[k]) {
      assert s[k] in multiset(s);
      assert s[k] in due;
    }
    forall x | IsDue(items, now, only, x) ensures x in s {
      assert p(x) && x in due;
      assert x in multiset(s);
    }
    forall j, k | 0 <= j < k < |s| ensures DueTime(items, s[j]) <= DueTime(items, s[k]) {
      assert !lt(s[k], s[j]);
    }
  }

  /** The query answers what the protocol asks of it, whatever the row order of the table. */
  lemma DueItemsIsDueList(items: map<Id, Item>, table: seq<Id>, now: int, limit: nat, only: Option<Id>)
    requires NoDup(table) && forall x :: x in items ==> x in table
    ensures IsDueList(items, now, limit, only, DueItems(items, table, now, limit, only))
    ensures forall d :: d in DueItems(items, table, now, limit, only) ==>
      && d.item in items && items[d.item].status == Approved && items[d.item].due.Some? && items[d.item].due.value <= now
      && items[d.item].target == Some(d.account) && items[d.item].agency == d.agency && (only.None? || d.agency == only.value)
  {
    var s, r := DueSorted(items, table, now, only), DueItems(items, table, now, limit, only);
    DueSortedFacts(items, table, now, only);
    assert forall k :: 0 <= k < |r| ==> r[k] == PayloadOf(items, s[k]) && r[k].item == s[k];
    forall x | IsDue(items, now, only, x)
      ensures (exists k :: 0 <= k < |r| && r[k].item == x)
           || (|r| == limit && forall k :: 0 <= k < |r| ==> items[r[k].item].due.value <= items[x].due.value)
    {
      var k :| 0 <= k < |s| && s[k] == x;
      if k < |r| { assert r[k].item == x; }
    }
  }

  // ---- one uninterrupted tick -----------------------------------------------

  function ScheduleAll(items: map<Id, Item>, list: seq<Payload>): map<Id, Item> {
    if list == [] then items
    else WithStatus(ScheduleAll(items, list[..|list| - 1]), Last(list).item, Scheduled)
  }

  function Accepted(list: seq<Payload>, refused: set<Id>): seq<Payload> {
    Filter(list, (d: Payload) => d.item !in refused)
  }

  function AsSet(list: seq<Payload>): set<Payload> {
    set d | d in list
  }

  function ItemsOf(list: seq<Payload>): seq<Id> {
    Map(list, (d: Payload) => d.item)
  }

  /** Exactly the listed items become scheduled. */
  lemma {:induction false} ScheduleAllIs(items: map<Id, Item>, list: seq<Payload>)
    ensures var t := ScheduleAll(items, list);
      t.Keys == items.Keys
      && forall x :: x in items ==>
           t[x] == if x in ItemsOf(list) then items[x].(status := Scheduled) else items[x]
  {
    if list != [] {
      var init := list[..|list| - 1];
      ScheduleAllIs(items, init);
      assert ItemsOf(list) == ItemsOf(init) + [Last(list).item];
    }
  }

  /** After the items before it were scheduled, item `i` of the list is still approved. */
  predicate Claimable(items: map<Id, Item>, list: seq<Payload>, i: nat)
    requires i < |list|
  {
    Matches(ScheduleAll(items, list[..i]), ByAgency(list[i].agency), list[i].item, Approved)
  }

  /** An item further down the due list is still waiting to be claimed. */
  lemma StillDue(items: map<Id, Item>, table: seq<Id>, now: int, limit: nat, only: Option<Id>, i: nat)
    requires NoDup(table) && forall x :: x in items ==> x in table
    requires i < |DueItems(items, table, now, limit, only)|
    ensures Claimable(items, DueItems(items, table, now, limit, only), i)
  {
    DueItemsIsDueList(items, table, now, limit, only);
    DueIsClaimable(items, now, limit, only, DueItems(items, table, now, limit, only), i);
  }

  lemma DueIsClaimable(items: map<Id, Item>, now: int, limit: nat, only: Option<Id>, list: seq<Payload>, i: nat)
    requires IsDueList(items, now, limit, only, list) && i < |list|
    ensures Claimable(items, list, i)
  {
    ScheduleAllIs(items, list[..i]);
    assert IsDue(items, now, only, list[i].item);
    assert list[i].item !in ItemsOf(list[..i]);
  }

  lemma AcceptedOrRefused(list: seq<Payload>, refused: set<Id>)
    ensures AsSet(list) == AsSet(Accepted(list, refused)) + set d | d in list && d.item in refused
  {
    FilterMembers(list, (d: Payload) => d.item !in refused);
  }

  lemma AcceptedNext(list: seq<Payload>, refused: set<Id>, i: nat)
    requires i < |list|
    ensures Accepted(list[..i + 1], refused)
         == Accepted(list[..i], refused) + (if list[i].item in refused then [] else [list[i]])
    ensures ItemsOf(Accepted(list[..i + 1], refused))
         == ItemsOf(Accepted(list[..i], refused)) + (if list[i].item in refused then [] else [list[i].item])
    ensures AsSet(Accepted(list[..i + 1], refused))
         == AsSet(Accepted(list[..i], refused)) + (if list[i].item in refused then {} else {list[i]})
  {
    assert list[..i + 1] == list[..i] + [list[i]];
    FilterAppend(list[..i], [list[i]], (d: Payload) => d.item !in refused);
    assert [list[i]][1..] == [];
  }

  lemma ListedAreDue(items: map<Id, Item>, now: int, limit: nat, only: Option<Id>, list: seq<Payload>, x: Id)
    requires IsDueList(items, now, limit, only, list) && x in ItemsOf(list)
    ensures IsDue(items, now, only, x)
  {
    var k :| 0 <= k < |list| && ItemsOf(list)[k] == x;
    assert list[k].item == x;
  }

  /** Scheduling a due list changes exactly its items, which are due before. */
  lemma ScheduledAre(items: map<Id, Item>, now: int, limit: nat, only: Option<Id>, list: seq<Payload>)
    requires IsDueList(items, now, limit, only, list)
    ensures var t := ScheduleAll(items, list);
      && t.Keys == items.Keys
      && (forall x :: x in ItemsOf(list) ==> IsDue(items, now, only, x))
      && (forall x :: x in items ==> (t[x] != items[x] <==> x in ItemsOf(list)))
      && (forall x :: x in items && t[x] != items[x] ==> t[x] == items[x].(status := Scheduled))
  {
    ScheduleAllIs(items, list);
    forall x | x in ItemsOf(list) ensures IsDue(items, now, only, x) {
      ListedAreDue(items, now, limit, only, list, x);
    }
  }

  /** A due item that is not listed is due no earlier than the listed ones, which use up the limit. */
  lemma NotListed(items: map<Id, Item>, now: int, limit: nat, only: Option<Id>, list: seq<Payload>, x: Id)
    requires IsDueList(items, now, limit, only, list) && IsDue(items, now, only, x) && x !in ItemsOf(list)
    ensures |list| == limit
    ensures forall y :: y in ItemsOf(list) ==> y in items && items[y].due.Some? && items[y].due.value <= items[x].due.value
  {
    forall k | 0 <= k < |list| ensures list[k].item != x {
      assert ItemsOf(list)[k] == list[k].item;
    }
    forall y | y in ItemsOf(list) ensures y in items && items[y].due.Some? && items[y].due.value <= items[x].due.value {
      var k :| 0 <= k < |list| && ItemsOf(list)[k] == y;
      assert list[k].item == y;
    }
  }

  /** The items that differ. */
  ghost function Changed(before: map<Id, Item>, after: map<Id, Item>): set<Id> {
    set x | x in before && x in after && before[x] != after[x]
  }

  lemma ScheduledCount(items: map<Id, Item>, now: int, limit: nat, only: Option<Id>, list: seq<Payload>)
    requires IsDueList(items, now, limit, only, list)
    ensures |Changed(items, ScheduleAll(items, list))| == |list|
  {
    var ids := ItemsOf(list);
    ScheduledAre(items, now, limit, only, list);
    NoDupSize(ids);
    assert Changed(items, ScheduleAll(items, list)) == Elements(ids);
  }

  /**
   * What a tick does to the items: it schedules approved items with a target whose time has come, of the agency it is for,
   * and leaves one out only if it schedules `limit` others that are due no later.
   */
  ghost predicate SchedulesDue(before: map<Id, Item>, after: map<Id, Item>, now: int, limit: nat, only: Option<Id>) {
    && after.Keys == before.Keys && |Changed(before, after)| <= limit
    && (forall x :: x in Changed(before, after) ==>
          && after[x] == before[x].(status := Scheduled)
          && before[x].status == Approved && before[x].target.Some?
          && before[x].due.Some? && before[x].due.value <= now
          && (only.None? || before[x].agency == only.value))
    && (forall x :: x in before && x !in Changed(before, after) && before[x].status == Approved && before[x].target.Some?
                    && before[x].due.Some? && before[x].due.value <= now && (only.None? || before[x].agency == only.value) ==>
          && |Changed(before, after)| == limit
          && forall y :: y in Changed(before, after) ==> before[y].due.value <= before[x].due.value)
  }

  lemma ScheduledInFields(items: map<Id, Item>, now: int, limit: nat, only: Option<Id>, list: seq<Payload>)
    requires IsDueList(items, now, limit, only, list)
    ensures SchedulesDue(items, ScheduleAll(items, list), now, limit, only)
    ensures |Changed(items, ScheduleAll(items, list))| == |list|
  {
    var t := ScheduleAll(items, list);
    ScheduledAre(items, now, limit, only, list);
    ScheduledCount(items, now, limit, only, list);
    forall x | x in Changed(items, t) ensures IsDue(items, now, only, x) {
      ListedAreDue(items, now, limit, only, list, x);
    }
    forall x | IsDue(items, now, only, x) && x !in Changed(items, t)
      ensures |list| == limit && forall y :: y in Changed(items, t) ==> items[y].due.value <= items[x].due.value
    {
      NotListed(items, now, limit, only, list, x);
    }
  }

  /** What is reported and queued of a due list: its items that were not refused, with their own agency and target. */
  lemma ReportedAre(items: map<Id, Item>, now: int, limit: nat, only: Option<Id>, list: seq<Payload>, refused: set<Id>)
    requires IsDueList(items, now, limit, only, list)
    ensures var ids := ItemsOf(Accepted(list, refused));
      && NoDup(ids)
      && (forall x :: x in ids <==> x in ItemsOf(list) && x !in refused)
      && forall d :: d in AsSet(Accepted(list, refused)) <==>
           d.item in ids && d.item in items && d.agency == items[d.item].agency && items[d.item].target == Some(d.account)
  {
    var kept, ids := Accepted(list, refused), ItemsOf(Accepted(list, refused));
    FilterMembers(list, (d: Payload) => d.item !in refused);
    FilterKeepsNoDup(ItemsOf(list), (x: Id) => x !in refused);
    FilterMap(list, (d: Payload) => d.item, (d: Payload) => d.item !in refused, (x: Id) => x !in refused);
    FilterMembers(ItemsOf(list), (x: Id) => x !in refused);
    forall d ensures d in AsSet(kept) <==>
      d.item in ids && d.item in items && d.agency == items[d.item].agency && items[d.item].target == Some(d.account)
    {
      if d in kept {
        var k :| 0 <= k < |kept| && kept[k] == d;
        assert ids[k] == d.item;
        assert d in list;
      }
      if d.item in ids {
        var k :| 0 <= k < |kept| && ids[k] == d.item;
        assert kept[k] in list && kept[k].item == d.item;
      }
    }
  }

  /** The same in terms of what the tick changes. */
  lemma ReportedInFields(items: map<Id, Item>, queue: set<Payload>, now: int, limit: nat, only: Option<Id>, list: seq<Payload>,
                         refused: set<Id>)
    requires IsDueList(items, now, limit, only, list)
    ensures var t, ids := ScheduleAll(items, list), ItemsOf(Accepted(list, refused));
      && NoDup(ids)
      && (forall x :: x in ids <==> x in Changed(items, t) && x !in refused)
      && forall d :: d in queue + AsSet(Accepted(list, refused)) <==>
           || d in queue
           || (d.item in ids && d.item in items && d.agency == items[d.item].agency && items[d.item].target == Some(d.account))
  {
    ScheduledAre(items, now, limit, only, list);
    ReportedAre(items, now, limit, only, list, refused);
  }

  lemma ScheduleNext(items: map<Id, Item>, list: seq<Payload>, i: nat)
    requires i < |list|
    ensures ScheduleAll(items, list[..i + 1]) == WithStatus(ScheduleAll(items, list[..i]), list[i].item, Scheduled)
  {
    assert list[..i + 1][..i] == list[..i];
  }

  // ---- the running program --------------------------------------------------

  class Backend {
    var items: map<Id, Item>
    var accounts: map<Id, Account>
    var shares: map<Token, Share>
    var configs: map<Id, Config>
    const fallback: Config
    var queue: set<Payload>
    var rows: seq<Row>
    var comments: seq<(Id, string)>

    constructor (fallback: Config)
      ensures this.fallback == fallback
      ensures items == map[] && accounts == map[] && shares == map[] && configs == map[]
      ensures queue == {} && rows == [] && comments == []
    {
      this.fallback := fallback;
      items, accounts, shares, configs := map[], map[], map[], map[];
      queue, rows, comments := {}, [], [];
    }

    /** The store's conditional update. */
    method Transition(scope: Scope, x: Id, from: ItemStatus, to: ItemStatus) returns (moved: bool)
      modifies this`items
      ensures moved == Matches(old(items), scope, x, from)
      ensures moved <==>
        && x in old(items) && old(items)[x].status == from
        && match scope
           case ByAgency(agency) => old(items)[x].agency == agency
           case ByClient(client) => old(items)[x].client == client
      ensures items == if moved then old(items)[x := old(items)[x].(status := to)] else old(items)
    {
      moved := Matches(items, scope, x, from);
      if moved {
        items := items[x := items[x].(status := to)];
      }
    }

    /** The gate lets through exactly an item of the agency whose copy complies with its configuration. */
    method AssertApprovable(agency: Id, x: Id) returns (r: Outcome)
      ensures r == GateOutcome(items, configs, fallback, agency, x)
      ensures r == Err(NotFound) <==> !(x in items && items[x].agency == agency)
      ensures r.Ok? <==>
        && x in items && items[x].agency == agency
        && var config := if agency in configs then configs[agency] else fallback;
        !(config.enabled && items[x].copy.Some? && config.blocks(items[x].copy.value))
      ensures r.Err? ==> r.code == NotFound || r.code == Validation
    {
      var found := Find(items, ByAgency(agency), x);
      if found.None? {
        return Err(NotFound);
      }
      var config := if agency in configs then configs[agency] else fallback;
      if config.enabled {
        if found.value.copy.Some? && config.blocks(found.value.copy.value) {
          return Err(Validation);
        }
      }
      return Ok(());
    }

    /**
     * ApprovalService.move: submit, approve, reject and schedule differ only in `to`. A conflict is a pair of statuses
     * outside the table, a validation error a blocked copy on its way to approved; else exactly the item's status changes.
     */
    method Move(agency: Id, x: Id, to: ItemStatus) returns (r: Outcome)
      modifies this`items
      ensures r == MoveOutcome(old(items), configs, fallback, agency, x, to)
      ensures items == if r.Ok? then WithStatus(old(items), x, to) else old(items)
      ensures r == Err(NotFound) <==> !(x in old(items) && old(items)[x].agency == agency)
      ensures x in old(items) && old(items)[x].agency == agency ==>
        (r != Err(Conflict) <==>
           match old(items)[x].status
           case Draft => to == InReview
           case InReview => to == Approved || to == Draft
           case Approved => to == Scheduled || to == Draft
           case Scheduled => to == Published || to == Failed || to == Approved
           case Published => false
           case Failed => to == Scheduled || to == Draft)
      ensures r == Err(Validation) <==>
        && x in old(items) && old(items)[x].agency == agency && to == Approved
        && (old(items)[x].status == InReview || old(items)[x].status == Scheduled)
        && var config := if agency in configs then configs[agency] else fallback;
        config.enabled && old(items)[x].copy.Some? && config.blocks(old(items)[x].copy.value)
      ensures r.Err? ==> r.code == NotFound || r.code == Conflict || r.code == Validation
      ensures items.Keys == old(items).Keys && forall y :: y in items ==>
        items[y] == if r.Ok? && y == x then old(items)[y].(status := to) else old(items)[y]
    {
      var found := Find(items, ByAgency(agency), x);
      if found.None? {
        return Err(NotFound);
      }
      var from := found.value.status;
      if !CanTransition(from, to) {
        return Err(Conflict);
      }
      if to == Approved {
        var gate := AssertApprovable(agency, x);
        if gate.Err? {
          return gate;
        }
      }
      var moved := Transition(ByAgency(agency), x, from, to);
      if !moved {
        return Err(Conflict);
      }
      return Ok(());
    }

    /**
     * ReviewService.decide; `comment` is trimmed, "" when there is none. The link must be live and the item its
     * client's; the item in review, the comment of at most 2000 characters and there when changes are asked for; and an
     * approved copy not blocked.
     */
    method Decide(token: Token, x: Id, approve: bool, comment: string) returns (r: Outcome)
      modifies this`items, this`comments
      ensures r == DecideOutcome(old(items), configs, fallback, if token in shares then Some(shares[token]) else None,
                                 x, approve, comment)
      ensures items == if r.Ok? then WithStatus(old(items), x, if approve then Approved else Draft) else old(items)
      ensures comments == if r.Ok? && comment != "" then old(comments) + [(x, comment)] else old(comments)
      ensures !(token in shares && x in old(items) && old(items)[x].client == shares[token].client) ==> r == Err(NotFound)
      ensures token in shares && x in old(items) && old(items)[x].client == shares[token].client ==>
        (r.Ok? <==>
           && old(items)[x].status == InReview && |comment| <= 2000 && (approve || comment != "")
           && (approve ==>
                 && old(items)[x].agency == shares[token].agency
                 && var config := if shares[token].agency in configs then configs[shares[token].agency] else fallback;
                 !(config.enabled && old(items)[x].copy.Some? && config.blocks(old(items)[x].copy.value))))
      ensures items.Keys == old(items).Keys && forall y :: y in items ==>
        items[y] == if r.Ok? && y == x then old(items)[y].(status := if approve then Approved else Draft) else old(items)[y]
    {
      if token !in shares {
        return Err(NotFound);
      }
      var share := shares[token];
      var found := Find(items, ByClient(share.client), x);
      if found.None? {
        return Err(NotFound);
      }
      if found.value.status != InReview || |comment| > MaxCommentLength {
        return Err(Validation);
      }
      if !approve && comment == "" {
        return Err(Validation);
      }
      if approve {
        var gate := AssertApprovable(share.agency, x);
        if gate.Err? {
          return gate;
        }
      }
      var moved := Transition(ByClient(share.client), x, InReview, if approve then Approved else Draft);
      if !moved {
        return Err(Validation);
      }
      if comment != "" {
        comments := comments + [(x, comment)];
      }
      return Ok(());
    }

    /**
     * POST publish: schedule through the approval service, then enqueue, which may throw. It goes through exactly for an
     * approved or failed item of the agency and of the client of one of the agency's accounts.
     */
    method Publish(data: Payload, enqueueError: Option<ErrorCode>) returns (r: Outcome)
      modifies this`items, this`queue
      ensures var answer := PublishOutcome(old(items), accounts, data);
        && items == (if answer.Ok? then WithStatus(old(items), data.item, Scheduled) else old(items))
        && queue == (if answer.Ok? && enqueueError.None? then old(queue) + {data} else old(queue))
        && r == (if answer.Ok? && enqueueError.Some? then Err(enqueueError.value) else answer)
      ensures var scheduled :=
          && data.account in accounts && accounts[data.account].agency == data.agency
          && data.item in old(items) && old(items)[data.item].agency == data.agency
          && old(items)[data.item].client == accounts[data.account].client
          && (old(items)[data.item].status == Approved || old(items)[data.item].status == Failed);
        && (r.Ok? <==> scheduled && enqueueError.None?)
        && (scheduled && enqueueError.Some? ==> r == Err(enqueueError.value))
        && queue == (if r.Ok? then old(queue) + {data} else old(queue))
        && items.Keys == old(items).Keys && forall y :: y in items ==>
             items[y] == if scheduled && y == data.item then old(items)[y].(status := Scheduled) else old(items)[y]
    {
      var account := FindAccount(accounts, data.agency, data.account);
      if account.None? {
        return Err(NotFound);
      }
      var found := Find(items, ByAgency(data.agency), data.item);
      if found.None? {
        return Err(NotFound);
      }
      if found.value.client != account.value.client {
        return Err(Validation);
      }
      var moved := Move(data.agency, data.item, Scheduled);
      if moved.Err? {
        return moved;
      }
      if enqueueError.Some? {
        return Err(enqueueError.value);
      }
      queue := queue + {data};
      return Ok(());
    }

    /**
     * SchedulerService.tick with nothing beside it: every due item is scheduled, those whose enqueue did not
     * throw are queued and reported, in due order; a failing enqueue does not stop the rest.
     */
    method Tick(table: seq<Id>, now: int, limit: nat, only: Option<Id>, refused: set<Id>)
      returns (due: nat, scheduled: nat, itemIds: seq<Id>)
      requires NoDup(table) && forall x :: x in items ==> x in table
      modifies this`items, this`queue
      ensures var list := DueItems(old(items), table, now, limit, only);
        && due == |list| && scheduled == |itemIds| <= due <= limit
        && itemIds == ItemsOf(Accepted(list, refused))
        && queue == old(queue) + AsSet(Accepted(list, refused))
        && items == ScheduleAll(old(items), list)
      ensures SchedulesDue(old(items), items, now, limit, only) && due == |Changed(old(items), items)|
      ensures NoDup(itemIds) && scheduled == |itemIds|
      ensures forall x :: x in itemIds <==> x in Changed(old(items), items) && x !in refused
      ensures forall d :: d in queue <==>
        || d in old(queue)
        || (d.item in itemIds && d.item in old(items) && d.agency == old(items)[d.item].agency
            && old(items)[d.item].target == Some(d.account))
    {
      var list := DueItems(items, table, now, limit, only);
      DueItemsIsDueList(items, table, now, limit, only);
      ScheduledInFields(items, now, limit, only, list);
      ReportedInFields(items, queue, now, limit, only, list, refused);
      forall i | 0 <= i < |list| ensures Claimable(items, list, i) {
        StillDue(items, table, now, limit, only, i);
      }
      itemIds := ClaimEach(list, refused);
      due, scheduled := |list|, |itemIds|;
    }

    /** The loop of a tick: claim, enqueue, and go on even when the enqueue throws. */
    method ClaimEach(list: seq<Payload>, refused: set<Id>) returns (itemIds: seq<Id>)
      requires forall i :: 0 <= i < |list| ==> Claimable(items, list, i)
      modifies this`items, this`queue
      ensures itemIds == ItemsOf(Accepted(list, refused))
      ensures queue == old(queue) + AsSet(Accepted(list, refused))
      ensures items == ScheduleAll(old(items), list)
    {
      itemIds := [];
      for i := 0 to |list|
        invariant items == ScheduleAll(old(items), list[..i])
        invariant itemIds == ItemsOf(Accepted(list[..i], refused))
        invariant queue == old(queue) + AsSet(Accepted(list[..i], refused))
      {
        AcceptedNext(list, refused, i);
        ScheduleNext(old(items), list, i);
        assert Claimable(old(items), list, i);
        var claimed := Transition(ByAgency(list[i].agency), list[i].item, Approved, Scheduled);
        if claimed {
          if list[i].item !in refused {
            queue := queue + {list[i]};
            itemIds := itemIds + [list[i].item];
          }
        }
      }
      assert list[..|list|] == list;
    }

    /** runPublishJob, with `post` standing for what the platform answers if it is asked. */
    method RunPublishJob(worker: ProcId, data: Payload, final: bool, post: PostResult) returns (r: JobOutcome)
      modifies this`items, this`rows
      ensures r == JobOutcomeOf(old(items), accounts, data, post)
      ensures items == ItemsAfterJob(old(items), accounts, data, final, post)
      ensures rows == RowsAfterJob(old(items), accounts, old(rows), worker, data, post)
      ensures !(data.account in accounts && accounts[data.account].agency == data.agency
                && data.item in old(items) && old(items)[data.item].agency == data.agency) ==>
        r == JobThrew(AppFailure(NotFound)) && items == old(items) && rows == old(rows)
      ensures data.account in accounts && accounts[data.account].agency == data.agency
              && data.item in old(items) && old(items)[data.item].agency == data.agency ==>
        var item := old(items)[data.item];
        if item.status == Published then r == JobReturned && items == old(items) && rows == old(rows)
        else
          && rows == old(rows) + [Row(data.item, worker, if r.JobReturned? then RowPublished else RowFailed)]
          && r == (if item.client != accounts[data.account].client then JobThrew(AppFailure(Validation))
                   else if item.status != Scheduled then JobThrew(AppFailure(Conflict))
                   else if item.copy.None? || item.copy.value.caption == "" then JobThrew(AppFailure(Validation))
                   else if post.PostOk? then JobReturned else JobThrew(post.err))
          && items.Keys == old(items).Keys && (forall y :: y in items && y != data.item ==> items[y] == old(items)[y])
          && items[data.item] == item.(status :=
               if item.status != Scheduled then item.status
               else if r.JobReturned? then Published
               else if final || (r.err.AppFailure? && (r.err.code.Validation? || r.err.code.Unauthorized?
                                 || r.err.code.Forbidden? || r.err.code.NotFound? || r.err.code.Conflict?
                                 || r.err.code.RateLimited?)) then Failed
               else Scheduled)
    {
      var account := FindAccount(accounts, data.agency, data.account);
      if account.None? {
        return JobThrew(AppFailure(NotFound));
      }
      var found := Find(items, ByAgency(data.agency), data.item);
      if found.None? {
        return JobThrew(AppFailure(NotFound));
      }
      var item := found.value;
      if item.status == Published {
        return JobReturned;
      }
      var job := |rows|;
      rows := rows + [Row(data.item, worker, Posting)];
      var err;
      if item.client != account.value.client {
        err := AppFailure(Validation);
      } else if item.status != Scheduled {
        err := AppFailure(Conflict);
      } else if item.copy.None? || item.copy.value.caption == "" {
        err := AppFailure(Validation);
      } else {
        match post {
          case PostOk =>
            rows := rows[job := rows[job].(state := RowPublished)];
            var moved := Transition(ByAgency(data.agency), data.item, Scheduled, Published);
            return JobReturned;
          case PostError(e) => err := e;
        }
      }
      rows := rows[job := rows[job].(state := RowFailed)];
      if !IsRetryable(err) || final {
        var moved := Transition(ByAgency(data.agency), data.item, Scheduled, Failed);
      }
      return JobThrew(err);
    }

    /**
     * A delivered job with its attempt budget: retried while attempts are left and the error is worth it.
     * `answers[k]` is what the platform would answer on attempt k. `between` records the item's status after
     * every attempt that is followed by another one. A deliverable job is tried until the first answer that is a success
     * or one of the six errors that will not go away, or until the budget is used up.
     */
    method DeliverJob(worker: ProcId, data: Payload, attempts: nat, answers: seq<PostResult>)
      returns (made: nat, r: JobOutcome, alerted: bool, ghost between: seq<ItemStatus>)
      requires 1 <= attempts <= |answers|
      modifies this`items, this`rows
      ensures 1 <= made <= attempts
      ensures alerted <==> r.JobThrew? && made == attempts
      ensures Deliverable(old(items), accounts, data) ==>
        && (forall k :: 0 <= k < made - 1 ==> WorthRetrying(answers[k]))
        && (made < attempts ==> !WorthRetrying(answers[made - 1]))
        && (r.JobReturned? <==> answers[made - 1].PostOk?)
        && items == WithStatus(old(items), data.item, if r.JobReturned? then Published else Failed)
        && rows == old(rows) + AttemptRows(data.item, worker, made, r.JobReturned?)
        && |between| == made - 1 && (forall k :: 0 <= k < made - 1 ==> between[k] == Scheduled)
      ensures (&& data.account in accounts && accounts[data.account].agency == data.agency
               && data.item in old(items) && old(items)[data.item].agency == data.agency
               && old(items)[data.item].client == accounts[data.account].client
               && old(items)[data.item].status == Scheduled
               && old(items)[data.item].copy.Some? && old(items)[data.item].copy.value.caption != "") ==>
        && (forall k :: 0 <= k < made - 1 ==>
              answers[k].PostError? && (answers[k].err.UnknownFailure? || answers[k].err.code.ExternalService?
                                        || answers[k].err.code.Internal?))
        && (made < attempts ==>
              answers[made - 1].PostOk? ||
              (var err := answers[made - 1].err;
               err.AppFailure? && (err.code.Validation? || err.code.Unauthorized? || err.code.Forbidden?
                                   || err.code.NotFound? || err.code.Conflict? || err.code.RateLimited?)))
        && r == (if answers[made - 1].PostOk? then JobReturned else JobThrew(answers[made - 1].err))
        && items == old(items)[data.item := old(items)[data.item].(status := if r.JobReturned? then Published else Failed)]
        && |rows| == |old(rows)| + made && old(rows) <= rows
        && (forall k :: |old(rows)| <= k < |rows| - 1 ==> rows[k] == Row(data.item, worker, RowFailed))
        && rows[|rows| - 1] == Row(data.item, worker, if r.JobReturned? then RowPublished else RowFailed)
        && |between| == made - 1 && (forall k :: 0 <= k < made - 1 ==> between[k] == Scheduled)
      ensures !Deliverable(old(items), accounts, data) ==>
        && made == 1
        && r == JobOutcomeOf(old(items), accounts, data, answers[0])
        && items == ItemsAfterJob(old(items), accounts, data, true, answers[0])
        && rows == RowsAfterJob(old(items), accounts, old(rows), worker, data, answers[0])
    {
      made, between, alerted := 0, [], false;
      ghost var ready := Deliverable(items, accounts, data);
      while true
        invariant 0 <= made < attempts && !alerted
        invariant items == old(items) && (!ready ==> made == 0)
        invariant rows == old(rows) + AllFailed(data.item, worker, made)
        invariant forall k :: 0 <= k < made ==> WorthRetrying(answers[k])
        invariant |between| == made && forall k :: 0 <= k < made ==> between[k] == Scheduled
        decreases attempts - made
      {
        var final := made + 1 >= attempts;
        AttemptRowsNext(data.item, worker, made);
        r := RunPublishJob(worker, data, final, answers[made]);
        made := made + 1;
        if r.JobReturned? {
          return;
        }
        alerted := made >= attempts;
        if !IsRetryable(r.err) || made >= attempts {
          return;
        }
        between := between + [items[data.item].status];
      }
    }
  }
}
