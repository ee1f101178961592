/**
 * Runs in which an item is posted twice, or enqueued twice for one entry into `scheduled`: each assumption of the
 * at-most-once results is needed. All start from states that are reachable.
 */
module PipelineWitnesses {
  import opened Seqs
  import opened StateMachine
  import opened Pipeline
  import opened PipelineInvariants
  import opened PipelineClaims

  function Fine(): Choice { Choice(PostOk, false, [], {}) }
  function WriteFails(): Choice { Choice(PostOk, true, [], {}) }

  // ---- following a run step by step -----------------------------------------

  datatype Tally = Tally(posts: nat, entries: nat, enqueues: nat)

  function Counted(n: Tally, e: Event, x: Id): Tally {
    Tally(n.posts + Bit(IsPost(x)(e)), n.entries + Bit(IsEntry(x)(e)), n.enqueues + Bit(IsEnqueue(x)(e)))
  }

  function StatusAfter(status: ItemStatus, e: Event): ItemStatus {
    if e.Moved? then e.to else status
  }

  /** `t` is `s` with these operations, item `x` in this status, and so many more events of `x`. */
  ghost predicate Like(s: Sys, t: Sys, x: Id, procs: seq<Proc>, status: ItemStatus, n: Tally) {
    && x in s.items && t.items == s.items[x := s.items[x].(status := status)]
    && t.procs == procs && t.accounts == s.accounts && t.configs == s.configs && t.fallback == s.fallback
    && s.queue <= t.queue
    && Posts(t, x) == Posts(s, x) + n.posts
    && Entries(t, x) == Entries(s, x) + n.entries
    && Enqueues(t, x) == Enqueues(s, x) + n.enqueues
  }

  lemma LikeItself(s: Sys, x: Id)
    requires x in s.items
    ensures Like(s, s, x, s.procs, s.items[x].status, Tally(0, 0, 0))
  {
  }

  /** An operation is started. */
  lemma CallLike(s: Sys, t: Sys, acts: seq<Action>, p: Proc, x: Id, procs: seq<Proc>, status: ItemStatus, n: Tally)
    requires Like(s, Run(t, acts), x, procs, status, n) && Startable(Run(t, acts), p)
    ensures Like(s, Run(t, acts + [Call(p)]), x, procs + [p], status, n)
  {
    RunOne(t, acts, Call(p));
  }

  /** What a step does to the tables: a logged move is the one status change. */
  ghost predicate Follows(t: Sys, u: Sys, e: Event, x: Id) {
    && u.items == (if e.Moved? && x in t.items then t.items[x := t.items[x].(status := e.to)] else t.items)
    && u.accounts == t.accounts && u.configs == t.configs && u.fallback == t.fallback && t.queue <= u.queue
    && u.trace == t.trace + [e]
  }

  lemma StepFollows(t: Sys, a: ProcId, c: Choice, e: Effect, x: Id)
    requires a < |t.procs| && e == EffectOf(t, a, t.procs[a], c) && (e.event.Moved? ==> e.event.item == x)
    ensures Follows(t, Apply(t, a, e), e.event, x)
  {
  }

  lemma FollowsLike(s: Sys, t: Sys, u: Sys, e: Event, x: Id, procs: seq<Proc>, status: ItemStatus, n: Tally)
    requires Like(s, t, x, procs, status, n) && Follows(t, u, e, x)
    ensures Like(s, u, x, u.procs, StatusAfter(status, e), Counted(n, e, x))
  {
    CountAppend(t.trace, e, IsPost(x));
    CountAppend(t.trace, e, IsEntry(x));
    CountAppend(t.trace, e, IsEnqueue(x));
  }

  /** Operation `a` takes one step, with effect `e`. */
  lemma StepLike(s: Sys, t: Sys, a: ProcId, c: Choice, e: Effect, x: Id, procs: seq<Proc>, status: ItemStatus, n: Tally)
    requires Like(s, t, x, procs, status, n) && a < |procs| && !Finished(procs[a]) && !procs[a].TickCalled?
    requires e == EffectOf(t, a, procs[a], c) && (e.event.Moved? ==> e.event.item == x)
    ensures Like(s, Step(t, Go(a, c)), x, procs[a := e.next], StatusAfter(status, e.event), Counted(n, e.event, x))
    ensures e.write.Offer? ==> e.write.payload in Step(t, Go(a, c)).queue
  {
    StepFollows(t, a, c, e, x);
    FollowsLike(s, t, Apply(t, a, e), e.event, x, procs, status, n);
  }

  /** After `acts`, operation `a` takes `k` steps in a row. */
  function Then(acts: seq<Action>, a: ProcId, k: nat): seq<Action> {
    acts + GoOn(a, Fine(), k)
  }

  lemma ThenSteps(t: Sys, acts: seq<Action>, a: ProcId, k: nat)
    requires Enabled(Run(t, Then(acts, a, k)), Go(a, Fine()))
    ensures Run(t, Then(acts, a, k + 1)) == Step(Run(t, Then(acts, a, k)), Go(a, Fine()))
  {
    RunOne(t, Then(acts, a, k), Go(a, Fine()));
    assert Then(acts, a, k + 1) == Then(acts, a, k) + [Go(a, Fine())];
  }

  lemma UpdateTwice(procs: seq<Proc>, a: nat, p: Proc, q: Proc)
    requires a < |procs|
    ensures procs[a := p][a := q] == procs[a := q]
  {
  }

  lemma UpdateLast(procs: seq<Proc>, p: Proc, q: Proc)
    ensures (procs + [p])[|procs| := q] == procs + [q]
  {
  }

  /** One more step of `a`, which is now at `p`. */
  lemma ThenLike(s: Sys, t: Sys, acts: seq<Action>, a: ProcId, k: nat, p: Proc, e: Effect, x: Id, procs: seq<Proc>,
                 status: ItemStatus, n: Tally)
    requires a < |procs| && Like(s, Run(t, Then(acts, a, k)), x, procs[a := p], status, n)
    requires !Finished(p) && !p.TickCalled?
    requires e == EffectOf(Run(t, Then(acts, a, k)), a, p, Fine()) && (e.event.Moved? ==> e.event.item == x)
    ensures Like(s, Run(t, Then(acts, a, k + 1)), x, procs[a := e.next], StatusAfter(status, e.event), Counted(n, e.event, x))
    ensures e.write.Offer? ==> e.write.payload in Run(t, Then(acts, a, k + 1)).queue
  {
    StepLike(s, Run(t, Then(acts, a, k)), a, Fine(), e, x, procs[a := p], status, n);
    ThenSteps(t, acts, a, k);
    UpdateTwice(procs, a, p, e.next);
  }

  lemma ThenNothing(acts: seq<Action>, a: ProcId, procs: seq<Proc>)
    requires a < |procs|
    ensures Then(acts, a, 0) == acts && procs[a := procs[a]] == procs
  {
  }

  // ---- an item that can go through ------------------------------------------

  /** The account is the item's client's, and the item has a caption that complies. */
  predicate Ready(s: Sys, data: Payload) {
    && FindAccount(s.accounts, data.agency, data.account).Some?
    && Find(s.items, ByAgency(data.agency), data.item).Some?
    && ReadyItem(s, data, Find(s.items, ByAgency(data.agency), data.item).value,
                 FindAccount(s.accounts, data.agency, data.account).value.client)
  }

  predicate ReadyItem(s: Sys, data: Payload, i: Item, client: Id) {
    && i.client == client && i.copy.Some? && i.copy.value.caption != ""
    && Complies(i.copy, ConfigOf(s.configs, s.fallback, data.agency))
  }

  /** Ready, scheduled, and its job is queued. */
  predicate Postable(s: Sys, data: Payload) {
    Ready(s, data) && data in s.queue && s.items[data.item].status == Scheduled
  }

  function ClientOf(s: Sys, data: Payload): Id
    requires Ready(s, data)
  {
    s.items[data.item].client
  }

  function ItemAs(s: Sys, data: Payload, status: ItemStatus): Item
    requires Ready(s, data)
  {
    s.items[data.item].(status := status)
  }

  // ---- the ways of each operation -------------------------------------------

  function MoveFlip(data: Payload, from: ItemStatus, to: ItemStatus, after: After): Flip {
    Flip(ByAgency(data.agency), data.agency, data.item, from, to, after)
  }

  lemma ApproveEffects(s: Sys, t: Sys, a: ProcId, data: Payload, from: ItemStatus, procs: seq<Proc>, n: Tally, c: Choice)
    requires Ready(s, data) && Like(s, t, data.item, procs, from, n) && CanTransition(from, Approved)
    ensures var f := MoveFlip(data, from, Approved, Return);
      && EffectOf(t, a, MoveCalled(data.agency, data.item, Approved, Return), c)
         == Logged(GateCalled(f), ReadStatus(a, data.item, from))
      && EffectOf(t, a, GateCalled(f), c) == Silent(GateLoaded(f, s.items[data.item].copy))
      && EffectOf(t, a, GateLoaded(f, s.items[data.item].copy), c)
         == Logged(FlipReady(f), GatePassed(a, data.item, s.items[data.item].copy, ConfigOf(s.configs, s.fallback, data.agency)))
      && EffectOf(t, a, FlipReady(f), c) == Logged(Done, Moved(a, data.item, from, Approved))
  {
  }

  lemma RouteEffects(s: Sys, t: Sys, a: ProcId, data: Payload, procs: seq<Proc>, n: Tally, c: Choice)
    requires Ready(s, data) && Like(s, t, data.item, procs, Approved, n)
    ensures var f := MoveFlip(data, Approved, Scheduled, EnqueueNext(data));
      && EffectOf(t, a, RouteCalled(data), c) == Silent(RouteAccount(data, ClientOf(s, data)))
      && EffectOf(t, a, RouteAccount(data, ClientOf(s, data)), c)
         == Silent(MoveCalled(data.agency, data.item, Scheduled, EnqueueNext(data)))
      && EffectOf(t, a, MoveCalled(data.agency, data.item, Scheduled, EnqueueNext(data)), c)
         == Logged(FlipReady(f), ReadStatus(a, data.item, Approved))
      && EffectOf(t, a, FlipReady(f), c) == Logged(Claimed(data), Moved(a, data.item, Approved, Scheduled))
      && EffectOf(t, a, Claimed(data), c) == Effect(Done, Enqueued(a, data.item), Offer(data))
  {
  }

  lemma HandlerEffects(s: Sys, t: Sys, a: ProcId, data: Payload, row: nat, procs: seq<Proc>, n: Tally)
    requires Ready(s, data) && Like(s, t, data.item, procs, Scheduled, n)
    ensures var client, seen := ClientOf(s, data), ItemAs(s, data, Scheduled);
      && EffectOf(t, a, JobCalled(data, false), Fine()) == Silent(JobAccount(data, false, client))
      && EffectOf(t, a, JobAccount(data, false, client), Fine())
         == Logged(JobItem(data, false, client, seen), ReadStatus(a, data.item, Scheduled))
      && EffectOf(t, a, JobItem(data, false, client, seen), Fine())
         == Effect(JobOpen(data, false, client, seen, |t.rows|), Tau, OpenRow(data.item))
      && EffectOf(t, a, JobOpen(data, false, client, seen, row), Fine())
         == Logged(JobPosted(data, false, row), Posted(a, data.item))
  {
  }

  /** The item is read and the gate reached. */
  lemma ApproveReads(s: Sys, t: Sys, acts: seq<Action>, a: ProcId, data: Payload, from: ItemStatus, procs: seq<Proc>, n: Tally)
    requires Ready(s, data) && Like(s, Run(t, acts), data.item, procs, from, n) && CanTransition(from, Approved)
    requires a < |procs| && procs[a] == MoveCalled(data.agency, data.item, Approved, Return)
    ensures Like(s, Run(t, Then(acts, a, 2)), data.item,
                 procs[a := GateLoaded(MoveFlip(data, from, Approved, Return), s.items[data.item].copy)], from, n)
  {
    var x, f, copy := data.item, MoveFlip(data, from, Approved, Return), s.items[data.item].copy;
    ThenNothing(acts, a, procs);
    ApproveEffects(s, Run(t, Then(acts, a, 0)), a, data, from, procs, n, Fine());
    ThenLike(s, t, acts, a, 0, procs[a], Logged(GateCalled(f), ReadStatus(a, x, from)), x, procs, from, n);
    ApproveEffects(s, Run(t, Then(acts, a, 1)), a, data, from, procs[a := GateCalled(f)], n, Fine());
    ThenLike(s, t, acts, a, 1, GateCalled(f), Silent(GateLoaded(f, copy)), x, procs, from, n);
  }

  /** The report passes and the status is written. */
  lemma ApproveFlips(s: Sys, t: Sys, acts: seq<Action>, a: ProcId, data: Payload, from: ItemStatus, procs: seq<Proc>, n: Tally)
    requires Ready(s, data) && CanTransition(from, Approved) && a < |procs|
    requires Like(s, Run(t, Then(acts, a, 2)), data.item,
                  procs[a := GateLoaded(MoveFlip(data, from, Approved, Return), s.items[data.item].copy)], from, n)
    ensures Like(s, Run(t, Then(acts, a, 4)), data.item, procs[a := Done], Approved, n)
  {
    var x, f, copy := data.item, MoveFlip(data, from, Approved, Return), s.items[data.item].copy;
    ApproveEffects(s, Run(t, Then(acts, a, 2)), a, data, from, procs[a := GateLoaded(f, copy)], n, Fine());
    ThenLike(s, t, acts, a, 2, GateLoaded(f, copy),
             Logged(FlipReady(f), GatePassed(a, x, copy, ConfigOf(s.configs, s.fallback, data.agency))), x, procs, from, n);
    ApproveEffects(s, Run(t, Then(acts, a, 3)), a, data, from, procs[a := FlipReady(f)], n, Fine());
    ThenLike(s, t, acts, a, 3, FlipReady(f), Logged(Done, Moved(a, x, from, Approved)), x, procs, from, n);
  }

  /** Four steps of an approval, or of a cancellation back to approved. */
  lemma ApproveRuns(s: Sys, t: Sys, acts: seq<Action>, a: ProcId, data: Payload, from: ItemStatus, procs: seq<Proc>, n: Tally)
    requires Ready(s, data) && Like(s, Run(t, acts), data.item, procs, from, n) && CanTransition(from, Approved)
    requires a < |procs| && procs[a] == MoveCalled(data.agency, data.item, Approved, Return)
    ensures Like(s, Run(t, Then(acts, a, 4)), data.item, procs[a := Done], Approved, n)
  {
    ApproveReads(s, t, acts, a, data, from, procs, n);
    ApproveFlips(s, t, acts, a, data, from, procs, n);
  }

  /** The account and the item are read. */
  lemma RouteReads(s: Sys, t: Sys, acts: seq<Action>, a: ProcId, data: Payload, procs: seq<Proc>, n: Tally)
    requires Ready(s, data) && Like(s, Run(t, acts), data.item, procs, Approved, n)
    requires a < |procs| && procs[a] == RouteCalled(data)
    ensures Like(s, Run(t, Then(acts, a, 2)), data.item,
                 procs[a := MoveCalled(data.agency, data.item, Scheduled, EnqueueNext(data))], Approved, n)
  {
    var x, account := data.item, RouteAccount(data, ClientOf(s, data));
    ThenNothing(acts, a, procs);
    RouteEffects(s, Run(t, Then(acts, a, 0)), a, data, procs, n, Fine());
    ThenLike(s, t, acts, a, 0, procs[a], Silent(account), x, procs, Approved, n);
    RouteEffects(s, Run(t, Then(acts, a, 1)), a, data, procs[a := account], n, Fine());
    ThenLike(s, t, acts, a, 1, account, Silent(MoveCalled(data.agency, x, Scheduled, EnqueueNext(data))), x, procs, Approved, n);
  }

  /** Four steps of the publish route: an entry into scheduled, and a claim that waits. */
  lemma RouteClaims(s: Sys, t: Sys, acts: seq<Action>, a: ProcId, data: Payload, procs: seq<Proc>, n: Tally)
    requires Ready(s, data) && Like(s, Run(t, acts), data.item, procs, Approved, n)
    requires a < |procs| && procs[a] == RouteCalled(data)
    ensures Like(s, Run(t, Then(acts, a, 4)), data.item, procs[a := Claimed(data)], Scheduled, n.(entries := n.entries + 1))
  {
    var x, f := data.item, MoveFlip(data, Approved, Scheduled, EnqueueNext(data));
    var move := MoveCalled(data.agency, x, Scheduled, EnqueueNext(data));
    RouteReads(s, t, acts, a, data, procs, n);
    RouteEffects(s, Run(t, Then(acts, a, 2)), a, data, procs[a := move], n, Fine());
    ThenLike(s, t, acts, a, 2, move, Logged(FlipReady(f), ReadStatus(a, x, Approved)), x, procs, Approved, n);
    RouteEffects(s, Run(t, Then(acts, a, 3)), a, data, procs[a := FlipReady(f)], n, Fine());
    ThenLike(s, t, acts, a, 3, FlipReady(f), Logged(Claimed(data), Moved(a, x, Approved, Scheduled)), x, procs, Approved, n);
  }

  /** A waiting claim is enqueued, whatever the item's status is by now. */
  lemma ClaimEnqueues(s: Sys, t: Sys, acts: seq<Action>, a: ProcId, data: Payload, procs: seq<Proc>, status: ItemStatus, n: Tally)
    requires Like(s, Run(t, acts), data.item, procs, status, n) && a < |procs| && procs[a] == Claimed(data)
    ensures Like(s, Run(t, Then(acts, a, 1)), data.item, procs[a := Done], status, n.(enqueues := n.enqueues + 1))
    ensures data in Run(t, Then(acts, a, 1)).queue
  {
    ThenNothing(acts, a, procs);
    ThenLike(s, t, acts, a, 0, procs[a], Effect(Done, Enqueued(a, data.item), Offer(data)), data.item, procs, status, n);
  }

  /** The account and the item are read. */
  lemma HandlerReads(s: Sys, t: Sys, acts: seq<Action>, a: ProcId, data: Payload, procs: seq<Proc>, n: Tally)
    requires Ready(s, data) && Like(s, Run(t, acts), data.item, procs, Scheduled, n)
    requires a < |procs| && procs[a] == JobCalled(data, false)
    ensures Like(s, Run(t, Then(acts, a, 2)), data.item,
                 procs[a := JobItem(data, false, ClientOf(s, data), ItemAs(s, data, Scheduled))], Scheduled, n)
  {
    var x, client, seen := data.item, ClientOf(s, data), ItemAs(s, data, Scheduled);
    var account, item := JobAccount(data, false, client), JobItem(data, false, client, seen);
    ThenNothing(acts, a, procs);
    HandlerEffects(s, Run(t, Then(acts, a, 0)), a, data, 0, procs, n);
    ThenLike(s, t, acts, a, 0, procs[a], Silent(account), x, procs, Scheduled, n);
    HandlerEffects(s, Run(t, Then(acts, a, 1)), a, data, 0, procs[a := account], n);
    ThenLike(s, t, acts, a, 1, account, Logged(item, ReadStatus(a, x, Scheduled)), x, procs, Scheduled, n);
  }

  /** Four steps of a delivered handler: a post. */
  lemma HandlerPosts(s: Sys, t: Sys, acts: seq<Action>, a: ProcId, data: Payload, procs: seq<Proc>, n: Tally)
    returns (row: nat)
    requires Ready(s, data) && Like(s, Run(t, acts), data.item, procs, Scheduled, n)
    requires a < |procs| && procs[a] == JobCalled(data, false)
    ensures Like(s, Run(t, Then(acts, a, 4)), data.item, procs[a := JobPosted(data, false, row)], Scheduled,
                 n.(posts := n.posts + 1))
  {
    var x, client, seen := data.item, ClientOf(s, data), ItemAs(s, data, Scheduled);
    var item := JobItem(data, false, client, seen);
    HandlerReads(s, t, acts, a, data, procs, n);
    row := |Run(t, Then(acts, a, 2)).rows|;
    var atPost := JobOpen(data, false, client, seen, row);
    HandlerEffects(s, Run(t, Then(acts, a, 2)), a, data, row, procs[a := item], n);
    ThenLike(s, t, acts, a, 2, item, Effect(atPost, Tau, OpenRow(x)), x, procs, Scheduled, n);
    HandlerEffects(s, Run(t, Then(acts, a, 3)), a, data, row, procs[a := atPost], n);
    ThenLike(s, t, acts, a, 3, atPost, Logged(JobPosted(data, false, row), Posted(a, x)), x, procs, Scheduled, n);
  }

  lemma WarnEffects(s: Sys, t: Sys, a: ProcId, data: Payload, row: nat, procs: seq<Proc>, n: Tally)
    requires Like(s, t, data.item, procs, Approved, n)
    ensures EffectOf(t, a, JobPosted(data, false, row), Fine())
         == Effect(JobMarked(data, false, row), Tau, SetRow(row, RowPublished))
    ensures EffectOf(t, a, JobMarked(data, false, row), Fine()) == Logged(Done, Warned(data.item))
  {
  }

  /** The handler marks its row and finds the item no longer scheduled: a warning, and it is done. */
  lemma HandlerWarns(s: Sys, t: Sys, acts: seq<Action>, a: ProcId, data: Payload, row: nat, procs: seq<Proc>, n: Tally)
    requires Like(s, Run(t, acts), data.item, procs, Approved, n) && a < |procs| && procs[a] == JobPosted(data, false, row)
    ensures Like(s, Run(t, Then(acts, a, 2)), data.item, procs[a := Done], Approved, n)
  {
    var marked := JobMarked(data, false, row);
    ThenNothing(acts, a, procs);
    WarnEffects(s, Run(t, Then(acts, a, 0)), a, data, row, procs, n);
    ThenLike(s, t, acts, a, 0, procs[a], Effect(marked, Tau, SetRow(row, RowPublished)), data.item, procs, Approved, n);
    WarnEffects(s, Run(t, Then(acts, a, 1)), a, data, row, procs[a := marked], n);
    ThenLike(s, t, acts, a, 1, marked, Logged(Done, Warned(data.item)), data.item, procs, Approved, n);
  }

  lemma LostMarkEffects(t: Sys, a: ProcId, data: Payload, row: nat)
    ensures EffectOf(t, a, JobPosted(data, false, row), WriteFails()) == Logged(JobFailing(data, false, row), LostPost(data.item))
    ensures var e := EffectOf(t, a, JobFailing(data, false, row), Fine());
      e.next == Done && !e.event.Moved? && !e.event.Posted? && !e.event.Enqueued?
  {
  }

  /** The catch block marks the row failed, and the item stays scheduled. */
  lemma CatchRuns(s: Sys, t: Sys, acts: seq<Action>, a: ProcId, data: Payload, row: nat, procs: seq<Proc>, n: Tally)
    requires Like(s, Run(t, acts), data.item, procs, Scheduled, n) && a < |procs| && procs[a] == JobFailing(data, false, row)
    ensures Like(s, Run(t, Then(acts, a, 1)), data.item, procs[a := Done], Scheduled, n)
  {
    ThenNothing(acts, a, procs);
    var e := EffectOf(Run(t, Then(acts, a, 0)), a, procs[a], Fine());
    LostMarkEffects(Run(t, Then(acts, a, 0)), a, data, row);
    assert StatusAfter(Scheduled, e.event) == Scheduled && Counted(n, e.event, data.item) == n;
    ThenLike(s, t, acts, a, 0, procs[a], e, data.item, procs, Scheduled, n);
  }

  // ---- whole operations in a row --------------------------------------------

  function Deliver(acts: seq<Action>, data: Payload): seq<Action> {
    acts + [Call(JobCalled(data, false))]
  }

  /** The job is delivered to operation `a`, which runs up to its post. */
  function Post(acts: seq<Action>, a: ProcId, data: Payload): seq<Action> {
    Then(Deliver(acts, data), a, 4)
  }

  lemma PostLike(s: Sys, t: Sys, acts: seq<Action>, data: Payload, procs: seq<Proc>, n: Tally) returns (row: nat)
    requires Ready(s, data) && Like(s, Run(t, acts), data.item, procs, Scheduled, n) && data in Run(t, acts).queue
    ensures Like(s, Run(t, Post(acts, |procs|, data)), data.item, procs + [JobPosted(data, false, row)], Scheduled,
                 n.(posts := n.posts + 1))
  {
    CallLike(s, t, acts, JobCalled(data, false), data.item, procs, Scheduled, n);
    row := HandlerPosts(s, t, Deliver(acts, data), |procs|, data, procs + [JobCalled(data, false)], n);
    UpdateLast(procs, JobCalled(data, false), JobPosted(data, false, row));
  }

  /** Operation `a` takes the item back to approved. */
  function Cancel(acts: seq<Action>, a: ProcId, data: Payload): seq<Action> {
    Then(acts + [Call(MoveCalled(data.agency, data.item, Approved, Return))], a, 4)
  }

  lemma CancelLike(s: Sys, t: Sys, acts: seq<Action>, data: Payload, procs: seq<Proc>, from: ItemStatus, n: Tally)
    requires Ready(s, data) && Like(s, Run(t, acts), data.item, procs, from, n) && CanTransition(from, Approved)
    ensures Like(s, Run(t, Cancel(acts, |procs|, data)), data.item, procs + [Done], Approved, n)
  {
    var move := MoveCalled(data.agency, data.item, Approved, Return);
    CallLike(s, t, acts, move, data.item, procs, from, n);
    ApproveRuns(s, t, acts + [Call(move)], |procs|, data, from, procs + [move], n);
    UpdateLast(procs, move, Done);
  }

  /** Operation `a` is a publish request that has scheduled the item and not yet enqueued it. */
  function Claim(acts: seq<Action>, a: ProcId, data: Payload): seq<Action> {
    Then(acts + [Call(RouteCalled(data))], a, 4)
  }

  lemma ClaimLike(s: Sys, t: Sys, acts: seq<Action>, data: Payload, procs: seq<Proc>, n: Tally)
    requires Ready(s, data) && Like(s, Run(t, acts), data.item, procs, Approved, n)
    ensures Like(s, Run(t, Claim(acts, |procs|, data)), data.item, procs + [Claimed(data)], Scheduled,
                 n.(entries := n.entries + 1))
  {
    CallLike(s, t, acts, RouteCalled(data), data.item, procs, Approved, n);
    RouteClaims(s, t, acts + [Call(RouteCalled(data))], |procs|, data, procs + [RouteCalled(data)], n);
    UpdateLast(procs, RouteCalled(data), Claimed(data));
  }

  function Publish(acts: seq<Action>, a: ProcId, data: Payload): seq<Action> {
    Then(Claim(acts, a, data), a, 1)
  }

  lemma PublishLike(s: Sys, t: Sys, acts: seq<Action>, data: Payload, procs: seq<Proc>, n: Tally)
    requires Ready(s, data) && Like(s, Run(t, acts), data.item, procs, Approved, n)
    ensures Like(s, Run(t, Publish(acts, |procs|, data)), data.item, procs + [Done], Scheduled,
                 n.(entries := n.entries + 1, enqueues := n.enqueues + 1))
    ensures data in Run(t, Publish(acts, |procs|, data)).queue
  {
    ClaimLike(s, t, acts, data, procs, n);
    ClaimEnqueues(s, t, Claim(acts, |procs|, data), |procs|, data, procs + [Claimed(data)], Scheduled,
                  n.(entries := n.entries + 1));
    UpdateLast(procs, Claimed(data), Done);
  }

  // ---- two posts ------------------------------------------------------------

  /** Two deliveries that both read `scheduled` before either writes. */
  function OverlapRun(s: Sys, data: Payload): seq<Action> {
    Post(Post([], |s.procs|, data), |s.procs| + 1, data)
  }

  lemma OverlappingHandlersPostTwice(s: Sys, data: Payload)
    requires Postable(s, data)
    ensures Posts(Run(s, OverlapRun(s, data)), data.item) == Posts(s, data.item) + 2
  {
    LikeItself(s, data.item);
    var row := PostLike(s, s, [], data, s.procs, Tally(0, 0, 0));
    var _ := PostLike(s, s, Post([], |s.procs|, data), data, s.procs + [JobPosted(data, false, row)], Tally(1, 0, 0));
  }

  lemma PostFromHere(s: Sys, data: Payload) returns (row: nat)
    requires Postable(s, data)
    ensures Like(s, Run(s, Post([], |s.procs|, data)), data.item, s.procs + [JobPosted(data, false, row)], Scheduled,
                 Tally(1, 0, 0))
  {
    LikeItself(s, data.item);
    row := PostLike(s, s, [], data, s.procs, Tally(0, 0, 0));
  }

  /** One handler at a time, but marking the row fails after the post, so the job is delivered again. */
  function FailedMarkRun(s: Sys, data: Payload): seq<Action> {
    var a := |s.procs|;
    Post(Then(Post([], a, data) + [Go(a, WriteFails())], a, 1), a + 1, data)
  }

  /** Marking the row fails after the post. */
  lemma MarkFails(s: Sys, data: Payload) returns (row: nat)
    requires Postable(s, data)
    ensures Like(s, Run(s, Post([], |s.procs|, data) + [Go(|s.procs|, WriteFails())]), data.item,
                 s.procs + [JobFailing(data, false, row)], Scheduled, Tally(1, 0, 0))
  {
    var a, acts := |s.procs|, Post([], |s.procs|, data);
    row := PostFromHere(s, data);
    var procs, lost := s.procs + [JobPosted(data, false, row)], Logged(JobFailing(data, false, row), LostPost(data.item));
    LostMarkEffects(Run(s, acts), a, data, row);
    StepLike(s, Run(s, acts), a, WriteFails(), lost, data.item, procs, Scheduled, Tally(1, 0, 0));
    RunOne(s, acts, Go(a, WriteFails()));
    UpdateLast(s.procs, JobPosted(data, false, row), lost.next);
  }

  lemma MarkLost(s: Sys, data: Payload)
    requires Postable(s, data)
    ensures var a := |s.procs|;
      Like(s, Run(s, Then(Post([], a, data) + [Go(a, WriteFails())], a, 1)), data.item, s.procs + [Done], Scheduled,
           Tally(1, 0, 0))
  {
    var a := |s.procs|;
    var row := MarkFails(s, data);
    var failing := JobFailing(data, false, row);
    CatchRuns(s, s, Post([], a, data) + [Go(a, WriteFails())], a, data, row, s.procs + [failing], Tally(1, 0, 0));
    UpdateLast(s.procs, failing, Done);
  }

  lemma FailedMarkPostsTwice(s: Sys, data: Payload)
    requires Postable(s, data)
    ensures Posts(Run(s, FailedMarkRun(s, data)), data.item) == Posts(s, data.item) + 2
  {
    var a := |s.procs|;
    MarkLost(s, data);
    var _ := PostLike(s, s, Then(Post([], a, data) + [Go(a, WriteFails())], a, 1), data, s.procs + [Done], Tally(1, 0, 0));
  }

  /**
   * No handlers overlap, no write fails and nothing crashes; but between a handler's post and its status write the
   * item is cancelled back to approved, and it is published again after the handler has given its warning.
   */
  function CancelRun(s: Sys, data: Payload): seq<Action> {
    var a := |s.procs|;
    Post(Publish(Then(Cancel(Post([], a, data), a + 1, data), a, 2), a + 2, data), a + 3, data)
  }

  lemma CancelWarns(s: Sys, acts: seq<Action>, data: Payload, row: nat)
    requires Ready(s, data)
    requires Like(s, Run(s, acts), data.item, s.procs + [JobPosted(data, false, row)], Scheduled, Tally(1, 0, 0))
    ensures var a := |s.procs|;
      Like(s, Run(s, Then(Cancel(acts, a + 1, data), a, 2)), data.item, s.procs + [Done] + [Done], Approved, Tally(1, 0, 0))
  {
    var a, procs := |s.procs|, s.procs + [JobPosted(data, false, row)];
    CancelLike(s, s, acts, data, procs, Scheduled, Tally(1, 0, 0));
    HandlerWarns(s, s, Cancel(acts, a + 1, data), a, data, row, procs + [Done], Tally(1, 0, 0));
    assert (procs + [Done])[a := Done] == s.procs + [Done] + [Done];
  }

  lemma PublishAndPost(s: Sys, acts: seq<Action>, data: Payload, procs: seq<Proc>)
    requires Ready(s, data) && Like(s, Run(s, acts), data.item, procs, Approved, Tally(1, 0, 0))
    ensures Posts(Run(s, Post(Publish(acts, |procs|, data), |procs| + 1, data)), data.item) == Posts(s, data.item) + 2
  {
    PublishLike(s, s, acts, data, procs, Tally(1, 0, 0));
    var _ := PostLike(s, s, Publish(acts, |procs|, data), data, procs + [Done], Tally(1, 1, 1));
  }

  lemma CancelAndPostAgain(s: Sys, acts: seq<Action>, data: Payload, row: nat)
    requires Ready(s, data)
    requires Like(s, Run(s, acts), data.item, s.procs + [JobPosted(data, false, row)], Scheduled, Tally(1, 0, 0))
    ensures var a := |s.procs|;
      Posts(Run(s, Post(Publish(Then(Cancel(acts, a + 1, data), a, 2), a + 2, data), a + 3, data)), data.item)
      == Posts(s, data.item) + 2
  {
    var a := |s.procs|;
    CancelWarns(s, acts, data, row);
    PublishAndPost(s, Then(Cancel(acts, a + 1, data), a, 2), data, s.procs + [Done] + [Done]);
  }

  lemma CancelledItemPostsTwice(s: Sys, data: Payload)
    requires Postable(s, data)
    ensures Posts(Run(s, CancelRun(s, data)), data.item) == Posts(s, data.item) + 2
  {
    var row := PostFromHere(s, data);
    CancelAndPostAgain(s, Post([], |s.procs|, data), data, row);
  }

  // ---- two enqueues for one entry -------------------------------------------

  /** The item is cancelled, a second request schedules and enqueues it, then the first request, `a`, enqueues. */
  function CancelAndPublish(a: ProcId, data: Payload): seq<Action> {
    Then(Publish(Cancel([], a + 1, data), a + 2, data), a, 1)
  }

  lemma CancelThenPublish(s: Sys, t: Sys, data: Payload, procs: seq<Proc>, n: Tally)
    requires Ready(s, data) && Like(s, t, data.item, procs, Scheduled, n)
    ensures Like(s, Run(t, Publish(Cancel([], |procs|, data), |procs| + 1, data)), data.item, procs + [Done] + [Done], Scheduled,
                 n.(entries := n.entries + 1, enqueues := n.enqueues + 1))
  {
    assert Run(t, []) == t;
    CancelLike(s, t, [], data, procs, Scheduled, n);
    PublishLike(s, t, Cancel([], |procs|, data), data, procs + [Done], n);
  }

  lemma ClaimFromHere(s: Sys, data: Payload)
    requires Ready(s, data) && s.items[data.item].status == Approved
    ensures Like(s, Run(s, Claim([], |s.procs|, data)), data.item, s.procs + [Claimed(data)], Scheduled, Tally(0, 1, 0))
  {
    LikeItself(s, data.item);
    ClaimLike(s, s, [], data, s.procs, Tally(0, 0, 0));
  }

  lemma WaitingClaimGoesOn(s: Sys, t: Sys, data: Payload)
    requires Ready(s, data) && Like(s, t, data.item, s.procs + [Claimed(data)], Scheduled, Tally(0, 1, 0))
    ensures var u := Run(t, CancelAndPublish(|s.procs|, data));
      Entries(u, data.item) == Entries(s, data.item) + 2 && Enqueues(u, data.item) == Enqueues(s, data.item) + 2
  {
    var a, procs := |s.procs|, s.procs + [Claimed(data)];
    CancelThenPublish(s, t, data, procs, Tally(0, 1, 0));
    ClaimEnqueues(s, t, Publish(Cancel([], a + 1, data), a + 2, data), a, data, procs + [Done] + [Done], Scheduled,
                  Tally(0, 2, 1));
  }

  /** In a window that starts with a claim waiting, one entry into scheduled can be followed by two enqueues. */
  lemma WaitingClaimEnqueuesTwice(s: Sys, data: Payload)
    requires Ready(s, data) && s.items[data.item].status == Approved
    ensures var t := Run(s, Claim([], |s.procs|, data)); var u := Run(t, CancelAndPublish(|s.procs|, data));
      Entries(u, data.item) == Entries(t, data.item) + 1 && Enqueues(u, data.item) == Enqueues(t, data.item) + 2
  {
    ClaimFromHere(s, data);
    WaitingClaimGoesOn(s, Run(s, Claim([], |s.procs|, data)), data);
  }

  // ---- such states are reachable --------------------------------------------

  /** An account and a draft are set up. */
  function Setup(data: Payload, client: Id, copy: Copy): seq<Action> {
    [SetAccount(data.account, Account(data.agency, client))] + [AddItem(data.item, data.agency, client, None, Some(copy))]
  }

  /** The draft is submitted, approved and published. */
  function Launch(data: Payload): seq<Action> {
    Publish(Cancel(Submit(data), 1, data), 2, data)
  }

  lemma AccountIsSet(s: Sys, data: Payload, client: Id)
    ensures var account := Account(data.agency, client);
      Run(s, [SetAccount(data.account, account)]) == s.(accounts := s.accounts[data.account := account])
  {
    var connect := SetAccount(data.account, Account(data.agency, client));
    assert [] + [connect] == [connect];
    RunOne(s, [], connect);
  }

  lemma DraftIsAdded(s: Sys, data: Payload, client: Id, copy: Copy)
    requires s.items == map[] && s.configs == map[] && copy.caption != "" && Complies(Some(copy), s.fallback)
    requires data.account in s.accounts && s.accounts[data.account] == Account(data.agency, client)
    ensures var t := Step(s, AddItem(data.item, data.agency, client, None, Some(copy)));
      Ready(t, data) && t.items[data.item].status == Draft && t.procs == s.procs && t.trace == s.trace
  {
  }

  lemma SetupIs(fallback: Config, data: Payload, client: Id, copy: Copy)
    requires copy.caption != "" && Complies(Some(copy), fallback)
    ensures var s := Run(Start(fallback), Setup(data, client, copy));
      Ready(s, data) && s.items[data.item].status == Draft && s.procs == [] && s.trace == []
  {
    var connect := SetAccount(data.account, Account(data.agency, client));
    AccountIsSet(Start(fallback), data, client);
    RunOne(Start(fallback), [connect], AddItem(data.item, data.agency, client, None, Some(copy)));
    DraftIsAdded(Run(Start(fallback), [connect]), data, client, copy);
  }

  lemma SubmitEffects(s: Sys, t: Sys, a: ProcId, data: Payload, procs: seq<Proc>, n: Tally)
    requires Ready(s, data) && Like(s, t, data.item, procs, Draft, n)
    ensures var f := MoveFlip(data, Draft, InReview, Return);
      && EffectOf(t, a, MoveCalled(data.agency, data.item, InReview, Return), Fine())
         == Logged(FlipReady(f), ReadStatus(a, data.item, Draft))
      && EffectOf(t, a, FlipReady(f), Fine()) == Logged(Done, Moved(a, data.item, Draft, InReview))
  {
  }

  lemma SubmitRuns(s: Sys, t: Sys, acts: seq<Action>, a: ProcId, data: Payload, procs: seq<Proc>, n: Tally)
    requires Ready(s, data) && Like(s, Run(t, acts), data.item, procs, Draft, n)
    requires a < |procs| && procs[a] == MoveCalled(data.agency, data.item, InReview, Return)
    ensures Like(s, Run(t, Then(acts, a, 2)), data.item, procs[a := Done], InReview, n)
  {
    var x, f := data.item, MoveFlip(data, Draft, InReview, Return);
    ThenNothing(acts, a, procs);
    SubmitEffects(s, Run(t, Then(acts, a, 0)), a, data, procs, n);
    ThenLike(s, t, acts, a, 0, procs[a], Logged(FlipReady(f), ReadStatus(a, x, Draft)), x, procs, Draft, n);
    SubmitEffects(s, Run(t, Then(acts, a, 1)), a, data, procs[a := FlipReady(f)], n);
    ThenLike(s, t, acts, a, 1, FlipReady(f), Logged(Done, Moved(a, x, Draft, InReview)), x, procs, Draft, n);
  }

  function Submit(data: Payload): seq<Action> {
    Then([] + [Call(MoveCalled(data.agency, data.item, InReview, Return))], 0, 2)
  }

  lemma SubmitFromHere(s: Sys, data: Payload)
    requires Ready(s, data) && s.items[data.item].status == Draft && s.procs == []
    ensures Like(s, Run(s, Submit(data)), data.item, [Done], InReview, Tally(0, 0, 0))
  {
    var move := MoveCalled(data.agency, data.item, InReview, Return);
    LikeItself(s, data.item);
    CallLike(s, s, [], move, data.item, [], Draft, Tally(0, 0, 0));
    SubmitRuns(s, s, [] + [Call(move)], 0, data, [] + [move], Tally(0, 0, 0));
  }

  lemma LaunchFromHere(s: Sys, data: Payload)
    requires Ready(s, data) && s.items[data.item].status == Draft && s.procs == []
    ensures Like(s, Run(s, Launch(data)), data.item, [Done] + [Done] + [Done], Scheduled, Tally(0, 1, 1))
    ensures data in Run(s, Launch(data)).queue
  {
    SubmitFromHere(s, data);
    CancelLike(s, s, Submit(data), data, [Done], InReview, Tally(0, 0, 0));
    PublishLike(s, s, Cancel(Submit(data), 1, data), data, [Done] + [Done], Tally(0, 0, 0));
  }

  /** A submitted, approved and published item whose caption complies is postable, and was not posted. */
  lemma PostableIsReachable(fallback: Config, data: Payload, client: Id, copy: Copy)
    requires copy.caption != "" && Complies(Some(copy), fallback)
    ensures var s := Run(Start(fallback), Setup(data, client, copy) + Launch(data));
      Postable(s, data) && Posts(s, data.item) == 0
  {
    var s := Run(Start(fallback), Setup(data, client, copy));
    SetupIs(fallback, data, client, copy);
    LaunchFromHere(s, data);
    RunConcat(Start(fallback), Setup(data, client, copy), Launch(data));
  }

  /** A submitted and approved item is ready to be claimed twice. */
  lemma ApprovedIsReachable(fallback: Config, data: Payload, client: Id, copy: Copy)
    requires copy.caption != "" && Complies(Some(copy), fallback)
    ensures var s := Run(Start(fallback), Setup(data, client, copy) + Cancel(Submit(data), 1, data));
      Ready(s, data) && s.items[data.item].status == Approved
  {
    var s := Run(Start(fallback), Setup(data, client, copy));
    SetupIs(fallback, data, client, copy);
    SubmitFromHere(s, data);
    CancelLike(s, s, Submit(data), data, [Done], InReview, Tally(0, 0, 0));
    RunConcat(Start(fallback), Setup(data, client, copy), Cancel(Submit(data), 1, data));
  }

  /** From the empty system: an item is posted twice in each of the three ways. */
  lemma TwoPostsAreReachable(fallback: Config, data: Payload, client: Id, copy: Copy)
    requires copy.caption != "" && Complies(Some(copy), fallback)
    ensures var launch := Setup(data, client, copy) + Launch(data);
      forall acts :: PostsAgain(Run(Start(fallback), launch), data, acts) ==>
        Posts(Run(Start(fallback), launch + acts), data.item) == 2
  {
    var launch := Setup(data, client, copy) + Launch(data);
    var s := Run(Start(fallback), launch);
    PostableIsReachable(fallback, data, client, copy);
    forall acts | PostsAgain(s, data, acts) ensures Posts(Run(Start(fallback), launch + acts), data.item) == 2 {
      PostsTwice(s, data, acts);
      RunConcat(Start(fallback), launch, acts);
    }
  }

  ghost predicate PostsAgain(s: Sys, data: Payload, acts: seq<Action>) {
    acts == OverlapRun(s, data) || acts == FailedMarkRun(s, data) || acts == CancelRun(s, data)
  }

  lemma PostsTwice(s: Sys, data: Payload, acts: seq<Action>)
    requires Postable(s, data) && PostsAgain(s, data, acts)
    ensures Posts(Run(s, acts), data.item) == Posts(s, data.item) + 2
  {
    OverlappingHandlersPostTwice(s, data);
    FailedMarkPostsTwice(s, data);
    CancelledItemPostsTwice(s, data);
  }
}
