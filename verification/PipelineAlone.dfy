/** The in-place methods of PipelineService do what the protocol does when one operation runs without interference. */
module PipelineAlone {
  import opened Errors
  import opened Seqs
  import opened StateMachine
  import opened Pipeline
  import opened PipelineService

  /** What an operation that runs alone can change: its own counter, the items, the job rows, the queue, the comments. */
  datatype Local = Local(p: Proc, items: map<Id, Item>, rows: seq<Row>, queue: set<Payload>, comments: seq<(Id, string)>)

  /** `s` with one more operation, in this local state. */
  function With(s: Sys, m: Local): Sys {
    s.(procs := s.procs + [m.p], items := m.items, rows := m.rows, queue := m.queue, comments := m.comments)
  }

  /** The operation `p` about to run in `s`. */
  function Now(s: Sys, p: Proc): Local {
    Local(p, s.items, s.rows, s.queue, s.comments)
  }

  function After(m: Local, a: ProcId, e: Effect): Local {
    Local(e.next, ItemsAfter(m.items, e.event), RowsAfter(m.rows, a, e.write),
          if e.write.Offer? then m.queue + {e.write.payload} else m.queue,
          if e.write.Comment? then m.comments + [(e.write.item, e.write.text)] else m.comments)
  }

  // ---- where an operation ends up -------------------------------------------

  /** A last conditional write of `to`, if the item still has status `from`. */
  function Flipped(items: map<Id, Item>, scope: Scope, x: Id, from: ItemStatus, to: ItemStatus): map<Id, Item> {
    if Matches(items, scope, x, from) then WithStatus(items, x, to) else items
  }

  function RowSet(rows: seq<Row>, row: nat, state: RowState): seq<Row> {
    RowsAfter(rows, 0, SetRow(row, state))
  }

  /** What follows a won status write: nothing, the enqueue, or the reviewer's comment. */
  function FollowUp(m: Local, f: Flip): Local {
    match f.after
    case Return => m.(p := Done)
    case EnqueueNext(payload) => m.(p := Done, queue := m.queue + {payload})
    case SaveComment(client, text) => CommentVerdict(m, client, f.item, text)
  }

  function CommentVerdict(m: Local, client: Id, x: Id, text: string): Local {
    if Find(m.items, ByClient(client), x).Some? then m.(p := Done, comments := m.comments + [(x, text)]) else m.(p := Done)
  }

  function FlipVerdict(m: Local, f: Flip): Local {
    if Matches(m.items, f.scope, f.item, f.from)
    then FollowUp(m.(items := WithStatus(m.items, f.item, f.to)), f) else m.(p := Done)
  }

  function GatedVerdict(s: Sys, m: Local, f: Flip): Local {
    if f.to == Approved && GateOutcome(m.items, s.configs, s.fallback, f.gateAgency, f.item).Err?
    then m.(p := Done) else FlipVerdict(m, f)
  }

  function MoveVerdict(s: Sys, m: Local, agency: Id, x: Id, to: ItemStatus, after: Pipeline.After): Local {
    var found := Find(m.items, ByAgency(agency), x);
    if found.None? || !CanTransition(found.value.status, to) then m.(p := Done)
    else GatedVerdict(s, m, Flip(ByAgency(agency), agency, x, found.value.status, to, after))
  }

  function DecideVerdict(s: Sys, m: Local, share: Share, x: Id, approve: bool, comment: string): Local {
    var found := Find(m.items, ByClient(share.client), x);
    if found.None? || !DecisionAccepted(found.value, approve, comment) then m.(p := Done)
    else GatedVerdict(s, m, Flip(ByClient(share.client), share.agency, x, InReview,
                                 if approve then Approved else Draft,
                                 if comment != "" then SaveComment(share.client, comment) else Return))
  }

  function FailVerdict(m: Local, data: Payload, giveUp: bool, row: nat): Local {
    m.(p := Done,
       items := if giveUp then Flipped(m.items, ByAgency(data.agency), data.item, Scheduled, Failed) else m.items,
       rows := RowSet(m.rows, row, RowFailed))
  }

  function PostedVerdict(m: Local, data: Payload, row: nat): Local {
    m.(p := Done, items := Flipped(m.items, ByAgency(data.agency), data.item, Scheduled, Published),
       rows := RowSet(m.rows, row, RowPublished))
  }

  function TryVerdict(m: Local, data: Payload, final: bool, client: Id, seen: Item, row: nat, post: PostResult): Local {
    match TryResult(client, seen, post)
    case PostOk => PostedVerdict(m, data, row)
    case PostError(err) => FailVerdict(m, data, !IsRetryable(err) || final, row)
  }

  function OpenVerdict(s: Sys, m: Local, data: Payload, final: bool, client: Id, seen: Item, post: PostResult): Local {
    TryVerdict(m.(rows := m.rows + [Row(data.item, |s.procs|, Posting)]), data, final, client, seen, |m.rows|, post)
  }

  function ReadVerdict(s: Sys, m: Local, data: Payload, final: bool, client: Id, post: PostResult): Local {
    var found := Find(m.items, ByAgency(data.agency), data.item);
    if found.None? || found.value.status == Published then m.(p := Done)
    else OpenVerdict(s, m, data, final, client, found.value, post)
  }

  /** The rest of a tick's loop: claim, enqueue, note the id unless the enqueue throws. */
  function TickVerdict(m: Local, limit: nat, due: seq<Payload>, i: nat, ids: seq<Id>, refused: set<Id>): Local
    decreases |due| - i
  {
    if i >= |due| then m.(p := TickReturned(limit, due, ids))
    else if Matches(m.items, ByAgency(due[i].agency), due[i].item, Approved)
    then TickVerdict(Taken(m, due, i), limit, due, i + 1, Noted(due, i, ids, refused), refused)
    else TickVerdict(m, limit, due, i + 1, ids, refused)
  }

  /** Item `i` of the due list is claimed and offered to the queue. */
  function Taken(m: Local, due: seq<Payload>, i: nat): Local
    requires i < |due|
  {
    m.(items := WithStatus(m.items, due[i].item, Scheduled), queue := m.queue + {due[i]})
  }

  function Noted(due: seq<Payload>, i: nat, ids: seq<Id>, refused: set<Id>): seq<Id>
    requires i < |due|
  {
    if due[i].item in refused then ids else ids + [due[i].item]
  }

  /** How an operation that is left alone will end, from wherever it is now; store writes succeed. */
  function Verdict(s: Sys, c: Choice, m: Local): Local {
    match m.p
    case Done => m
    case MoveCalled(agency, x, to, after) => MoveVerdict(s, m, agency, x, to, after)
    case DecideCalled(token, x, approve, comment) =>
      if token in s.shares then DecideVerdict(s, m, s.shares[token], x, approve, comment) else m.(p := Done)
    case DecideShared(share, x, approve, comment) => DecideVerdict(s, m, share, x, approve, comment)
    case GateCalled(f) =>
      if GateOutcome(m.items, s.configs, s.fallback, f.gateAgency, f.item).Ok? then FlipVerdict(m, f) else m.(p := Done)
    case GateLoaded(f, copy) =>
      if Complies(copy, ConfigOf(s.configs, s.fallback, f.gateAgency)) then FlipVerdict(m, f) else m.(p := Done)
    case FlipReady(f) => FlipVerdict(m, f)
    case Commenting(client, x, text) => CommentVerdict(m, client, x, text)
    case Claimed(payload) => m.(p := Done, queue := m.queue + {payload})
    case TickCalled(_, limit, _) => TickVerdict(m.(p := Done), limit, c.due, 0, [], c.refused)
    case TickAt(limit, due, i, ids) => TickVerdict(m.(p := Done), limit, due, i, ids, c.refused)
    case TickClaimed(limit, due, i, ids) =>
      if i >= |due| then TickVerdict(m.(p := Done), limit, due, i, ids, c.refused)
      else TickVerdict(m.(p := Done, queue := m.queue + {due[i]}), limit, due, i + 1, Noted(due, i, ids, c.refused), c.refused)
    case TickReturned(_, _, _) => m
    case RouteCalled(data) =>
      var account := FindAccount(s.accounts, data.agency, data.account);
      if account.None? then m.(p := Done) else RouteVerdict(s, m, data, account.value.client)
    case RouteAccount(data, client) => RouteVerdict(s, m, data, client)
    case JobCalled(data, final) =>
      var account := FindAccount(s.accounts, data.agency, data.account);
      if account.None? then m.(p := Done) else ReadVerdict(s, m, data, final, account.value.client, c.post)
    case JobAccount(data, final, client) => ReadVerdict(s, m, data, final, client, c.post)
    case JobItem(data, final, client, seen) => OpenVerdict(s, m, data, final, client, seen, c.post)
    case JobOpen(data, final, client, seen, row) => TryVerdict(m, data, final, client, seen, row, c.post)
    case JobPosted(data, _, row) => PostedVerdict(m, data, row)
    case JobMarked(data, _, _) =>
      m.(p := Done, items := Flipped(m.items, ByAgency(data.agency), data.item, Scheduled, Published))
    case JobFailing(data, giveUp, row) => FailVerdict(m, data, giveUp, row)
    case JobFailed(data) => m.(p := Done, items := Flipped(m.items, ByAgency(data.agency), data.item, Scheduled, Failed))
  }

  function RouteVerdict(s: Sys, m: Local, data: Payload, client: Id): Local {
    var found := Find(m.items, ByAgency(data.agency), data.item);
    if found.None? || found.value.client != client then m.(p := Done)
    else MoveVerdict(s, m, data.agency, data.item, Scheduled, EnqueueNext(data))
  }

  /** How many steps are left at most. */
  function Rank(p: Proc, c: Choice): nat {
    match p
    case Done => 0
    case TickReturned(_, _, _) => 0
    case Commenting(_, _, _) => 1
    case Claimed(_) => 1
    case FlipReady(_) => 2
    case GateLoaded(_, _) => 3
    case GateCalled(_) => 4
    case MoveCalled(_, _, _, _) => 5
    case DecideShared(_, _, _, _) => 5
    case DecideCalled(_, _, _, _) => 6
    case RouteAccount(_, _) => 6
    case RouteCalled(_) => 7
    case TickCalled(_, _, _) => 2 * |c.due| + 1
    case TickAt(_, due, i, _) => if i < |due| then 2 * (|due| - i) else 1
    case TickClaimed(_, due, i, _) => if i < |due| then 2 * (|due| - i) - 1 else 1
    case JobFailed(_) => 1
    case JobMarked(_, _, _) => 1
    case JobFailing(_, _, _) => 2
    case JobPosted(_, _, _) => 2
    case JobOpen(_, _, _, _, _) => 3
    case JobItem(_, _, _, _) => 4
    case JobAccount(_, _, _) => 5
    case JobCalled(_, _) => 6
  }

  // ---- every step keeps the verdict -----------------------------------------

  ghost predicate KeepsVerdict(s: Sys, c: Choice, m: Local) {
    var e := EffectOf(With(s, m), |s.procs|, m.p, c);
    Verdict(s, c, After(m, |s.procs|, e)) == Verdict(s, c, m) && Rank(e.next, c) < Rank(m.p, c)
  }

  lemma MoveKeepsVerdict(s: Sys, c: Choice, m: Local)
    requires m.p.MoveCalled?
    ensures KeepsVerdict(s, c, m)
  {
  }

  lemma DecideKeepsVerdict(s: Sys, c: Choice, m: Local)
    requires m.p.DecideCalled? || m.p.DecideShared?
    ensures KeepsVerdict(s, c, m)
  {
  }

  lemma RouteKeepsVerdict(s: Sys, c: Choice, m: Local)
    requires m.p.RouteCalled? || m.p.RouteAccount?
    ensures KeepsVerdict(s, c, m)
  {
  }

  lemma FlipKeepsVerdict(s: Sys, c: Choice, m: Local)
    requires m.p.GateCalled? || m.p.GateLoaded? || m.p.FlipReady? || m.p.Commenting? || m.p.Claimed?
    ensures KeepsVerdict(s, c, m)
  {
  }

  lemma VerdictOfNext(s: Sys, c: Choice, m: Local, limit: nat, due: seq<Payload>, i: nat, ids: seq<Id>)
    ensures Verdict(s, c, m.(p := NextInTick(limit, due, i, ids))) == TickVerdict(m.(p := Done), limit, due, i, ids, c.refused)
  {
  }

  lemma TickCallKeepsVerdict(s: Sys, c: Choice, m: Local)
    requires m.p.TickCalled?
    ensures KeepsVerdict(s, c, m)
  {
    VerdictOfNext(s, c, m, m.p.limit, c.due, 0, []);
  }

  lemma TickClaimKeepsVerdict(s: Sys, c: Choice, m: Local)
    requires m.p.TickAt?
    ensures KeepsVerdict(s, c, m)
  {
    VerdictOfNext(s, c, m, m.p.limit, m.p.due, m.p.i + 1, m.p.ids);
  }

  lemma TickEnqueueKeepsVerdict(s: Sys, c: Choice, m: Local)
    requires m.p.TickClaimed?
    ensures KeepsVerdict(s, c, m)
  {
    if m.p.i < |m.p.due| {
      VerdictOfNext(s, c, m.(queue := m.queue + {m.p.due[m.p.i]}), m.p.limit, m.p.due, m.p.i + 1,
                    Noted(m.p.due, m.p.i, m.p.ids, c.refused));
    }
  }

  lemma JobReadKeepsVerdict(s: Sys, c: Choice, m: Local)
    requires m.p.JobCalled? || m.p.JobAccount?
    ensures KeepsVerdict(s, c, m)
  {
  }

  lemma JobOpenKeepsVerdict(s: Sys, c: Choice, m: Local)
    requires m.p.JobItem?
    ensures KeepsVerdict(s, c, m)
  {
  }

  lemma JobTryKeepsVerdict(s: Sys, c: Choice, m: Local)
    requires m.p.JobOpen?
    ensures KeepsVerdict(s, c, m)
  {
  }

  lemma JobWriteKeepsVerdict(s: Sys, c: Choice, m: Local)
    requires (m.p.JobPosted? || m.p.JobMarked?) && !c.throws
    ensures KeepsVerdict(s, c, m)
  {
  }

  lemma JobCatchKeepsVerdict(s: Sys, c: Choice, m: Local)
    requires m.p.JobFailing? || m.p.JobFailed?
    ensures KeepsVerdict(s, c, m)
  {
  }

  lemma StepKeepsVerdict(s: Sys, c: Choice, m: Local)
    requires !c.throws && !Finished(m.p)
    ensures KeepsVerdict(s, c, m)
  {
    if m.p.JobPosted? || m.p.JobMarked? { JobWriteKeepsVerdict(s, c, m); }
    else if m.p.JobFailing? || m.p.JobFailed? { JobCatchKeepsVerdict(s, c, m); }
    else if m.p.JobOpen? { JobTryKeepsVerdict(s, c, m); }
    else if m.p.JobItem? { JobOpenKeepsVerdict(s, c, m); }
    else if IsJob(m.p) { JobReadKeepsVerdict(s, c, m); }
    else if m.p.TickCalled? { TickCallKeepsVerdict(s, c, m); }
    else if m.p.TickAt? { TickClaimKeepsVerdict(s, c, m); }
    else if m.p.TickClaimed? { TickEnqueueKeepsVerdict(s, c, m); }
    else if m.p.MoveCalled? { MoveKeepsVerdict(s, c, m); }
    else if m.p.DecideCalled? || m.p.DecideShared? { DecideKeepsVerdict(s, c, m); }
    else if m.p.RouteCalled? || m.p.RouteAccount? { RouteKeepsVerdict(s, c, m); }
    else { FlipKeepsVerdict(s, c, m); }
  }

  /** `t` is `s` with one more operation in local state `m`; only the trace may have grown besides. */
  ghost predicate At(s: Sys, t: Sys, m: Local) {
    t == With(s, m).(trace := t.trace)
  }

  lemma StepAt(s: Sys, t: Sys, m: Local, c: Choice)
    requires At(s, t, m) && Enabled(t, Go(|s.procs|, c))
    ensures At(s, Step(t, Go(|s.procs|, c)), After(m, |s.procs|, EffectOf(With(s, m), |s.procs|, m.p, c)))
  {
    SameEffect(s, t, m, c);
  }

  lemma SameEffect(s: Sys, t: Sys, m: Local, c: Choice)
    requires At(s, t, m)
    ensures EffectOf(t, |s.procs|, m.p, c) == EffectOf(With(s, m), |s.procs|, m.p, c)
  {
  }

  /** Nothing but the first step of a tick asks the due query. */
  lemma OnlyCallsAreTicks(s: Sys, a: ProcId, p: Proc, c: Choice)
    ensures !EffectOf(s, a, p, c).next.TickCalled?
  {
  }

  lemma FinishedVerdict(s: Sys, c: Choice, m: Local)
    requires Rank(m.p, c) == 0 || Finished(m.p)
    ensures Finished(m.p) && Verdict(s, c, m) == m
  {
  }

  /** `t` is on the way to verdict `v`, at most `k` steps off. */
  ghost predicate OnTrack(s: Sys, c: Choice, t: Sys, v: Local, k: int) {
    exists m :: At(s, t, m) && TrackOk(s, c, m, v, k)
  }

  ghost predicate TrackOk(s: Sys, c: Choice, m: Local, v: Local, k: int) {
    && Verdict(s, c, m) == v && (Rank(m.p, c) <= k || Finished(m.p))
    && (m.p.TickCalled? ==> IsDueList(m.items, m.p.now, m.p.limit, m.p.only, c.due))
  }

  ghost function Next(t: Sys, act: Action): Sys {
    if Enabled(t, act) then Step(t, act) else t
  }

  lemma StepOnTrack(s: Sys, c: Choice, m: Local, v: Local, k: int)
    requires TrackOk(s, c, m, v, k) && !c.throws && !Finished(m.p)
    ensures TrackOk(s, c, After(m, |s.procs|, EffectOf(With(s, m), |s.procs|, m.p, c)), v, k - 1)
  {
    StepKeepsVerdict(s, c, m);
    OnlyCallsAreTicks(With(s, m), |s.procs|, m.p, c);
  }

  lemma NextOnTrack(s: Sys, c: Choice, t: Sys, v: Local, k: int)
    requires OnTrack(s, c, t, v, k) && !c.throws
    ensures OnTrack(s, c, Next(t, Go(|s.procs|, c)), v, k - 1)
  {
    var m :| At(s, t, m) && TrackOk(s, c, m, v, k);
    if Finished(m.p) {
      assert At(s, t, m) && TrackOk(s, c, m, v, k - 1);
    } else {
      StepAt(s, t, m, c);
      StepOnTrack(s, c, m, v, k);
    }
  }

  lemma {:induction false} RunOnTrack(s: Sys, c: Choice, t: Sys, v: Local, k: int, n: nat)
    requires OnTrack(s, c, t, v, k) && !c.throws
    ensures OnTrack(s, c, Run(t, GoOn(|s.procs|, c, n)), v, k - n)
  {
    if n > 0 {
      RunOnTrack(s, c, t, v, k, n - 1);
      RunOne(t, GoOn(|s.procs|, c, n - 1), Go(|s.procs|, c));
      NextOnTrack(s, c, Run(t, GoOn(|s.procs|, c, n - 1)), v, k - (n - 1));
    }
  }

  lemma AloneReachesVerdict(s: Sys, p: Proc, c: Choice, n: nat)
    requires !c.throws && n >= Rank(p, c)
    requires p.TickCalled? ==> IsDueList(s.items, p.now, p.limit, p.only, c.due)
    ensures At(s, Alone(s, p, c, n), Verdict(s, c, Now(s, p)))
  {
    var t, m := s.(procs := s.procs + [p]), Now(s, p);
    assert At(s, t, m) && TrackOk(s, c, m, Verdict(s, c, m), Rank(p, c));
    RunOnTrack(s, c, t, Verdict(s, c, m), Rank(p, c), n);
    EndOfTrack(s, c, Alone(s, p, c, n), Verdict(s, c, m), Rank(p, c) - n);
  }

  lemma EndOfTrack(s: Sys, c: Choice, t: Sys, v: Local, k: int)
    requires OnTrack(s, c, t, v, k) && k <= 0
    ensures At(s, t, v)
  {
    var m :| At(s, t, m) && TrackOk(s, c, m, v, k);
    FinishedVerdict(s, c, m);
  }

  // ---- the verdicts are the specifications of the methods -------------------

  function Answer(post: PostResult): Choice {
    Choice(post, false, [], {})
  }

  lemma JobVerdict(s: Sys, data: Payload, final: bool, post: PostResult)
    ensures Verdict(s, Answer(post), Now(s, JobCalled(data, final)))
         == Now(s, Done).(items := ItemsAfterJob(s.items, s.accounts, data, final, post),
                          rows := RowsAfterJob(s.items, s.accounts, s.rows, |s.procs|, data, post))
  {
    var rows := s.rows + [Row(data.item, |s.procs|, Posting)];
    assert RowSet(rows, |s.rows|, RowFailed) == s.rows + [Row(data.item, |s.procs|, RowFailed)];
    assert RowSet(rows, |s.rows|, RowPublished) == s.rows + [Row(data.item, |s.procs|, RowPublished)];
  }

  /**
   * A delivered handler that runs without interference ends with exactly the items and rows that
   * Backend.RunPublishJob produces in place, and leaves queue and comments alone.
   */
  lemma JobAlone(s: Sys, data: Payload, final: bool, post: PostResult, n: nat)
    requires n >= 6
    ensures At(s, Alone(s, JobCalled(data, final), Answer(post), n),
               Now(s, Done).(items := ItemsAfterJob(s.items, s.accounts, data, final, post),
                             rows := RowsAfterJob(s.items, s.accounts, s.rows, |s.procs|, data, post)))
  {
    AloneReachesVerdict(s, JobCalled(data, final), Answer(post), n);
    JobVerdict(s, data, final, post);
  }

  /** A move that runs without interference ends with exactly the items Backend.Move produces in place. */
  lemma MoveAlone(s: Sys, agency: Id, x: Id, to: ItemStatus, post: PostResult, n: nat)
    requires n >= 5
    ensures At(s, Alone(s, MoveCalled(agency, x, to, Return), Answer(post), n),
               Now(s, Done).(items := if MoveOutcome(s.items, s.configs, s.fallback, agency, x, to).Ok?
                                      then WithStatus(s.items, x, to) else s.items))
  {
    AloneReachesVerdict(s, MoveCalled(agency, x, to, Return), Answer(post), n);
  }

  /**
   * A reviewer decision that runs without interference ends with exactly the items and comments that
   * Backend.Decide produces.
   */
  lemma DecideAlone(s: Sys, token: Token, x: Id, approve: bool, comment: string, post: PostResult, n: nat)
    requires n >= 6
    ensures var share := if token in s.shares then Some(s.shares[token]) else None;
      var decided := DecideOutcome(s.items, s.configs, s.fallback, share, x, approve, comment).Ok?;
      At(s, Alone(s, DecideCalled(token, x, approve, comment), Answer(post), n),
         Now(s, Done).(items := if decided then WithStatus(s.items, x, if approve then Approved else Draft) else s.items,
                       comments := if decided && comment != "" then s.comments + [(x, comment)] else s.comments))
  {
    AloneReachesVerdict(s, DecideCalled(token, x, approve, comment), Answer(post), n);
  }

  /**
   * A publish request that runs without interference schedules exactly the item, and queues exactly the job, that
   * Backend.Publish does when its enqueue goes through.
   */
  lemma PublishAlone(s: Sys, data: Payload, post: PostResult, n: nat)
    requires n >= 7
    ensures var scheduled := PublishOutcome(s.items, s.accounts, data).Ok?;
      At(s, Alone(s, RouteCalled(data), Answer(post), n),
         Now(s, Done).(items := if scheduled then WithStatus(s.items, data.item, Scheduled) else s.items,
                       queue := if scheduled then s.queue + {data} else s.queue))
  {
    AloneReachesVerdict(s, RouteCalled(data), Answer(post), n);
  }

  /** The loop as far as position `i`, in the terms of the specification. */
  function TickFrom(m: Local, limit: nat, due: seq<Payload>, i: nat, refused: set<Id>): Local
    requires i <= |due|
  {
    TickVerdict(m.(items := ScheduleAll(m.items, due[..i]), queue := m.queue + AsSet(due[..i])), limit, due, i,
                ItemsOf(Accepted(due[..i], refused)), refused)
  }

  lemma AsSetNext(queue: set<Payload>, due: seq<Payload>, i: nat)
    requires i < |due|
    ensures queue + AsSet(due[..i + 1]) == queue + AsSet(due[..i]) + {due[i]}
  {
    assert due[..i + 1] == due[..i] + [due[i]];
  }

  lemma TickRound(m: Local, limit: nat, due: seq<Payload>, i: nat, refused: set<Id>)
    requires i < |due| && Claimable(m.items, due, i)
    ensures TickFrom(m, limit, due, i, refused) == TickFrom(m, limit, due, i + 1, refused)
  {
    var ids := ItemsOf(Accepted(due[..i], refused));
    AcceptedNext(due, refused, i);
    ScheduleNext(m.items, due, i);
    AsSetNext(m.queue, due, i);
    assert Noted(due, i, ids, refused) == ids + (if due[i].item in refused then [] else [due[i].item]);
  }

  lemma {:induction false} TickRounds(m: Local, limit: nat, due: seq<Payload>, i: nat, refused: set<Id>)
    requires i <= |due| && forall k :: 0 <= k < |due| ==> Claimable(m.items, due, k)
    ensures TickFrom(m, limit, due, 0, refused) == TickFrom(m, limit, due, i, refused)
  {
    if i > 0 {
      TickRounds(m, limit, due, i - 1, refused);
      assert Claimable(m.items, due, i - 1);
      TickRound(m, limit, due, i - 1, refused);
    }
  }

  lemma TickVerdictIs(m: Local, limit: nat, due: seq<Payload>, refused: set<Id>)
    requires forall k :: 0 <= k < |due| ==> Claimable(m.items, due, k)
    ensures TickVerdict(m, limit, due, 0, [], refused)
         == m.(p := TickReturned(limit, due, ItemsOf(Accepted(due, refused))), items := ScheduleAll(m.items, due),
               queue := m.queue + AsSet(due))
  {
    assert due[..0] == [] && ItemsOf(Accepted([], refused)) == [] && due[..|due|] == due;
    assert m.queue + AsSet([]) == m.queue;
    TickRounds(m, limit, due, |due|, refused);
  }

  lemma AllClaimable(items: map<Id, Item>, now: int, limit: nat, only: Option<Id>, list: seq<Payload>)
    requires IsDueList(items, now, limit, only, list)
    ensures forall i :: 0 <= i < |list| ==> Claimable(items, list, i)
  {
    forall i | 0 <= i < |list| ensures Claimable(items, list, i) {
      DueIsClaimable(items, now, limit, only, list, i);
    }
  }

  /** A tick that runs without interference goes through its due list, however the query orders equal due times. */
  lemma TickGoesThrough(s: Sys, list: seq<Payload>, now: int, limit: nat, only: Option<Id>, refused: set<Id>, n: nat)
    requires IsDueList(s.items, now, limit, only, list) && n >= 2 * limit + 1
    ensures At(s, Alone(s, TickCalled(now, limit, only), Choice(PostOk, false, list, refused), n),
               Now(s, TickReturned(limit, list, ItemsOf(Accepted(list, refused)))).(
                 items := ScheduleAll(s.items, list), queue := s.queue + AsSet(list)))
  {
    AloneReachesVerdict(s, TickCalled(now, limit, only), Choice(PostOk, false, list, refused), n);
    AllClaimable(s.items, now, limit, only, list);
    TickVerdictIs(Now(s, Done), limit, list, refused);
  }

  /**
   * A tick that runs without interference returns and writes exactly what Backend.Tick does in place. The queue of
   * the protocol may have taken a job whose enqueue threw: it gets every claimed one.
   */
  lemma TickAlone(s: Sys, table: seq<Id>, now: int, limit: nat, only: Option<Id>, refused: set<Id>, n: nat)
    requires NoDup(table) && forall x :: x in s.items ==> x in table
    requires n >= 2 * limit + 1
    ensures var list := DueItems(s.items, table, now, limit, only);
      && At(s, Alone(s, TickCalled(now, limit, only), Choice(PostOk, false, list, refused), n),
            Now(s, TickReturned(limit, list, ItemsOf(Accepted(list, refused)))).(
              items := ScheduleAll(s.items, list), queue := s.queue + AsSet(list)))
      && AsSet(list) == AsSet(Accepted(list, refused)) + set d | d in list && d.item in refused
  {
    var list := DueItems(s.items, table, now, limit, only);
    DueItemsIsDueList(s.items, table, now, limit, only);
    TickGoesThrough(s, list, now, limit, only, refused, n);
    AcceptedOrRefused(list, refused);
  }
}
