/** What every interleaving of the pipeline keeps: local facts about running operations, and conservation laws. */
module PipelineInvariants {
  import opened Seqs
  import opened StateMachine
  import opened Pipeline

  // ---- local facts ----------------------------------------------------------

  /** Exactly the moves that enter `scheduled` are followed by an enqueue of that item. */
  predicate AfterOk(item: Id, to: ItemStatus, after: After) {
    && !to.Published? && !to.Failed?
    && (to.Scheduled? <==> after.EnqueueNext?)
    && (after.EnqueueNext? ==> after.payload.item == item)
  }

  predicate FlipOk(f: Flip) {
    CanTransition(f.from, f.to) && AfterOk(f.item, f.to, f.after)
  }

  /** A handler past `jobs.create` owns its row. */
  predicate OwnsRow(s: Sys, a: ProcId, item: Id, row: nat, states: set<RowState>) {
    row < |s.rows| && s.rows[row].actor == a && s.rows[row].item == item && s.rows[row].state in states
  }

  predicate ProcOk(s: Sys, a: ProcId, p: Proc) {
    match p
    case MoveCalled(_, item, to, after) => AfterOk(item, to, after)
    case GateCalled(f) => FlipOk(f) && f.to == Approved
    case GateLoaded(f, _) => FlipOk(f) && f.to == Approved
    case FlipReady(f) => FlipOk(f)
    case JobOpen(data, _, _, _, row) => OwnsRow(s, a, data.item, row, {Posting})
    case JobPosted(data, _, row) => OwnsRow(s, a, data.item, row, {Posting})
    case JobMarked(data, _, row) => OwnsRow(s, a, data.item, row, {RowPublished})
    case JobFailing(data, _, row) => OwnsRow(s, a, data.item, row, {Posting, RowPublished})
    case _ => true
  }

  ghost predicate ProcsOk(s: Sys) {
    forall a :: 0 <= a < |s.procs| ==> ProcOk(s, a, s.procs[a])
  }

  /** The operation that moves stays well-formed. */
  lemma OwnStepOk(s: Sys, a: ProcId, p: Proc, c: Choice)
    requires a < |s.procs| && ProcOk(s, a, p)
    ensures var e := EffectOf(s, a, p, c); ProcOk(Apply(s, a, e), a, e.next)
    ensures var e := EffectOf(s, a, p, c); e.write.SetRow? && e.write.row < |s.rows| ==> s.rows[e.write.row].actor == a
  {
  }

  /** A row is only ever written by the handler that opened it, so the others keep theirs. */
  lemma OthersStayOk(s: Sys, a: ProcId, e: Effect)
    requires ProcsOk(s) && a < |s.procs|
    requires e.write.SetRow? && e.write.row < |s.rows| ==> s.rows[e.write.row].actor == a
    ensures forall b :: 0 <= b < |s.procs| && b != a ==> ProcOk(Apply(s, a, e), b, s.procs[b])
  {
    forall b | 0 <= b < |s.procs| && b != a ensures ProcOk(Apply(s, a, e), b, s.procs[b]) {
      assert ProcOk(s, b, s.procs[b]);
    }
  }

  lemma StepKeepsProcsOk(s: Sys, act: Action)
    requires ProcsOk(s) && Enabled(s, act)
    ensures ProcsOk(Step(s, act))
  {
    var t := Step(s, act);
    match act
    case Go(a, c) =>
      var e := EffectOf(s, a, s.procs[a], c);
      assert ProcOk(s, a, s.procs[a]);
      OwnStepOk(s, a, s.procs[a], c);
      OthersStayOk(s, a, e);
    case Crash(a) =>
      OthersStayOk(s, a, CrashEffect(s.procs[a]));
    case _ =>
      forall b | 0 <= b < |t.procs| ensures ProcOk(t, b, t.procs[b]) {
        if b < |s.procs| { assert ProcOk(s, b, s.procs[b]); }
      }
  }

  // ---- what is counted ------------------------------------------------------

  function IsPost(x: Id): Event -> bool { (e: Event) => e.Posted? && e.item == x }
  function IsWarning(x: Id): Event -> bool { (e: Event) => e.Warned? && e.item == x }
  /** A post whose handler never got an answer to its status write. */
  function IsLostMove(x: Id): Event -> bool { (e: Event) => (e.LostPost? || e.LostMove?) && e.item == x }
  /** A post whose row did not stay `published`. */
  function IsLostRow(x: Id): Event -> bool { (e: Event) => (e.LostPost? || e.RowOverwritten?) && e.item == x }
  function IsEntry(x: Id): Event -> bool { (e: Event) => e.Moved? && e.item == x && e.to == Scheduled }
  function IsEnqueue(x: Id): Event -> bool { (e: Event) => e.Enqueued? && e.item == x }
  function IsDrop(x: Id): Event -> bool { (e: Event) => e.ClaimDropped? && e.item == x }

  function InFlight(x: Id): Proc -> bool { (p: Proc) => (p.JobPosted? || p.JobMarked?) && p.data.item == x }
  function Unmarked(x: Id): Proc -> bool { (p: Proc) => p.JobPosted? && p.data.item == x }
  function HasClaim(x: Id): Proc -> bool {
    (p: Proc) => || (p.Claimed? && p.payload.item == x)
                 || (p.TickClaimed? && p.i < |p.due| && p.due[p.i].item == x)
  }
  function MarkedPublished(x: Id): Row -> bool { (r: Row) => r.item == x && r.state == RowPublished }

  function PublishedOnce(items: map<Id, Item>, x: Id): nat {
    if x in items && items[x].status == Published then 1 else 0
  }

  /** posts = warnings + (1 if published) + handlers between post and status write + lost status writes */
  ghost predicate PostsBalance(s: Sys, x: Id) {
    Count(s.trace, IsPost(x)) == Count(s.trace, IsWarning(x)) + PublishedOnce(s.items, x)
                               + Count(s.procs, InFlight(x)) + Count(s.trace, IsLostMove(x))
  }

  /** posts = rows marked published + handlers between post and mark + lost marks */
  ghost predicate RowsBalance(s: Sys, x: Id) {
    Count(s.trace, IsPost(x)) == Count(s.rows, MarkedPublished(x)) + Count(s.procs, Unmarked(x))
                               + Count(s.trace, IsLostRow(x))
  }

  /** entries into `scheduled` = enqueue attempts + claims not yet enqueued + claims lost to a crash */
  ghost predicate ClaimsBalance(s: Sys, x: Id) {
    Count(s.trace, IsEntry(x)) == Count(s.trace, IsEnqueue(x)) + Count(s.procs, HasClaim(x))
                                + Count(s.trace, IsDrop(x))
  }

  ghost predicate Balanced(s: Sys, x: Id) {
    PostsBalance(s, x) && RowsBalance(s, x) && ClaimsBalance(s, x)
  }

  function Bit(b: bool): nat { if b then 1 else 0 }

  /** The counters after one effect, in terms of the counters before it. */
  lemma CountersAfter(s: Sys, a: ProcId, e: Effect, x: Id)
    requires a < |s.procs|
    ensures var t := Apply(s, a, e); var p := s.procs[a];
      && Count(t.trace, IsPost(x)) == Count(s.trace, IsPost(x)) + Bit(IsPost(x)(e.event))
      && Count(t.trace, IsWarning(x)) == Count(s.trace, IsWarning(x)) + Bit(IsWarning(x)(e.event))
      && Count(t.trace, IsLostMove(x)) == Count(s.trace, IsLostMove(x)) + Bit(IsLostMove(x)(e.event))
      && Count(t.trace, IsLostRow(x)) == Count(s.trace, IsLostRow(x)) + Bit(IsLostRow(x)(e.event))
      && Count(t.trace, IsEntry(x)) == Count(s.trace, IsEntry(x)) + Bit(IsEntry(x)(e.event))
      && Count(t.trace, IsEnqueue(x)) == Count(s.trace, IsEnqueue(x)) + Bit(IsEnqueue(x)(e.event))
      && Count(t.trace, IsDrop(x)) == Count(s.trace, IsDrop(x)) + Bit(IsDrop(x)(e.event))
      && Count(t.procs, InFlight(x)) + Bit(InFlight(x)(p)) == Count(s.procs, InFlight(x)) + Bit(InFlight(x)(e.next))
      && Count(t.procs, Unmarked(x)) + Bit(Unmarked(x)(p)) == Count(s.procs, Unmarked(x)) + Bit(Unmarked(x)(e.next))
      && Count(t.procs, HasClaim(x)) + Bit(HasClaim(x)(p)) == Count(s.procs, HasClaim(x)) + Bit(HasClaim(x)(e.next))
  {
    CountAppend(s.trace, e.event, IsPost(x));
    CountAppend(s.trace, e.event, IsWarning(x));
    CountAppend(s.trace, e.event, IsLostMove(x));
    CountAppend(s.trace, e.event, IsLostRow(x));
    CountAppend(s.trace, e.event, IsEntry(x));
    CountAppend(s.trace, e.event, IsEnqueue(x));
    CountAppend(s.trace, e.event, IsDrop(x));
    CountUpdate(s.procs, a, e.next, InFlight(x));
    CountUpdate(s.procs, a, e.next, Unmarked(x));
    CountUpdate(s.procs, a, e.next, HasClaim(x));
  }

  lemma RowsCounterAfter(s: Sys, a: ProcId, e: Effect, x: Id)
    requires a < |s.procs|
    ensures var t := Apply(s, a, e); var w := e.write;
      && (w.OpenRow? ==> Count(t.rows, MarkedPublished(x)) == Count(s.rows, MarkedPublished(x)))
      && (w.SetRow? && w.row < |s.rows| ==>
            Count(t.rows, MarkedPublished(x)) + Bit(MarkedPublished(x)(s.rows[w.row]))
            == Count(s.rows, MarkedPublished(x)) + Bit(s.rows[w.row].item == x && w.state == RowPublished))
      && (!w.OpenRow? && !w.SetRow? ==> t.rows == s.rows)
  {
    match e.write
    case OpenRow(item) => CountAppend(s.rows, Row(item, a, Posting), MarkedPublished(x));
    case SetRow(row, state) =>
      if row < |s.rows| { CountUpdate(s.rows, row, s.rows[row].(state := state), MarkedPublished(x)); }
    case _ =>
  }

  // How one effect of operation `a` shifts each balance; no counting, only the step itself.

  ghost predicate PostsShift(s: Sys, p: Proc, e: Effect, x: Id) {
    Bit(IsPost(x)(e.event)) + Bit(InFlight(x)(p)) + PublishedOnce(s.items, x)
    == Bit(IsWarning(x)(e.event)) + PublishedOnce(ItemsAfter(s.items, e.event), x) + Bit(InFlight(x)(e.next))
       + Bit(IsLostMove(x)(e.event))
  }

  ghost predicate RowsShift(s: Sys, p: Proc, e: Effect, x: Id) {
    Bit(IsPost(x)(e.event)) + Bit(Unmarked(x)(p)) + Bit(OldRowPublished(s, e.write, x))
    == Bit(NewRowPublished(s, e.write, x)) + Bit(Unmarked(x)(e.next)) + Bit(IsLostRow(x)(e.event))
  }

  ghost predicate ClaimsShift(p: Proc, e: Effect, x: Id) {
    Bit(IsEntry(x)(e.event)) + Bit(HasClaim(x)(p))
    == Bit(IsEnqueue(x)(e.event)) + Bit(HasClaim(x)(e.next)) + Bit(IsDrop(x)(e.event))
  }

  predicate OldRowPublished(s: Sys, w: Write, x: Id) {
    w.SetRow? && w.row < |s.rows| && MarkedPublished(x)(s.rows[w.row])
  }

  predicate NewRowPublished(s: Sys, w: Write, x: Id) {
    w.SetRow? && w.row < |s.rows| && s.rows[w.row].item == x && w.state == RowPublished
  }

  lemma GoShiftsPosts(s: Sys, a: ProcId, p: Proc, c: Choice, x: Id)
    requires ProcOk(s, a, p)
    ensures PostsShift(s, p, EffectOf(s, a, p, c), x)
  {
  }

  lemma GoShiftsRows(s: Sys, a: ProcId, p: Proc, c: Choice, x: Id)
    requires ProcOk(s, a, p)
    ensures RowsShift(s, p, EffectOf(s, a, p, c), x)
  {
  }

  lemma GoShiftsClaims(s: Sys, a: ProcId, p: Proc, c: Choice, x: Id)
    requires ProcOk(s, a, p)
    ensures ClaimsShift(p, EffectOf(s, a, p, c), x)
  {
  }

  lemma CrashShiftsPosts(s: Sys, p: Proc, x: Id)
    ensures PostsShift(s, p, CrashEffect(p), x)
  {
  }

  lemma CrashShiftsRows(s: Sys, p: Proc, x: Id)
    ensures RowsShift(s, p, CrashEffect(p), x)
  {
  }

  lemma CrashShiftsClaims(p: Proc, x: Id)
    ensures ClaimsShift(p, CrashEffect(p), x)
  {
  }

  lemma ShiftKeepsBalance(s: Sys, a: ProcId, e: Effect, x: Id)
    requires a < |s.procs| && Balanced(s, x)
    requires var p := s.procs[a]; PostsShift(s, p, e, x) && RowsShift(s, p, e, x) && ClaimsShift(p, e, x)
    ensures Balanced(Apply(s, a, e), x)
  {
    CountersAfter(s, a, e, x);
    RowsCounterAfter(s, a, e, x);
  }

  lemma GoKeepsBalance(s: Sys, a: ProcId, c: Choice, x: Id)
    requires ProcsOk(s) && a < |s.procs| && Balanced(s, x)
    ensures Balanced(Apply(s, a, EffectOf(s, a, s.procs[a], c)), x)
  {
    var p := s.procs[a];
    assert ProcOk(s, a, p);
    GoShiftsPosts(s, a, p, c, x);
    GoShiftsRows(s, a, p, c, x);
    GoShiftsClaims(s, a, p, c, x);
    ShiftKeepsBalance(s, a, EffectOf(s, a, p, c), x);
  }

  lemma CrashKeepsBalance(s: Sys, a: ProcId, x: Id)
    requires a < |s.procs| && Balanced(s, x)
    ensures Balanced(Apply(s, a, CrashEffect(s.procs[a])), x)
  {
    CrashShiftsPosts(s, s.procs[a], x);
    CrashShiftsRows(s, s.procs[a], x);
    CrashShiftsClaims(s.procs[a], x);
    ShiftKeepsBalance(s, a, CrashEffect(s.procs[a]), x);
  }

  /** A newly called operation counts nowhere. */
  lemma CallKeepsBalance(s: Sys, p: Proc, x: Id)
    requires Startable(s, p) && Balanced(s, x)
    ensures Balanced(s.(procs := s.procs + [p]), x)
  {
    CountAppend(s.procs, p, InFlight(x));
    CountAppend(s.procs, p, Unmarked(x));
    CountAppend(s.procs, p, HasClaim(x));
  }

  lemma EnvironmentKeepsBalance(s: Sys, act: Action, x: Id)
    requires Enabled(s, act) && !act.Go? && !act.Crash? && !act.Call? && Balanced(s, x)
    ensures Balanced(Step(s, act), x)
  {
    var t := Step(s, act);
    assert t.trace == s.trace && t.procs == s.procs && t.rows == s.rows;
    assert PublishedOnce(t.items, x) == PublishedOnce(s.items, x);
  }

  lemma StepKeepsBalance(s: Sys, act: Action, x: Id)
    requires ProcsOk(s) && Enabled(s, act) && Balanced(s, x)
    ensures Balanced(Step(s, act), x)
  {
    if act.Go? {
      GoKeepsBalance(s, act.a, act.c, x);
    } else if act.Crash? {
      CrashKeepsBalance(s, act.a, x);
    } else if act.Call? {
      CallKeepsBalance(s, act.p, x);
    } else {
      EnvironmentKeepsBalance(s, act, x);
    }
  }

  /**
   * Over every schedule of every number of approval calls, reviewer decisions, ticks, manual publishes,
   * deliveries, crashes and failing store writes, the three conservation laws hold for every item.
   */
  lemma {:induction false} Conservation(fallback: Config, acts: seq<Action>, x: Id)
    ensures var s := Run(Start(fallback), acts); ProcsOk(s) && PostsBalance(s, x) && RowsBalance(s, x) && ClaimsBalance(s, x)
  {
    if acts != [] {
      var init := acts[..|acts| - 1];
      Conservation(fallback, init, x);
      var t := Run(Start(fallback), init);
      if Enabled(t, Last(acts)) {
        StepKeepsProcsOk(t, Last(acts));
        StepKeepsBalance(t, Last(acts), x);
      }
    }
  }
}
