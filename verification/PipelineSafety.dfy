/** Safety of the pipeline over whole runs: legal histories, and no post without an approval that passed the gate. */
module PipelineSafety {
  import opened Seqs
  import opened StateMachine
  import opened Pipeline
  import opened PipelineInvariants

  // ---- reading the trace ----------------------------------------------------

  /** Every status item `x` has had, starting from `draft`. */
  function StatusLog(t: seq<Event>, x: Id): (log: seq<ItemStatus>)
    ensures log != [] && log[0] == Draft
  {
    if t == [] then [Draft]
    else
      var before := StatusLog(t[..|t| - 1], x);
      if Last(t).Moved? && Last(t).item == x then before + [Last(t).to] else before
  }

  function StatusAt(t: seq<Event>, x: Id): ItemStatus {
    Last(StatusLog(t, x))
  }

  /** Operation `a` has passed the compliance gate for `x`, on a copy and a config that comply. */
  ghost predicate PassedGate(t: seq<Event>, a: ProcId, x: Id) {
    exists j :: 0 <= j < |t| && t[j].GatePassed? && t[j].actor == a && t[j].item == x
             && Complies(t[j].copy, t[j].config)
  }

  /** Since `x` was last sent to draft, it was approved out of review by an operation that had passed the gate. */
  ghost predicate Cleared(t: seq<Event>, x: Id) {
    if t == [] then false
    else
      var e, before := Last(t), t[..|t| - 1];
      if !(e.Moved? && e.item == x) then Cleared(before, x)
      else if e.to == Draft then false
      else if e.from == InReview && e.to == Approved then PassedGate(before, e.actor, x)
      else Cleared(before, x)
  }

  /** What must already be true of the past `t` when `e` happens. */
  ghost predicate EventOk(t: seq<Event>, e: Event) {
    match e
    case Moved(a, x, from, to) =>
      && from == StatusAt(t, x)
      && CanTransition(from, to)
      && (from == InReview && to == Approved ==> PassedGate(t, a, x))
    case ReadStatus(_, x, status) => status == StatusAt(t, x)
    case Posted(a, x) => exists j :: 0 <= j < |t| && t[j] == ReadStatus(a, x, Scheduled)
    case _ => true
  }

  ghost predicate TraceOk(t: seq<Event>) {
    forall k :: 0 <= k < |t| ==> EventOk(t[..k], t[k])
  }

  lemma TraceOkAppend(t: seq<Event>, e: Event)
    requires TraceOk(t) && EventOk(t, e)
    ensures TraceOk(t + [e])
  {
    forall k | 0 <= k < |t + [e]| ensures EventOk((t + [e])[..k], (t + [e])[k]) {
      assert (t + [e])[..k] == t[..k];
      if k == |t| { assert t[..k] == t; }
    }
  }

  lemma TraceOkPrefix(t: seq<Event>, n: nat)
    requires TraceOk(t) && n <= |t|
    ensures TraceOk(t[..n])
  {
    forall k | 0 <= k < n ensures EventOk(t[..n][..k], t[..n][k]) {
      assert t[..n][..k] == t[..k];
    }
  }

  lemma StatusLogAppend(t: seq<Event>, e: Event, x: Id)
    ensures StatusLog(t + [e], x) == if e.Moved? && e.item == x then StatusLog(t, x) + [e.to] else StatusLog(t, x)
  {
    assert (t + [e])[..|t|] == t;
  }

  /** A legal trace gives every item a history that follows the transition table. */
  lemma {:induction false} LogIsPath(t: seq<Event>, x: Id)
    requires TraceOk(t)
    ensures Path(StatusLog(t, x))
  {
    if t != [] {
      TraceOkPrefix(t, |t| - 1);
      LogIsPath(t[..|t| - 1], x);
      assert EventOk(t[..|t| - 1], t[|t| - 1]);
    }
  }

  /** In a legal trace, every status past review was cleared. */
  lemma {:induction false} PastReviewIsCleared(t: seq<Event>, x: Id)
    requires TraceOk(t) && PastReview(StatusAt(t, x))
    ensures Cleared(t, x)
  {
    if t != [] {
      var before, e := t[..|t| - 1], Last(t);
      TraceOkPrefix(t, |t| - 1);
      assert EventOk(before, e) by { assert EventOk(t[..|t| - 1], t[|t| - 1]); }
      if !(e.Moved? && e.item == x) || e.from != InReview {
        PastReviewIsCleared(before, x);
      }
    }
  }

  // ---- the invariant --------------------------------------------------------

  ghost predicate StatusesMatch(s: Sys) {
    forall x :: StatusAt(s.trace, x) == if x in s.items then s.items[x].status else Draft
  }

  /** What a running operation remembers is backed by the trace. */
  ghost predicate Backed(t: seq<Event>, a: ProcId, p: Proc) {
    match p
    case FlipReady(f) => f.to == Approved ==> PassedGate(t, a, f.item)
    case JobItem(data, _, _, seen) => ReadStatus(a, data.item, seen.status) in t
    case JobOpen(data, _, _, seen, _) => ReadStatus(a, data.item, seen.status) in t
    case _ => true
  }

  ghost predicate Safe(s: Sys) {
    && ProcsOk(s) && StatusesMatch(s) && TraceOk(s.trace)
    && forall a :: 0 <= a < |s.procs| ==> Backed(s.trace, a, s.procs[a])
  }

  lemma BackedStays(t: seq<Event>, e: Event, a: ProcId, p: Proc)
    requires Backed(t, a, p)
    ensures Backed(t + [e], a, p)
  {
    if p.FlipReady? && p.flip.to == Approved {
      var j :| 0 <= j < |t| && t[j].GatePassed? && t[j].actor == a && t[j].item == p.flip.item
               && Complies(t[j].copy, t[j].config);
      assert (t + [e])[j] == t[j];
    }
  }

  lemma NextIsBacked(s: Sys, a: ProcId, p: Proc, c: Choice)
    requires ProcOk(s, a, p) && Backed(s.trace, a, p)
    ensures var e := EffectOf(s, a, p, c); Backed(s.trace + [e.event], a, e.next)
  {
    var e := EffectOf(s, a, p, c);
    var t := s.trace + [e.event];
    assert Last(t) == e.event == t[|t| - 1];
  }

  lemma EventIsOk(s: Sys, a: ProcId, p: Proc, c: Choice)
    requires ProcOk(s, a, p) && StatusesMatch(s) && Backed(s.trace, a, p)
    ensures EventOk(s.trace, EffectOf(s, a, p, c).event)
  {
    var e := EffectOf(s, a, p, c).event;
    match e
    case Moved(_, x, _, _) => assert StatusAt(s.trace, x) == s.items[x].status;
    case ReadStatus(_, x, _) => assert StatusAt(s.trace, x) == s.items[x].status;
    case _ =>
  }

  lemma StatusesFollow(s: Sys, a: ProcId, e: Effect)
    requires a < |s.procs| && StatusesMatch(s)
    requires e.event.Moved? ==> e.event.item in s.items
    ensures StatusesMatch(Apply(s, a, e))
  {
    forall x ensures var t := Apply(s, a, e);
                     StatusAt(t.trace, x) == if x in t.items then t.items[x].status else Draft {
      StatusLogAppend(s.trace, e.event, x);
      assert StatusAt(s.trace, x) == if x in s.items then s.items[x].status else Draft;
    }
  }

  lemma MoveIsOfAnItem(s: Sys, a: ProcId, p: Proc, c: Choice)
    ensures var e := EffectOf(s, a, p, c).event; e.Moved? ==> e.item in s.items
  {
  }

  lemma EffectKeepsSafe(s: Sys, a: ProcId, e: Effect)
    requires Safe(s) && a < |s.procs|
    requires ProcsOk(Apply(s, a, e)) && EventOk(s.trace, e.event) && Backed(s.trace + [e.event], a, e.next)
    requires e.event.Moved? ==> e.event.item in s.items
    ensures Safe(Apply(s, a, e))
  {
    StatusesFollow(s, a, e);
    TraceOkAppend(s.trace, e.event);
    var t := Apply(s, a, e);
    forall b | 0 <= b < |t.procs| ensures Backed(t.trace, b, t.procs[b]) {
      if b != a { BackedStays(s.trace, e.event, b, s.procs[b]); }
    }
  }

  lemma StepKeepsSafe(s: Sys, act: Action)
    requires Safe(s) && Enabled(s, act)
    ensures Safe(Step(s, act))
  {
    StepKeepsProcsOk(s, act);
    var t := Step(s, act);
    match act
    case Go(a, c) =>
      var p := s.procs[a];
      assert ProcOk(s, a, p) && Backed(s.trace, a, p);
      EventIsOk(s, a, p, c);
      NextIsBacked(s, a, p, c);
      MoveIsOfAnItem(s, a, p, c);
      EffectKeepsSafe(s, a, EffectOf(s, a, p, c));
    case Crash(a) => EffectKeepsSafe(s, a, CrashEffect(s.procs[a]));
    case Call(p) =>
      forall b | 0 <= b < |t.procs| ensures Backed(t.trace, b, t.procs[b]) {
        if b < |s.procs| { assert Backed(s.trace, b, s.procs[b]); }
      }
    case _ => EnvironmentKeepsStatuses(s, act);
  }

  lemma EnvironmentKeepsStatuses(s: Sys, act: Action)
    requires StatusesMatch(s) && Enabled(s, act) && !act.Go? && !act.Crash?
    ensures StatusesMatch(Step(s, act))
  {
    var t := Step(s, act);
    forall x ensures StatusAt(t.trace, x) == if x in t.items then t.items[x].status else Draft {
      assert StatusAt(s.trace, x) == if x in s.items then s.items[x].status else Draft;
    }
  }

  lemma {:induction false} RunIsSafe(s: Sys, acts: seq<Action>)
    requires Safe(s)
    ensures Safe(Run(s, acts))
  {
    if acts != [] {
      var init := acts[..|acts| - 1];
      RunIsSafe(s, init);
      if Enabled(Run(s, init), Last(acts)) {
        StepKeepsSafe(Run(s, init), Last(acts));
      }
    }
  }

  lemma StartIsSafe(fallback: Config)
    ensures Safe(Start(fallback))
  {
  }

  // ---- theorems -------------------------------------------------------------

  /**
   * In every interleaving an item's status history follows the transition table, and a status past review was
   * reached through an approval out of review by an operation that had itself passed the compliance gate.
   */
  lemma HistoriesAreLegal(fallback: Config, acts: seq<Action>, x: Id)
    ensures var s := Run(Start(fallback), acts);
      && Path(StatusLog(s.trace, x))
      && (x in s.items ==> Last(StatusLog(s.trace, x)) == s.items[x].status)
      && (x in s.items && PastReview(s.items[x].status) ==> Cleared(s.trace, x))
  {
    StartIsSafe(fallback);
    RunIsSafe(Start(fallback), acts);
    var s := Run(Start(fallback), acts);
    LogIsPath(s.trace, x);
    assert x in s.items ==> StatusAt(s.trace, x) == s.items[x].status;
    if x in s.items && PastReview(s.items[x].status) {
      PastReviewIsCleared(s.trace, x);
    }
  }

  /** Every post was preceded by a moment at which its item was scheduled and cleared. */
  lemma EveryPostWasCleared(fallback: Config, acts: seq<Action>, k: nat)
    requires var s := Run(Start(fallback), acts); k < |s.trace| && s.trace[k].Posted?
    ensures var t := Run(Start(fallback), acts).trace;
      exists j :: 0 <= j < k && t[j] == ReadStatus(t[k].actor, t[k].item, Scheduled)
                  && StatusAt(t[..j], t[k].item) == Scheduled && Cleared(t[..j], t[k].item)
  {
    StartIsSafe(fallback);
    RunIsSafe(Start(fallback), acts);
    var t := Run(Start(fallback), acts).trace;
    assert EventOk(t[..k], t[k]);
    var j :| 0 <= j < k && t[..k][j] == ReadStatus(t[k].actor, t[k].item, Scheduled);
    assert EventOk(t[..j], t[j]);
    TraceOkPrefix(t, j);
    PastReviewIsCleared(t[..j], t[k].item);
  }

  /** `published` is absorbing: no schedule takes a published item anywhere else. */
  lemma {:induction false} PublishedIsForever(s: Sys, acts: seq<Action>, x: Id)
    requires ProcsOk(s) && x in s.items && s.items[x].status == Published
    ensures var t := Run(s, acts); ProcsOk(t) && x in t.items && t.items[x].status == Published
  {
    if acts != [] {
      var init, act := acts[..|acts| - 1], Last(acts);
      PublishedIsForever(s, init, x);
      var t := Run(s, init);
      if Enabled(t, act) {
        StepKeepsProcsOk(t, act);
        if act.Go? {
          assert ProcOk(t, act.a, t.procs[act.a]);
          NothingLeavesPublished(t, act.a, t.procs[act.a], act.c, x);
        }
      }
    }
  }

  lemma NothingLeavesPublished(s: Sys, a: ProcId, p: Proc, c: Choice, x: Id)
    requires ProcOk(s, a, p) && x in s.items && s.items[x].status == Published
    ensures var m := ItemsAfter(s.items, EffectOf(s, a, p, c).event); x in m && m[x].status == Published
  {
  }
}
