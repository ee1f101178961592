/** Consequences of the conservation laws, and what a scheduler tick returns under interference. */
module PipelineClaims {
  import opened Seqs
  import opened StateMachine
  import opened Pipeline
  import opened PipelineInvariants

  // ---- posts ----------------------------------------------------------------

  function Posts(s: Sys, x: Id): nat { Count(s.trace, IsPost(x)) }

  /** This step posts `x`. */
  ghost predicate StepPosts(s: Sys, act: Action, x: Id) {
    Enabled(s, act) && act.Go? && IsPost(x)(EffectOf(s, act.a, s.procs[act.a], act.c).event)
  }

  /** `x` is not live: not published, no handler between its post and its status write, no post whose write was lost. */
  ghost predicate ClearToPost(s: Sys, x: Id) {
    && PublishedOnce(s.items, x) == 0 && Count(s.procs, InFlight(x)) == 0
    && Count(s.trace, IsWarning(x)) == 0 && Count(s.trace, IsLostMove(x)) == 0
  }

  /** Every post of `x` in the run is made in such a state. */
  ghost predicate PostsAreClear(start: Sys, acts: seq<Action>, x: Id) {
    acts == []
    || (var init := acts[..|acts| - 1];
        PostsAreClear(start, init, x) && (StepPosts(Run(start, init), Last(acts), x) ==> ClearToPost(Run(start, init), x)))
  }

  lemma StepCountsPost(s: Sys, act: Action, x: Id)
    requires Enabled(s, act)
    ensures Posts(Step(s, act), x) == Posts(s, x) + Bit(StepPosts(s, act, x))
  {
    if act.Go? {
      CountAppend(s.trace, EffectOf(s, act.a, s.procs[act.a], act.c).event, IsPost(x));
    } else if act.Crash? {
      CountAppend(s.trace, CrashEffect(s.procs[act.a]).event, IsPost(x));
    }
  }

  /** `x` was never posted exactly if the state says so. */
  lemma NeverPostedIff(fallback: Config, acts: seq<Action>, x: Id)
    ensures var s := Run(Start(fallback), acts); Posts(s, x) == 0 <==> ClearToPost(s, x)
  {
    Conservation(fallback, acts, x);
  }

  /** In every run: `x` is posted at most once if and only if every post of it finds it not live. */
  lemma {:induction false} AtMostOnceIff(fallback: Config, acts: seq<Action>, x: Id)
    ensures Posts(Run(Start(fallback), acts), x) <= 1 <==> PostsAreClear(Start(fallback), acts, x)
  {
    if acts != [] {
      var init, act := acts[..|acts| - 1], Last(acts);
      var s := Run(Start(fallback), init);
      AtMostOnceIff(fallback, init, x);
      NeverPostedIff(fallback, init, x);
      if Enabled(s, act) {
        StepCountsPost(s, act, x);
      }
    }
  }

  /** If the step is of a handler of `x` after its post: its write succeeds and finds the item still scheduled. */
  ghost predicate WriteLands(s: Sys, act: Action, x: Id) {
    && (act.Crash? && act.a < |s.procs| ==> !InFlight(x)(s.procs[act.a]))
    && (act.Go? && act.a < |s.procs| && InFlight(x)(s.procs[act.a]) ==>
          var p := s.procs[act.a];
          !act.c.throws && (p.JobMarked? ==> Matches(s.items, ByAgency(p.data.agency), x, Scheduled)))
  }

  ghost predicate WritesLand(start: Sys, acts: seq<Action>, x: Id) {
    acts == [] || (WritesLand(start, acts[..|acts| - 1], x) && WriteLands(Run(start, acts[..|acts| - 1]), Last(acts), x))
  }

  function Losses(s: Sys, x: Id): nat { Count(s.trace, IsWarning(x)) + Count(s.trace, IsLostMove(x)) }

  lemma StepCountsLoss(s: Sys, act: Action, x: Id)
    requires Enabled(s, act)
    ensures Losses(Step(s, act), x) == Losses(s, x) + Bit(!WriteLands(s, act, x))
  {
    if act.Go? {
      var e := EffectOf(s, act.a, s.procs[act.a], act.c).event;
      GoLosesUnless(s, act.a, s.procs[act.a], act.c, x);
      CountAppend(s.trace, e, IsWarning(x));
      CountAppend(s.trace, e, IsLostMove(x));
    } else if act.Crash? {
      var e := CrashEffect(s.procs[act.a]).event;
      CountAppend(s.trace, e, IsWarning(x));
      CountAppend(s.trace, e, IsLostMove(x));
    }
  }

  lemma GoLosesUnless(s: Sys, a: ProcId, p: Proc, c: Choice, x: Id)
    requires a < |s.procs| && p == s.procs[a]
    ensures var e := EffectOf(s, a, p, c).event;
      Bit(IsWarning(x)(e)) + Bit(IsLostMove(x)(e)) == Bit(!WriteLands(s, Go(a, c), x))
  {
  }

  lemma DisabledLosesNothing(s: Sys, act: Action, x: Id)
    requires !Enabled(s, act)
    ensures WriteLands(s, act, x)
  {
  }

  lemma {:induction false} NothingLostIff(fallback: Config, acts: seq<Action>, x: Id)
    ensures Losses(Run(Start(fallback), acts), x) == 0 <==> WritesLand(Start(fallback), acts, x)
  {
    if acts != [] {
      var init, act := acts[..|acts| - 1], Last(acts);
      var s := Run(Start(fallback), init);
      NothingLostIff(fallback, init, x);
      if Enabled(s, act) {
        StepCountsLoss(s, act, x);
      } else {
        DisabledLosesNothing(s, act, x);
      }
    }
  }

  /**
   * Once no handler of `x` sits between its post and its status write, `x` was posted exactly if it is published
   * (once if so, never if not) if and only if every write that followed a post succeeded and found the item
   * still scheduled. A published item was posted in any case.
   */
  lemma PostedIffPublished(fallback: Config, acts: seq<Action>, x: Id)
    requires Count(Run(Start(fallback), acts).procs, InFlight(x)) == 0
    ensures var s := Run(Start(fallback), acts);
      && (Posts(s, x) == PublishedOnce(s.items, x) <==> WritesLand(Start(fallback), acts, x))
      && Posts(s, x) >= PublishedOnce(s.items, x)
  {
    Conservation(fallback, acts, x);
    NothingLostIff(fallback, acts, x);
  }

  // ---- claims ---------------------------------------------------------------

  lemma {:induction false} CountPrefix<T>(s: seq<T>, t: seq<T>, p: T -> bool)
    requires s <= t
    ensures Count(s, p) <= Count(t, p)
  {
    if s == t {
    } else {
      assert s <= t[..|t| - 1];
      CountPrefix(s, t[..|t| - 1], p);
    }
  }

  lemma {:induction false} TraceGrows(s: Sys, acts: seq<Action>)
    ensures s.trace <= Run(s, acts).trace
  {
    if acts != [] {
      TraceGrows(s, acts[..|acts| - 1]);
    }
  }

  function Enqueues(s: Sys, x: Id): nat { Count(s.trace, IsEnqueue(x)) }
  function Entries(s: Sys, x: Id): nat { Count(s.trace, IsEntry(x)) }
  function Pending(s: Sys, x: Id): nat { Count(s.procs, HasClaim(x)) }

  /**
   * Between any two moments of a run, the enqueues of an item never exceed its entries into `scheduled` in
   * that window plus the claims that were already waiting; equality holds unless a claim is still waiting or
   * was lost to a crash, however many ticks and manual publishes listed the item.
   */
  lemma EnqueuesInAWindow(fallback: Config, first: seq<Action>, later: seq<Action>, x: Id)
    ensures
      var s := Run(Start(fallback), first); var t := Run(s, later);
      var dropped := Count(t.trace, IsDrop(x)) - Count(s.trace, IsDrop(x));
      && dropped >= 0
      && (Enqueues(t, x) - Enqueues(s, x)) + Pending(t, x) + dropped == (Entries(t, x) - Entries(s, x)) + Pending(s, x)
      && Enqueues(t, x) <= Entries(t, x)
  {
    Conservation(fallback, first, x);
    RunConcat(Start(fallback), first, later);
    Conservation(fallback, first + later, x);
    var s := Run(Start(fallback), first);
    TraceGrows(s, later);
    CountPrefix(s.trace, Run(s, later).trace, IsDrop(x));
  }

  /** A window that starts with no waiting claim and sees one entry sees at most one enqueue. */
  lemma OneEntryOneEnqueue(fallback: Config, first: seq<Action>, later: seq<Action>, x: Id)
    requires var s := Run(Start(fallback), first);
      Pending(s, x) == 0 && Entries(Run(s, later), x) - Entries(s, x) <= 1
    ensures var s := Run(Start(fallback), first); Enqueues(Run(s, later), x) - Enqueues(s, x) <= 1
  {
    EnqueuesInAWindow(fallback, first, later, x);
  }

  // ---- ticks ----------------------------------------------------------------

  /** `ids` picks items of `due`, in order and each position at most once. */
  ghost predicate Picks(ids: seq<Id>, due: seq<Payload>) {
    if ids == [] then true
    else
      && due != []
      && (|| (Last(ids) == Last(due).item && Picks(ids[..|ids| - 1], due[..|due| - 1]))
          || Picks(ids, due[..|due| - 1]))
  }

  ghost predicate TickOk(limit: nat, due: seq<Payload>, i: nat, ids: seq<Id>) {
    && i <= |due| <= limit
    && (forall j, k :: 0 <= j < k < |due| ==> due[j].item != due[k].item)
    && Picks(ids, due[..i])
  }

  ghost predicate TickProcOk(p: Proc) {
    match p
    case TickAt(limit, due, i, ids) => TickOk(limit, due, i, ids)
    case TickClaimed(limit, due, i, ids) => TickOk(limit, due, i, ids)
    case TickReturned(limit, due, ids) => TickOk(limit, due, |due|, ids)
    case _ => true
  }

  lemma PicksMore(ids: seq<Id>, due: seq<Payload>, i: nat)
    requires i < |due| && Picks(ids, due[..i])
    ensures Picks(ids, due[..i + 1]) && Picks(ids + [due[i].item], due[..i + 1])
  {
    assert due[..i + 1][..i] == due[..i];
    var more := ids + [due[i].item];
    assert more[..|ids|] == ids;
  }

  lemma TickAdvances(limit: nat, due: seq<Payload>, i: nat, ids: seq<Id>)
    requires TickOk(limit, due, i, ids) && i < |due|
    ensures TickProcOk(NextInTick(limit, due, i + 1, ids))
    ensures TickProcOk(NextInTick(limit, due, i + 1, ids + [due[i].item]))
  {
    PicksMore(ids, due, i);
  }

  lemma TickStarts(s: Sys, p: Proc, c: Choice)
    requires p.TickCalled? && IsDueList(s.items, p.now, p.limit, p.only, c.due)
    ensures TickProcOk(NextInTick(p.limit, c.due, 0, []))
  {
  }

  ghost predicate TicksOk(s: Sys) {
    forall a :: 0 <= a < |s.procs| ==> TickProcOk(s.procs[a])
  }

  lemma LoopTickOk(s: Sys, a: ProcId, p: Proc, c: Choice)
    requires TickProcOk(p) && (p.TickAt? || p.TickClaimed?)
    ensures TickProcOk(EffectOf(s, a, p, c).next)
  {
    if p.i < |p.due| {
      TickAdvances(p.limit, p.due, p.i, p.ids);
    }
  }

  lemma NextTickOk(s: Sys, a: ProcId, p: Proc, c: Choice)
    requires TickProcOk(p) && AnswersDueQuery(s, p, c)
    ensures TickProcOk(EffectOf(s, a, p, c).next)
  {
    if p.TickCalled? {
      TickStarts(s, p, c);
    } else if p.TickAt? || p.TickClaimed? {
      LoopTickOk(s, a, p, c);
    }
  }

  lemma EffectKeepsTicksOk(s: Sys, a: ProcId, e: Effect)
    requires TicksOk(s) && a < |s.procs| && TickProcOk(e.next)
    ensures TicksOk(Apply(s, a, e))
  {
  }

  lemma StepKeepsTicksOk(s: Sys, act: Action)
    requires TicksOk(s) && Enabled(s, act)
    ensures TicksOk(Step(s, act))
  {
    match act
    case Go(a, c) =>
      NextTickOk(s, a, s.procs[a], c);
      EffectKeepsTicksOk(s, a, EffectOf(s, a, s.procs[a], c));
    case Crash(a) => EffectKeepsTicksOk(s, a, CrashEffect(s.procs[a]));
    case _ =>
  }

  lemma {:induction false} RunKeepsTicksOk(s: Sys, acts: seq<Action>)
    requires TicksOk(s)
    ensures TicksOk(Run(s, acts))
  {
    if acts != [] {
      var init := acts[..|acts| - 1];
      RunKeepsTicksOk(s, init);
      if Enabled(Run(s, init), Last(acts)) {
        StepKeepsTicksOk(Run(s, init), Last(acts));
      }
    }
  }

  /** Duplicate-free, no longer than the due list, and every id is the item of a listed payload. */
  lemma {:induction false} PicksAreDistinct(ids: seq<Id>, due: seq<Payload>)
    requires Picks(ids, due)
    requires forall j, k :: 0 <= j < k < |due| ==> due[j].item != due[k].item
    ensures NoDup(ids) && |ids| <= |due|
    ensures forall i :: 0 <= i < |ids| ==> exists k :: 0 <= k < |due| && due[k].item == ids[i]
  {
    if ids != [] {
      var last, rest := |ids| - 1, due[..|due| - 1];
      if Last(ids) == Last(due).item && Picks(ids[..last], rest) {
        PicksAreDistinct(ids[..last], rest);
        forall i | 0 <= i < last ensures (exists k :: 0 <= k < |due| && due[k].item == ids[i]) && ids[i] != ids[last] {
          assert ids[i] == ids[..last][i];
          var k :| 0 <= k < |rest| && rest[k].item == ids[..last][i];
          assert due[k].item != due[|due| - 1].item;
        }
        assert due[|due| - 1].item == ids[last];
        forall i, j | 0 <= i < j < |ids| ensures ids[i] != ids[j] {
          if j < last { assert ids[..last][i] != ids[..last][j]; }
        }
      } else {
        PicksAreDistinct(ids, rest);
        forall i | 0 <= i < |ids| ensures exists k :: 0 <= k < |due| && due[k].item == ids[i] {
          var k :| 0 <= k < |rest| && rest[k].item == ids[i];
          assert due[k].item == ids[i];
        }
      }
    }
  }

  /**
   * Whatever runs beside it, a tick returns ids that are a duplicate-free subsequence of its due list, so
   * `scheduled` = |ids| <= `due` <= limit.
   */
  lemma TickResult(fallback: Config, acts: seq<Action>, a: ProcId)
    requires var s := Run(Start(fallback), acts); a < |s.procs| && s.procs[a].TickReturned?
    ensures var p := Run(Start(fallback), acts).procs[a];
      Picks(p.ids, p.due) && NoDup(p.ids) && |p.ids| <= |p.due| <= p.limit
  {
    RunKeepsTicksOk(Start(fallback), acts);
    var p := Run(Start(fallback), acts).procs[a];
    assert TickProcOk(p);
    assert p.due[..|p.due|] == p.due;
    PicksAreDistinct(p.ids, p.due);
  }
}
