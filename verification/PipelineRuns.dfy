/** Runs in which the worker handlers of an item do not get in each other's way: at-most-once posting. */
module PipelineRuns {
  import opened Seqs
  import opened StateMachine
  import opened Pipeline
  import opened PipelineInvariants
  import opened PipelineClaims

  /** A handler of `x` between its read of the item and its status write. */
  predicate Reading(p: Proc, x: Id) {
    (p.JobItem? || p.JobOpen? || p.JobPosted? || p.JobMarked?) && p.data.item == x
  }

  /** Another operation's step neither reads `x` as a handler nor changes its status. */
  ghost predicate KeepsOff(s: Sys, a: ProcId, c: Choice, x: Id)
    requires a < |s.procs|
  {
    var e := EffectOf(s, a, s.procs[a], c);
    !Reading(e.next, x) && !(e.event.Moved? && e.event.item == x)
  }

  /**
   * While a handler is reading `x`, no other handler reads it and nobody else changes its status; and once that
   * handler has posted, its writes succeed and it does not crash. Everything else may happen in between: edits,
   * other items' handlers, rejected or pending operations on `x`, ticks.
   */
  ghost predicate SerialStep(s: Sys, act: Action, x: Id) {
    forall a :: 0 <= a < |s.procs| && Reading(s.procs[a], x) ==>
      && (InFlight(x)(s.procs[a]) ==> act != Crash(a) && (act.Go? && act.a == a ==> !act.c.throws))
      && (act.Go? && act.a != a && act.a < |s.procs| ==> KeepsOff(s, act.a, act.c, x))
  }

  ghost predicate Serial(start: Sys, acts: seq<Action>, x: Id) {
    acts == [] || (Serial(start, acts[..|acts| - 1], x) && SerialStep(Run(start, acts[..|acts| - 1]), Last(acts), x))
  }

  /** What the handler read as scheduled still is. */
  predicate StillScheduled(s: Sys, p: Proc) {
    match p
    case JobItem(data, _, _, seen) => seen.status == Scheduled ==> Matches(s.items, ByAgency(data.agency), data.item, Scheduled)
    case JobOpen(data, _, _, seen, _) =>
      seen.status == Scheduled ==> Matches(s.items, ByAgency(data.agency), data.item, Scheduled)
    case JobPosted(data, _, _) => Matches(s.items, ByAgency(data.agency), data.item, Scheduled)
    case JobMarked(data, _, _) => Matches(s.items, ByAgency(data.agency), data.item, Scheduled)
    case _ => true
  }

  ghost predicate OneReader(s: Sys, x: Id) {
    && (forall a, b :: 0 <= a < b < |s.procs| ==> !(Reading(s.procs[a], x) && Reading(s.procs[b], x)))
    && (forall a :: 0 <= a < |s.procs| && Reading(s.procs[a], x) ==> StillScheduled(s, s.procs[a]))
  }

  /** The handler's own step. */
  lemma OwnReadStays(s: Sys, a: ProcId, p: Proc, c: Choice, x: Id)
    requires a < |s.procs| && p == s.procs[a] && (Reading(p, x) ==> StillScheduled(s, p)) && (InFlight(x)(p) ==> !c.throws)
    ensures var e := EffectOf(s, a, p, c); Reading(e.next, x) ==> StillScheduled(Apply(s, a, e), e.next)
    ensures WriteLands(s, Go(a, c), x)
  {
  }

  /** Nobody else's step changes what it read. */
  lemma OthersReadStays(s: Sys, a: ProcId, e: Effect, p: Proc, x: Id)
    requires a < |s.procs| && Reading(p, x) && StillScheduled(s, p) && !(e.event.Moved? && e.event.item == x)
    ensures StillScheduled(Apply(s, a, e), p)
  {
  }

  lemma GoIsSerial(s: Sys, a: ProcId, c: Choice, x: Id)
    requires OneReader(s, x) && Enabled(s, Go(a, c)) && SerialStep(s, Go(a, c), x)
    ensures OneReader(Step(s, Go(a, c)), x) && WriteLands(s, Go(a, c), x)
  {
    var e, t := EffectOf(s, a, s.procs[a], c), Step(s, Go(a, c));
    assert InFlight(x)(s.procs[a]) ==> Reading(s.procs[a], x);
    OwnReadStays(s, a, s.procs[a], c, x);
    forall b | 0 <= b < |t.procs| && b != a && Reading(t.procs[b], x)
      ensures StillScheduled(t, t.procs[b]) && !Reading(t.procs[a], x)
    {
      assert s.procs[b] == t.procs[b] && KeepsOff(s, a, c, x);
      OthersReadStays(s, a, e, s.procs[b], x);
    }
  }

  lemma CrashIsSerial(s: Sys, a: ProcId, x: Id)
    requires OneReader(s, x) && Enabled(s, Crash(a)) && SerialStep(s, Crash(a), x)
    ensures OneReader(Step(s, Crash(a)), x) && WriteLands(s, Crash(a), x)
  {
    var t, p := Step(s, Crash(a)), s.procs[a];
    assert InFlight(x)(p) ==> Reading(p, x);
    forall b | 0 <= b < |t.procs| && Reading(t.procs[b], x) ensures t.procs[b] == s.procs[b] {
    }
  }

  lemma OtherStepIsSerial(s: Sys, act: Action, x: Id)
    requires OneReader(s, x) && Enabled(s, act) && !act.Go? && !act.Crash?
    ensures OneReader(Step(s, act), x) && WriteLands(s, act, x)
  {
    var t := Step(s, act);
    forall b | 0 <= b < |t.procs| && Reading(t.procs[b], x)
      ensures b < |s.procs| && t.procs[b] == s.procs[b] && StillScheduled(t, t.procs[b])
    {
      assert b < |s.procs| ==> StillScheduled(s, s.procs[b]);
    }
  }

  lemma {:induction false} SerialRunKeeps(fallback: Config, acts: seq<Action>, x: Id)
    requires Serial(Start(fallback), acts, x)
    ensures OneReader(Run(Start(fallback), acts), x) && WritesLand(Start(fallback), acts, x)
  {
    if acts != [] {
      var init, act := acts[..|acts| - 1], Last(acts);
      var s := Run(Start(fallback), init);
      SerialRunKeeps(fallback, init, x);
      if !Enabled(s, act) {
        DisabledLosesNothing(s, act, x);
      } else if act.Go? {
        GoIsSerial(s, act.a, act.c, x);
      } else if act.Crash? {
        CrashIsSerial(s, act.a, x);
      } else {
        OtherStepIsSerial(s, act, x);
      }
    }
  }

  lemma {:induction false} CountAtMostOne<T>(s: seq<T>, p: T -> bool)
    requires forall i, j :: 0 <= i < j < |s| ==> !(p(s[i]) && p(s[j]))
    ensures Count(s, p) <= 1
  {
    if s != [] {
      var init := s[..|s| - 1];
      if p(Last(s)) {
        CountZero(init, p);
      } else {
        CountAtMostOne(init, p);
      }
    }
  }

  /** At most one handler is between its post and its status write, and then its item is scheduled. */
  lemma InFlightMeansScheduled(s: Sys, x: Id)
    requires OneReader(s, x)
    ensures Count(s.procs, InFlight(x)) + PublishedOnce(s.items, x) <= 1
  {
    forall i, j | 0 <= i < j < |s.procs| ensures !(InFlight(x)(s.procs[i]) && InFlight(x)(s.procs[j])) {
      assert InFlight(x)(s.procs[i]) ==> Reading(s.procs[i], x);
      assert InFlight(x)(s.procs[j]) ==> Reading(s.procs[j], x);
    }
    CountAtMostOne(s.procs, InFlight(x));
    CountZero(s.procs, InFlight(x));
    if Count(s.procs, InFlight(x)) == 1 {
      var a :| 0 <= a < |s.procs| && InFlight(x)(s.procs[a]);
      assert Reading(s.procs[a], x) && StillScheduled(s, s.procs[a]);
    }
  }

  /**
   * Handlers of `x` that do not overlap between their read of the item and their status write, with nobody else
   * changing the item's status meanwhile and the writes after a post succeeding: `x` is posted at most once, and,
   * whenever no handler is between its post and its status write, it was posted exactly if it is published. In
   * particular whole handlers run as one step post at most once.
   */
  lemma SerialHandlersPostAtMostOnce(fallback: Config, acts: seq<Action>, x: Id)
    requires Serial(Start(fallback), acts, x)
    ensures var s := Run(Start(fallback), acts);
      && Posts(s, x) <= 1
      && (Count(s.procs, InFlight(x)) == 0 ==> Posts(s, x) == PublishedOnce(s.items, x))
  {
    SerialRunKeeps(fallback, acts, x);
    NothingLostIff(fallback, acts, x);
    Conservation(fallback, acts, x);
    InFlightMeansScheduled(Run(Start(fallback), acts), x);
  }
}
