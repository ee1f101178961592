/** The approval state machine of a content item (src/lib/approval/state-machine.ts). */
module StateMachine {

  datatype ItemStatus = Draft | InReview | Approved | Scheduled | Published | Failed

  /** The table of allowed transitions; anything not listed is rejected. */
  function Transitions(from: ItemStatus): seq<ItemStatus> {
    match from
    case Draft => [InReview]
    case InReview => [Approved, Draft]
    case Approved => [Scheduled, Draft]
    case Scheduled => [Published, Failed, Approved]
    case Published => []
    case Failed => [Scheduled, Draft]
  }

  predicate CanTransition(from: ItemStatus, to: ItemStatus) {
    to in Transitions(from)
  }

  predicate IsTerminal(s: ItemStatus) {
    |Transitions(s)| == 0
  }

  /** Statuses an item can only have after somebody approved it. */
  predicate PastReview(s: ItemStatus) {
    s.Approved? || s.Scheduled? || s.Published? || s.Failed?
  }

  /** A legal path through the table, both ends included. */
  ghost predicate Path(p: seq<ItemStatus>) {
    p != [] && forall i :: 0 <= i < |p| - 1 ==> CanTransition(p[i], p[i + 1])
  }

  /**
   * The only way from before review to a status past review is the
   * in_review -> approved edge, and nothing leaves `published`.
   */
  lemma {:induction false} ApprovalCutsEveryPath(p: seq<ItemStatus>)
    requires Path(p) && !PastReview(p[0]) && PastReview(p[|p| - 1])
    ensures exists i :: 0 <= i < |p| - 1 && p[i] == InReview && p[i + 1] == Approved
  {
    if PastReview(p[1]) {
      assert p[0] == InReview && p[1] == Approved;
    } else {
      ApprovalCutsEveryPath(p[1..]);
      var i :| 0 <= i < |p[1..]| - 1 && p[1..][i] == InReview && p[1..][i + 1] == Approved;
      assert p[i + 1] == InReview && p[i + 2] == Approved;
    }
  }

  /** `published` is the one terminal status. */
  lemma OnlyPublishedIsTerminal(s: ItemStatus)
    ensures IsTerminal(s) <==> s == Published
    ensures IsTerminal(s) <==> forall t :: !CanTransition(s, t)
  {
    match s
    case Draft => assert CanTransition(s, InReview);
    case InReview => assert CanTransition(s, Draft);
    case Approved => assert CanTransition(s, Draft);
    case Scheduled => assert CanTransition(s, Failed);
    case Published =>
    case Failed => assert CanTransition(s, Draft);
  }
}
