/** The request lifecycle: the transition table, its failure closure, and the owner's triggers. */
module StateMachine {
  import opened Wrappers
  import opened Domain

  predicate IsTerminal(s: RequestState) {
    s in {Completed, Discarded, Failed}
  }

  /** The state reached by `t` in `s`, if that edge exists. */
  function NextState(s: RequestState, t: Trigger): Option<RequestState> {
    match (s, t)
    case (Received, StartAggregation) => Some(Aggregating)
    case (Aggregating, WindowClosed) => Some(ProcessingMedia)
    case (ProcessingMedia, MediaProcessed) => Some(Classifying)
    case (Classifying, ClassifiedActionable) => Some(AwaitingClassification)
    case (Classifying, ClassifiedNone) => Some(Discarded)
    case (AwaitingClassification, OwnerConfirmed) => Some(Generating)
    case (AwaitingClassification, OwnerCorrected) => Some(AwaitingClassification)
    case (AwaitingClassification, OwnerRejected) => Some(Discarded)
    case (Generating, Generated) => Some(Rendering)
    case (Rendering, Rendered) => Some(AwaitingApproval)
    case (AwaitingApproval, OwnerApproved) => Some(Completed)
    case (AwaitingApproval, OwnerRequestedRevision) => Some(Generating)
    case (_, Fail) => if IsTerminal(s) then None else Some(Failed)
    case _ => None
  }

  function TriggerFor(d: OwnerDecision): Trigger {
    match d
    case Confirm => OwnerConfirmed
    case Correct => OwnerCorrected
    case Reject => OwnerRejected
    case Approve => OwnerApproved
    case Revise => OwnerRequestedRevision
  }

  /** Terminal states are exactly those nothing leaves. */
  lemma TerminalIffNoExit(s: RequestState)
    ensures IsTerminal(s) <==> forall t :: NextState(s, t).None?
  {
    if !IsTerminal(s) {
      assert NextState(s, Fail).Some?;
    }
  }

  /** The owner can act in exactly two states. */
  lemma OwnerActsWhenAwaiting(s: RequestState)
    ensures s in {AwaitingClassification, AwaitingApproval} <==> exists d :: NextState(s, TriggerFor(d)).Some?
  {
    if s == AwaitingClassification {
      assert NextState(s, TriggerFor(Confirm)).Some?;
    } else if s == AwaitingApproval {
      assert NextState(s, TriggerFor(Approve)).Some?;
    }
  }

  /** Every trigger but failure is for one state only. */
  lemma TriggerHasOneSource(t: Trigger, a: RequestState, b: RequestState)
    requires t != Fail && NextState(a, t).Some? && NextState(b, t).Some?
    ensures a == b
  {
  }

  /** Failure is possible until the end, and leads to FAILED. */
  lemma FailureFromAnywhere(s: RequestState)
    ensures NextState(s, Fail) == if s in {Completed, Discarded, Failed} then None else Some(Failed)
  {
  }
}
