/**
  The pure rules of a configuration apply: the plan and receipt vocabulary, the
  comparison `reconcileOperation` makes, and the decision `reconcile` takes for one
  receipt from what it observes.
 */
module ConfigPolicy {
  import opened Prelude

  type PlanId = string

  datatype PlanState = PlanPrepared | Approved | Applying | Applied | PlanFailed | Expired | Superseded

  datatype ReceiptState =
    | Prepared | Snapshotted | Writing | FilesCommitted | RedisPending
    | Completed | Failed | ReconciliationRequired | RolledBack

  datatype Failure =
    | NoFailure
    | TransitionUncertain
    | ProjectionFailed
    | ProjectionInconsistent
    | AmbiguousFilesystem
    | ReconciliationCode
    | CommitUncertain
    | ApplyFailed
    | InterruptedBeforeCommit

  /** What a plan asks for. `pre` and `intended` are read with `?? null`. */
  datatype Spec = Spec(targets: seq<Path>, pre: HashMap, intended: HashMap)

  predicate WfSpec(spec: Spec) {
    && |spec.targets| > 0
    && Distinct(spec.targets)
    && spec.intended.Keys == Elements(spec.targets)
  }

  datatype Receipt = Receipt(
    planId: PlanId,
    state: ReceiptState,
    targets: seq<Path>,
    expected: HashMap,
    committed: HashMap,
    failure: Failure)

  /** The states `reconcile` picks up. */
  predicate Pending(s: ReceiptState) {
    s == Prepared || s == Snapshotted || s == ReconciliationRequired || s == RedisPending ||
    s == FilesCommitted || s == Writing
  }

  /** The comparison of `reconcileOperation`, over the union of both key sets. */
  predicate Matches(expected: HashMap, observed: HashMap) {
    forall p :: p in expected.Keys + observed.Keys ==> Look(expected, p) == Look(observed, p)
  }

  function ObserveAll(files: map<string, string>, targets: seq<Path>): HashMap {
    map p | p in targets :: Observed(files, p)
  }

  predicate Unchanged(r: Receipt, observed: HashMap) {
    forall p :: p in r.targets ==> Look(r.expected, p) == Look(observed, p)
  }

  datatype Decision =
    | Ambiguous(code: Failure)
    | MarkFailed(transition: bool)
    | FinishPlan
    | FinishReceipt

  /** `plan` is None when Redis has no plan; `projected` says whether it has the operation. */
  function Decide(r: Receipt, observed: HashMap, plan: Option<PlanState>, projected: bool): Decision {
    if plan == None then
      Ambiguous(ProjectionInconsistent)
    else if
      (r.state == Prepared || r.state == Snapshotted || r.state == Writing || r.failure == TransitionUncertain) &&
      Unchanged(r, observed)
    then
      if projected || (plan.value != Applying && plan.value != Approved) then
        Ambiguous(ProjectionInconsistent)
      else
        MarkFailed(plan.value == Applying)
    else if !Matches(r.committed, observed) then
      Ambiguous(AmbiguousFilesystem)
    else if plan.value == Applying && !projected then
      FinishPlan
    else if plan.value != Applied || !projected then
      Ambiguous(ProjectionInconsistent)
    else
      FinishReceipt
  }

  /**
    What a match really certifies: with recorded hashes it is exactly "every target is at
    its recorded hash"; with none recorded it is exactly "every target is absent".
   */
  lemma MatchMeaning(committed: HashMap, targets: seq<Path>, files: map<string, string>)
    requires committed == map[] || committed.Keys == Elements(targets)
    ensures Matches(committed, ObserveAll(files, targets)) <==>
            forall p :: p in targets ==> Observed(files, p) == Look(committed, p)
    ensures committed == map[] ==>
            (Matches(committed, ObserveAll(files, targets)) <==> forall p :: p in targets ==> p !in files)
  {
    var obs := ObserveAll(files, targets);
    assert forall p :: p in targets ==> p in obs && Look(obs, p) == Observed(files, p);
    assert forall p :: p in committed.Keys + obs.Keys <==> p in targets;
  }

  /**
    The decision, case by case. The receipt is failed when it may predate the commit, nothing was
    touched, and the plan is still open; it is finished when the files are as recorded and the plan and
    the operation record agree on how far Redis got; a person must look in every other case.
   */
  lemma DecideMeans(r: Receipt, observed: HashMap, plan: Option<PlanState>, projected: bool)
    ensures var d := Decide(r, observed, plan, projected);
            var interrupted := (r.state in {Prepared, Snapshotted, Writing} || r.failure == TransitionUncertain)
                          && forall p :: p in r.targets ==> Look(r.expected, p) == Look(observed, p);
            var recorded := forall p :: p in r.committed || p in observed ==> Look(r.committed, p) == Look(observed, p);
            && (d.MarkFailed? <==> interrupted && !projected && plan in {Some(Applying), Some(Approved)})
            && (d == MarkFailed(true) <==> interrupted && !projected && plan == Some(Applying))
            && (d.FinishPlan? <==> !interrupted && recorded && plan == Some(Applying) && !projected)
            && (d.FinishReceipt? <==> !interrupted && recorded && plan == Some(Applied) && projected)
            && (d == Ambiguous(AmbiguousFilesystem) <==> plan.Some? && !interrupted && !recorded)
            && (d.Ambiguous? ==> d.code in {AmbiguousFilesystem, ProjectionInconsistent})
  {
  }
}
