/**
  When an operation returns normally: exactly when none of its own steps threw, and none of its
  three questions was answered against it, whatever everybody else did meanwhile.
 */
module ConfigReturn {
  import opened Prelude
  import opened ConfigPolicy
  import opened ConfigProtocol
  import opened ConfigSafety
  import opened ConfigRecovery

  /** After a failure: the awaits of the catch clauses. */
  predicate Failing(pc: Pc) {
    pc.WriteUncertain? || pc.WriteProjectionFailed? || pc.WriteReconcile? || pc.FailPlan? || pc.WriteFailed?
  }

  /**
    This step of the operation threw, or found the approval used, a target not at its recorded
    hash, or the plan no longer open to completion.
   */
  ghost predicate Hindered(s: State, a: Action, op: OpId) {
    && op in s.apply && s.apply[op].planId in s.specs
    && var t, planId := s.apply[op], s.apply[op].planId;
       || (a.Throw? && a.op == op)
       || (a.Advance? && a.op == op && t.pc == Cas && (planId !in s.w.plans || s.w.plans[planId].state != Approved))
       || (a.Advance? && a.op == op && t.pc == Check
           && exists p :: p in s.specs[planId].targets && Observed(s.w.files, p) != Look(s.specs[planId].pre, p))
       || (a.Advance? && a.op == op && t.pc == Complete
           && (planId !in s.w.plans || s.w.plans[planId].state != Applying || op in s.w.ops))
  }

  lemma StepGoes(s: State, a: Action, op: OpId)
    requires Next(s, a).Some? && (a.Advance? || a.Throw?) && a.op == op && op in s.apply && s.apply[op].planId in s.specs
    ensures var t, r := s.apply[op], ThreadStep(s, a);
            && (r.1.Some? ==> (Failing(r.1.value.pc) <==> Failing(t.pc) || Hindered(s, a, op)))
            && (r.1.None? ==> ((a.Advance? && t.pc == OnApplied) <==> !(Failing(t.pc) || Hindered(s, a, op))))
  {
    hide Next, Perform;
    if a.Advance? {
      AdvanceGoes(s, a, op);
    } else {
      hide AdvanceThread, PreconditionsHold, Assigned;
    }
  }

  lemma RaiseFails(t: Thread)
    ensures Failing(Raise(t, false).pc)
  {
  }

  lemma AdvanceGoes(s: State, a: Action, op: OpId)
    requires a.Advance? && a.op == op && op in s.apply && s.apply[op].planId in s.specs
    ensures var t, r := s.apply[op], ThreadStep(s, a);
            && (r.1.Some? ==> (Failing(r.1.value.pc) <==> Failing(t.pc) || Hindered(s, a, op)))
            && (r.1.None? ==> (t.pc == OnApplied <==> !(Failing(t.pc) || Hindered(s, a, op))))
  {
    hide ThrowThread, Raise;
    RaiseFails(s.apply[op]);
    var t, spec := s.apply[op], s.specs[s.apply[op].planId];
    assert PreconditionsHold(s.w.files, spec) <==>
             !exists p :: p in spec.targets && Observed(s.w.files, p) != Look(spec.pre, p);
    hide PreconditionsHold, Observed, Look, Assigned, Elements;
  }

  /** One step, seen from an operation that is running. */
  lemma StepReturns(s: State, a: Action, op: OpId)
    requires Inv(s) && Next(s, a).Some? && !a.Crash? && op in s.apply
    ensures var s' := Next(s, a).value;
            && (op in s'.apply ==> (Failing(s'.apply[op].pc) <==> Failing(s.apply[op].pc) || Hindered(s, a, op)))
            && (op !in s'.apply ==>
                  && (a.Advance? || a.Throw?) && a.op == op
                  && ((a.Advance? && s.apply[op].pc == OnApplied) <==> !(Failing(s.apply[op].pc) || Hindered(s, a, op))))
  {
    hide Inv, Next, ThreadStep, Failing;
    if a.Advance? || a.Throw? {
      ThreadMaps(s, a);
      if a.op == op {
        StepGoes(s, a, op);
      }
    } else if ByReconcile(a) {
      RecMaps(s, a);
    } else {
      QuietMaps(s, a);
      Beginnings(s, a);
      NobodyEnds(s, a);
    }
  }

  lemma NobodyEnds(s: State, a: Action)
    requires Next(s, a).Some? && !a.Advance? && !a.Throw? && !ByReconcile(a) && !a.Crash?
    ensures s.apply.Keys <= Next(s, a).value.apply.Keys
  {
    hide WfSpec, ListsPending, FirstPass, FirstThread, TargetsFree, SetFile;
  }

  /** An operation that is running now and has not begun meanwhile was running before. */
  lemma WasRunning(s: State, a: Action, op: OpId)
    requires Inv(s) && Next(s, a).Some? && !(a.Begin? && a.op == op) && op in Next(s, a).value.apply
    ensures op in s.apply
  {
    hide Inv, Next, ThreadStep;
    if a.Advance? || a.Throw? {
      ThreadMaps(s, a);
    } else if ByReconcile(a) {
      RecMaps(s, a);
    } else {
      QuietMaps(s, a);
    }
  }

  /** A stretch of a run in which the operation begins once and the daemon stays up. */
  ghost predicate Once(run: seq<State>, acts: seq<Action>, b: nat, e: nat, op: OpId) {
    && IsRun(run, acts) && b < e < |acts| && acts[b].Begin? && acts[b].op == op
    && forall k :: b < k <= e ==> !acts[k].Crash? && !(acts[k].Begin? && acts[k].op == op)
  }

  lemma {:induction false} RunningSince(run: seq<State>, acts: seq<Action>, b: nat, e: nat, op: OpId, k: nat)
    requires Once(run, acts, b, e, op) && op in run[e].apply && b < k <= e
    ensures op in run[k].apply
    decreases e - k
  {
    if k < e {
      RunningSince(run, acts, b, e, op, k + 1);
      RunInv(run, acts, k);
      StepOf(run, acts, k);
      hide IsRun, Inv, Next;
      WasRunning(run[k], acts[k], op);
    }
  }

  lemma {:induction false} FailingSince(run: seq<State>, acts: seq<Action>, b: nat, e: nat, op: OpId, k: nat)
    requires Once(run, acts, b, e, op) && op in run[e].apply && b < k <= e
    ensures op in run[k].apply
    ensures Failing(run[k].apply[op].pc) <==> exists j :: b < j < k && Hindered(run[j], acts[j], op)
  {
    hide Inv, Next, Init, Hindered;
    RunningSince(run, acts, b, e, op, k);
    StepOf(run, acts, k - 1);
    if k == b + 1 {
      Beginnings(run[b], acts[b]);
    } else {
      hide IsRun, Failing;
      FailingSince(run, acts, b, e, op, k - 1);
      StepReturns(run[k - 1], acts[k - 1], op);
    }
  }

  /**
    Between its beginning and its own last step, an operation returns normally exactly when no step
    of its own threw and no answer was against it.
   */
  lemma ReturnsExactlyWhen(run: seq<State>, acts: seq<Action>, b: nat, e: nat, op: OpId)
    requires IsRun(run, acts) && b < e < |acts| && acts[b].Begin? && acts[b].op == op
    requires forall k :: b < k <= e ==> !acts[k].Crash? && !(acts[k].Begin? && acts[k].op == op)
    requires op in run[e].apply && op !in run[e + 1].apply
    ensures (acts[e].Advance? && acts[e].op == op && run[e].apply[op].pc == OnApplied)
            <==> forall k :: b < k <= e ==> !Hindered(run[k], acts[k], op)
  {
    hide Inv, Next, Init, Hindered, Failing;
    FailingSince(run, acts, b, e, op, e);
    StepOf(run, acts, e);
    hide IsRun;
    StepReturns(run[e], acts[e], op);
  }

  // ---------------------------------------------------------------- what a failure leaves

  /** The receipt variable as far as the await at `t.pc` had set it. */
  function SoFar(spec: Spec, t: Thread): Receipt {
    if t.pc == WriteSnapshotted || t.pc == WriteWriting || t.pc == Progress || t.pc == WriteFilesCommitted
    then t.receipt.(committed := spec.intended) else t.receipt
  }

  /** The operation takes its next step, undisturbed. */
  function Go(s: State, op: OpId): Option<State> {
    Next(s, Advance(op, ""))
  }

  lemma GoesTo(s: State, op: OpId)
    requires op in s.apply && s.apply[op].planId in s.specs
    ensures var r, next := AdvanceThread(s.w, s.specs[s.apply[op].planId], op, s.apply[op], ""), Go(s, op);
            && next.Some? && next.value.w == Perform(s.w, op, r.0) && next.value.specs == s.specs
            && (op in next.value.apply <==> r.1.Some?) && (r.1.Some? ==> next.value.apply[op] == r.1.value)
  {
    hide AdvanceThread, Perform;
    ThreadMaps(s, Advance(op, ""));
  }

  /**
    A failure before the first rename: the operation goes on to mark its plan failed, if it is still
    applying, and its receipt, and ends. No file is touched.
   */
  lemma FailureBeforeRename(s: State, a: Action, op: OpId) returns (last: State)
    requires Next(s, a).Some? && Hindered(s, a, op)
    requires var t := s.apply[op];
             && t.receipt.state != FilesCommitted && t.receipt.state != RedisPending
             && (t.pc == Check || t.pc == WriteSnapshotted || ((t.pc == WriteWriting || t.pc == Rename) && t.count == 0))
    ensures Go(Next(s, a).value, op).Some? && Go(Go(Next(s, a).value, op).value, op) == Some(last) && op !in last.apply
    ensures var t, q := s.apply[op], s.apply[op].planId;
            && last.w.files == s.w.files && last.w.managed == s.w.managed && last.w.ops == s.w.ops
            && last.w.plans == (if PlanIs(s.w, q, Applying) then s.w.plans[q := s.w.plans[q].(state := PlanFailed)] else s.w.plans)
            && op in last.w.receipts
            && last.w.receipts[op] == SoFar(s.specs[q], t).(state := Failed, failure := ApplyFailed)
  {
    ThreadMaps(s, a);
    FirstFailing(s, a, op);
    hide Next, AdvanceThread, ThrowThread, Hindered;
    var s1 := Next(s, a).value;
    GoesTo(s1, op);
    FailingSteps(s1, op);
    var s2 := Go(s1, op).value;
    GoesTo(s2, op);
    FailingSteps(s2, op);
    last := Go(s2, op).value;
  }

  /** The step that fails, for each await before the first rename. */
  lemma FirstFailing(s: State, a: Action, op: OpId)
    requires Hindered(s, a, op)
    requires var t := s.apply[op];
             && t.receipt.state != FilesCommitted && t.receipt.state != RedisPending
             && (t.pc == Check || t.pc == WriteSnapshotted || ((t.pc == WriteWriting || t.pc == Rename) && t.count == 0))
    ensures var t, r := s.apply[op], ThreadStep(s, a);
            && r.1.Some? && r.1.value.pc == Pc.FailPlan && r.1.value.planId == t.planId
            && r.1.value.receipt.(state := Failed, failure := ApplyFailed)
               == SoFar(s.specs[t.planId], t).(state := Failed, failure := ApplyFailed)
            && (r.0 == Nothing || (r.0.PutReceipt? && a.Throw? && a.effect))
  {
  }

  lemma FailingSteps(s: State, op: OpId)
    requires op in s.apply && s.apply[op].planId in s.specs
    ensures var t := s.apply[op]; var r := AdvanceThread(s.w, s.specs[t.planId], op, t, "");
            && (t.pc == Pc.FailPlan ==> r == (Transition(t.planId, Applying, PlanFailed), Some(t.(pc := Pc.WriteFailed))))
            && (t.pc == Pc.WriteFailed ==> r == (PutReceipt(t.receipt.(state := Failed, failure := ApplyFailed)), None))
            && (t.pc.WriteReconcile? ==>
                  r == (PutReceipt(t.receipt.(state := ReconciliationRequired, failure := t.pc.code)), None))
            && (t.pc == WriteUncertain ==>
                  r == (PutReceipt(t.receipt.(state := ReconciliationRequired, failure := TransitionUncertain)), None))
            && (t.pc == WriteProjectionFailed ==>
                  r == (PutReceipt(t.receipt.(state := ReconciliationRequired, failure := ProjectionFailed)), None))
  {
  }

  /** Why a person must look, by the await that failed. */
  function ReviewCode(pc: Pc): Failure {
    if pc == Cas then TransitionUncertain
    else if pc == Complete then ProjectionFailed
    else if pc == Recommit || pc == Manage || pc == WriteCompleted || pc == OnApplied then CommitUncertain
    else ReconciliationCode
  }

  /**
    Any other failure: the operation goes on to leave its receipt for review under the code of the await
    that failed, and ends. The plan is left as it was, but for a step that took effect all the same.
   */
  lemma FailureForReview(s: State, a: Action, op: OpId) returns (last: State)
    requires Next(s, a).Some? && Hindered(s, a, op)
    requires var t := s.apply[op];
             || t.pc == Cas || t.pc == Project || t.pc == Complete
             || ((t.pc == WriteWriting || t.pc == Rename || t.pc == Progress || t.pc == WriteFilesCommitted) && t.count > 0)
             || ((t.pc == Recommit || t.pc == Manage || t.pc == WriteCompleted || t.pc == OnApplied)
                 && t.receipt.state == FilesCommitted)
    ensures Go(Next(s, a).value, op) == Some(last) && op !in last.apply
    ensures var t, w, q := s.apply[op], Next(s, a).value.w, s.apply[op].planId;
            && last.w.files == s.w.files && last.w.managed == s.w.managed && last.w.ops == w.ops && last.w.plans == w.plans
            && ((a.Throw? && a.effect) || (w.plans == s.w.plans && w.ops == s.w.ops))
            && op in last.w.receipts
            && last.w.receipts[op]
               == SoFar(s.specs[q], t).(state := ReconciliationRequired, failure := ReviewCode(t.pc))
  {
    ThreadMaps(s, a);
    ReviewFirst(s, a, op);
    hide Next, AdvanceThread, ThrowThread, Hindered;
    var s1 := Next(s, a).value;
    GoesTo(s1, op);
    FailingSteps(s1, op);
    last := Go(s1, op).value;
  }

  lemma ReviewFirst(s: State, a: Action, op: OpId)
    requires Hindered(s, a, op)
    requires var t := s.apply[op];
             || t.pc == Cas || t.pc == Project || t.pc == Complete
             || ((t.pc == WriteWriting || t.pc == Rename || t.pc == Progress || t.pc == WriteFilesCommitted) && t.count > 0)
             || ((t.pc == Recommit || t.pc == Manage || t.pc == WriteCompleted || t.pc == OnApplied)
                 && t.receipt.state == FilesCommitted)
    ensures var t, r := s.apply[op], ThreadStep(s, a);
            && r.1.Some? && r.1.value.planId == t.planId
            && r.1.value.pc == (if t.pc == Cas then WriteUncertain else if t.pc == Complete then WriteProjectionFailed
                                else WriteReconcile(ReviewCode(t.pc)))
            && r.1.value.receipt.(state := ReconciliationRequired) == SoFar(s.specs[t.planId], t).(state := ReconciliationRequired)
            && (r.0 == Nothing || (a.Throw? && a.effect && !r.0.WriteFile? && !r.0.PutManaged?))
  {
  }

  /** The compare-and-set that fails the plan is attempted once, and the failed receipt written whatever comes of it. */
  lemma FailPlanIsSwallowed(s: State, op: OpId, effect: bool)
    requires Next(s, Throw(op, effect)).Some? && s.apply[op].pc == Pc.FailPlan
    ensures var s' := Next(s, Throw(op, effect)).value;
            && op in s'.apply && s'.apply[op].pc == Pc.WriteFailed && s'.apply[op].receipt == s.apply[op].receipt
  {
    ThreadMaps(s, Throw(op, effect));
  }

  /**
    An await that throws has either done nothing or exactly what it would have done had it returned; the
    two look the same to the operation. A rename and a managed target are done or not, and never throw late.
   */
  lemma ThrownEffect(w: World, spec: Spec, op: OpId, t: Thread)
    ensures ThrowThread(spec, t, false) == (Nothing, ThrowThread(spec, t, true).1)
    ensures ThrowThread(spec, t, true).0 ==
              if t.pc == Check || t.pc == Rename || t.pc == Project || t.pc == Manage || t.pc == OnApplied then Nothing
              else if t.pc == Cas then Transition(t.planId, Approved, Applying)
              else if t.pc == Complete then CompletePlan(t.planId)
              else AdvanceThread(w, spec, op, t, "").0
    ensures ThrowThread(spec, t, true).1 == None
            <==> t.pc == WritePrepared || t.pc == WriteUncertain || t.pc.WriteReconcile? || t.pc == Pc.WriteFailed
  {
  }

  lemma ThrownPassEffect(w: World, m: Rec)
    requires m.todo != [] && m.todo[0] in m.copies
    ensures ThrowRec(m, false) == (Nothing, ThrowRec(m, true).1)
    ensures var planId := m.copies[m.todo[0]].planId;
            ThrowRec(m, true).0 ==
              if m.pc == Observe || m.pc == ReadPlan || m.pc == RecManage then Nothing
              else if m.pc == FailCas then Transition(planId, Applying, PlanFailed)
              else if m.pc == CompleteCas then CompletePlan(planId)
              else AdvanceRec(w, m, "").0
  {
    hide Decide, Elements;
  }
}
