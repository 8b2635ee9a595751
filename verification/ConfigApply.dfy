/**
  `applyPlan` as the imperative code it is: the receipt variable reassigned step by step, the
  engine's loop over the targets, and the nested catch clauses. Each await may throw with or
  without its effect, and anything may happen in the daemon while it waits: other operations,
  passes over the very receipt this operation is writing, edits from outside.
 */
module ConfigApply {
  import opened Prelude
  import opened ConfigPolicy
  import opened ConfigProtocol
  import opened ConfigSafety
  import opened ConfigRecovery
  import opened ConfigDaemon
  import opened ConfigService

  /** What the catch clause distinguishes: an error that asks for reconciliation, or any other. */
  datatype Error = NeedsReconciliation | Other

  /** The daemon keeps its history, and the plan its content. */
  ghost predicate Knows(d: Daemon, planId: PlanId, spec: Spec)
    reads d
  {
    d.Valid() && planId in d.specs && d.specs[planId] == spec
  }

  /** Operation `op` is running plan `planId`. */
  ghost predicate Owns(d: Daemon, op: OpId, planId: PlanId, spec: Spec)
    reads d
  {
    Knows(d, planId, spec) && op in d.apply && d.apply[op].planId == planId
  }

  /** The operation is running, and where it is. */
  ghost predicate Running(apply: map<OpId, Thread>, op: OpId, planId: PlanId, pc: Pc, receipt: Receipt, count: nat,
                          done: set<Path>) {
    && op in apply
    && var t := apply[op];
       t.planId == planId && t.pc == pc && t.receipt == receipt && t.count == count && t.done == done
  }

  ghost predicate ThreadIs(apply: map<OpId, Thread>, op: OpId, t: Option<Thread>) {
    (op in apply <==> t.Some?) && (t.Some? ==> apply[op] == t.value)
  }

  /** The receipt state that is written at an engine await. */
  function StateAt(pc: Pc): ReceiptState {
    if pc == WriteSnapshotted then Snapshotted else if pc == WriteFilesCommitted then FilesCommitted else Writing
  }

  function PcAfter(spec: Spec, pc: Pc, count: nat): Pc {
    match pc
    case WriteSnapshotted => WriteWriting
    case WriteFilesCommitted => Project
    case WriteWriting => Rename
    case _ => if count < |spec.targets| then Rename else WriteFilesCommitted
  }

  /** The last step of the history was the operation's own last one; `normally` says whether `applyPlan` then returned. */
  ghost predicate Ended(d: Daemon, op: OpId, normally: bool)
    reads d
  {
    && op !in d.apply && 0 < |d.acts| < |d.run|
    && var s, a := d.run[|d.acts| - 1], d.acts[|d.acts| - 1];
       op in s.apply && ByOp(a, op) && (normally <==> a.Advance? && s.apply[op].pc == OnApplied)
  }

  predicate ByOp(a: Action, op: OpId) {
    (a.Advance? || a.Throw?) && a.op == op
  }

  /** The operation is where the catch clause expects it for this error. */
  ghost predicate Raised(d: Daemon, op: OpId, planId: PlanId, receipt: Receipt, err: Error)
    reads d
  {
    if err.NeedsReconciliation? && receipt.state == ReconciliationRequired then Ended(d, op, false)
    else
      && op in d.apply && d.apply[op].planId == planId && d.apply[op].receipt == receipt
      && d.apply[op].pc == (if err.NeedsReconciliation? then WriteReconcile(ReconciliationCode)
                          else if receipt.state == FilesCommitted || receipt.state == RedisPending then WriteReconcile(CommitUncertain)
                          else Pc.FailPlan)
  }

  /**
    Step `at - 1` wrote the completed receipt, and it was true: the plan applied by this operation,
    its targets as intended but for edits from outside, and recorded as managed but for those
    that a pass rewrote.
   */
  ghost predicate CompletedAt(run: seq<State>, at: nat, op: OpId, planId: PlanId, spec: Spec) {
    && 0 < at < |run| && op in run[at - 1].apply
    && var w, t := run[at].w, run[at - 1].apply[op];
       && op in w.receipts && w.receipts[op].state == Completed
       && (planId in w.plans ==> w.plans[planId] == Plan(Applied, Some(op)))
       && ManagedBy(w, Elements(spec.targets) - t.remanaged, op, spec.intended)
       && TargetsAt(w.files, spec.targets, spec.intended, t.edited)
  }

  /** The history has grown, by a daemon that stays up and does not begin this operation again. */
  ghost predicate Since(run: seq<State>, acts: seq<Action>, run': seq<State>, acts': seq<Action>, op: OpId) {
    && run <= run' && acts <= acts'
    && forall i :: |acts| <= i < |acts'| ==> !acts'[i].Crash? && !(acts'[i].Begin? && acts'[i].op == op)
  }

  // ---------------------------------------------------------------- awaits

  /** Waiting changes nothing that the operation relies on. */
  method Wait(d: Daemon, op: OpId, ghost planId: PlanId, ghost spec: Spec)
    requires Owns(d, op, planId, spec)
    modifies d
    ensures Owns(d, op, planId, spec) && SameThread(old(d.apply)[op], d.apply[op])
    ensures Since(old(d.run), old(d.acts), d.run, d.acts, op)
  {
    hide IsRun;
    d.Elsewhere(Op(op));
  }

  /**
    One durable step. It may throw, and then `landed` may have happened all the same; it can
    only succeed if `can`, which is how a compare-and-set refuses.
   */
  method Durable(d: Daemon, op: OpId, ghost planId: PlanId, ghost spec: Spec, e: Effect, landed: Effect, can: bool, pick: Path)
    returns (ok: bool)
    requires Owns(d, op, planId, spec)
    requires can ==> AdvanceThread(d.w, spec, op, d.apply[op], pick).0 == e
    requires ThrowThread(spec, d.apply[op], false) == (Nothing, ThrowThread(spec, d.apply[op], true).1)
    requires ThrowThread(spec, d.apply[op], true).0 == landed
    modifies d
    ensures Knows(d, planId, spec) && |d.run| == |old(d.run)| + 1 && Since(old(d.run), old(d.acts), d.run, d.acts, op)
    ensures |d.acts| == |old(d.acts)| + 1 && |d.run| == |d.acts| + 1 && d.run[|old(d.acts)|] == old(d.Now())
    ensures ByOp(d.acts[|old(d.acts)|], op) && (ok <==> d.acts[|old(d.acts)|].Advance?)
    ensures ok ==> can && d.w == Perform(old(d.w), op, e)
                   && ThreadIs(d.apply, op, AdvanceThread(old(d.w), spec, op, old(d.apply)[op], pick).1)
    ensures ok ==> d.acts == old(d.acts) + [Advance(op, pick)] && d.run == old(d.run) + [d.Now()]
    ensures !ok ==> ThreadIs(d.apply, op, ThrowThread(spec, old(d.apply)[op], false).1)
    ensures !ok ==> d.w == old(d.w) || d.w == Perform(old(d.w), op, landed)
  {
    hide AdvanceThread, ThrowThread, Perform, IsRun, WithThread;
    ghost var was := d.Now();
    RunLength(d.run, d.acts);
    ok := *;
    ok := ok && can;
    var lands: bool := *;
    var spec' := d.specs[d.apply[op].planId];
    if ok {
      d.Take(op, e, AdvanceThread(d.w, spec', op, d.apply[op], pick).1);
      assert Next(was, Advance(op, pick)) == Some(d.Now());
      d.Log(Advance(op, pick));
    } else {
      PerformNothing(d.w, op);
      d.Take(op, if lands then landed else Nothing, ThrowThread(spec', d.apply[op], lands).1);
      assert Next(was, Throw(op, lands)) == Some(d.Now());
      d.Log(Throw(op, lands));
    }
  }

  lemma PerformNothing(w: World, op: OpId)
    ensures Perform(w, op, Nothing) == w
  {
  }

  /** An await without a durable effect: it returns or it throws. */
  method Silent(d: Daemon, op: OpId, ghost planId: PlanId, ghost spec: Spec) returns (ok: bool)
    requires Owns(d, op, planId, spec)
    requires AdvanceThread(d.w, spec, op, d.apply[op], "").0 == Nothing && ThrowThread(spec, d.apply[op], false).0 == Nothing
    requires ThrowThread(spec, d.apply[op], true) == ThrowThread(spec, d.apply[op], false)
    modifies d
    ensures Knows(d, planId, spec) && d.w == old(d.w) && |d.run| == |old(d.run)| + 1
    ensures Since(old(d.run), old(d.acts), d.run, d.acts, op)
    ensures |d.acts| == |old(d.acts)| + 1 && |d.run| == |d.acts| + 1 && d.run[|old(d.acts)|] == old(d.Now())
    ensures ByOp(d.acts[|old(d.acts)|], op) && (ok <==> d.acts[|old(d.acts)|].Advance?)
    ensures ok ==> d.run == old(d.run) + [d.Now()]
    ensures var t := old(d.apply)[op];
            ThreadIs(d.apply, op, (if ok then AdvanceThread(d.w, spec, op, t, "") else ThrowThread(spec, t, false)).1)
  {
    hide AdvanceThread, ThrowThread, IsRun;
    assert Perform(d.w, op, Nothing) == d.w;
    ok := Durable(d, op, planId, spec, Nothing, Nothing, true, "");
  }

  /** The receipt write of `onProgress`, after the receipt variable has been reassigned. */
  method ReportProgress(d: Daemon, op: OpId, ghost planId: PlanId, ghost spec: Spec, ghost pc: Pc, ghost was: Receipt,
                        receipt: Receipt, ghost count: nat)
    returns (ok: bool)
    requires Owns(d, op, planId, spec) && Running(d.apply, op, planId, pc, was, count, {})
    requires receipt == was.(state := StateAt(pc), committed := spec.intended)
    requires pc == WriteSnapshotted || pc == WriteWriting || pc == Progress || pc == WriteFilesCommitted
    requires pc == WriteFilesCommitted ==> count > 0
    modifies d
    ensures Knows(d, planId, spec) && Since(old(d.run), old(d.acts), d.run, d.acts, op)
    ensures ok ==> Owns(d, op, planId, spec) && Running(d.apply, op, planId, PcAfter(spec, pc, count), receipt, count, {})
    ensures !ok ==> Raised(d, op, planId, receipt, if pc != WriteSnapshotted && count > 0 then NeedsReconciliation else Other)
  {
    hide IsRun, Perform, AdvanceThread, ThrowThread;
    Wait(d, op, planId, spec);
    ProgressSteps(d.w, spec, op, d.apply[op], receipt);
    ok := Durable(d, op, planId, spec, PutReceipt(receipt), PutReceipt(receipt), true, "");
  }

  /**
    The engine: check, snapshot, one rename per target with a receipt write after each, and
    its own catch clause, which asks for reconciliation once a file has been renamed.
   */
  method RunEngine(d: Daemon, op: OpId, ghost planId: PlanId, spec: Spec, r: Receipt) returns (err: Option<Error>, receipt: Receipt)
    requires Owns(d, op, planId, spec) && Running(d.apply, op, planId, Check, r, 0, {}) && r.state == Prepared && |spec.targets| > 0
    modifies d
    ensures Knows(d, planId, spec) && Since(old(d.run), old(d.acts), d.run, d.acts, op)
    ensures err.None? ==>
              Owns(d, op, planId, spec) && Running(d.apply, op, planId, Project, receipt, |spec.targets|, {})
              && receipt == r.(state := FilesCommitted, committed := spec.intended)
    ensures err.Some? ==> Raised(d, op, planId, receipt, err.value)
  {
    hide IsRun, AdvanceThread, ThrowThread, Raised, Running, Owns, Knows;
    err, receipt := PrepareEngine(d, op, planId, spec, r);
    if err.Some? {
      return;
    }
    err := RenameAll(d, op, planId, spec, receipt);
    if err.Some? {
      return;
    }
    receipt := receipt.(state := FilesCommitted);
    var ok := ReportProgress(d, op, planId, spec, WriteFilesCommitted, receipt.(state := Writing), receipt, |spec.targets|);
    err := if ok then None else Some(NeedsReconciliation);
  }

  /** Preconditions, snapshot, and the announcement that writing begins. */
  method PrepareEngine(d: Daemon, op: OpId, ghost planId: PlanId, spec: Spec, r: Receipt)
    returns (err: Option<Error>, receipt: Receipt)
    requires Owns(d, op, planId, spec) && Running(d.apply, op, planId, Check, r, 0, {}) && r.state == Prepared
    modifies d
    ensures Knows(d, planId, spec) && Since(old(d.run), old(d.acts), d.run, d.acts, op)
    ensures err.None? ==>
              Owns(d, op, planId, spec) && Running(d.apply, op, planId, Rename, receipt, 0, {})
              && receipt == r.(state := Writing, committed := spec.intended)
    ensures err.Some? ==> Raised(d, op, planId, receipt, err.value)
  {
    hide IsRun, AdvanceThread, ThrowThread, Raised, Running, Owns, Knows;
    receipt := r;
    var ok := CheckPreconditions(d, op, planId, spec, receipt);
    if !ok {
      return Some(Other), receipt;
    }
    receipt := receipt.(state := Snapshotted, committed := spec.intended);
    ok := ReportProgress(d, op, planId, spec, WriteSnapshotted, r, receipt, 0);
    if !ok {
      return Some(Other), receipt;
    }
    receipt := receipt.(state := Writing);
    ok := ReportProgress(d, op, planId, spec, WriteWriting, receipt.(state := Snapshotted), receipt, 0);
    err := if ok then None else Some(Other);
  }

  /** One rename per target, and a receipt write after each. */
  method RenameAll(d: Daemon, op: OpId, ghost planId: PlanId, spec: Spec, receipt: Receipt) returns (err: Option<Error>)
    requires Owns(d, op, planId, spec) && Running(d.apply, op, planId, Rename, receipt, 0, {}) && |spec.targets| > 0
    requires receipt.state == Writing && receipt.committed == spec.intended
    modifies d
    ensures Knows(d, planId, spec) && Since(old(d.run), old(d.acts), d.run, d.acts, op)
    ensures err.None? ==> Owns(d, op, planId, spec) && Running(d.apply, op, planId, WriteFilesCommitted, receipt, |spec.targets|, {})
    ensures err.Some? ==> Raised(d, op, planId, receipt, err.value)
  {
    hide IsRun, AdvanceThread, ThrowThread, Raised, Running;
    var committedCount := 0;
    while committedCount < |spec.targets|
      invariant committedCount <= |spec.targets| && Owns(d, op, planId, spec) && Since(old(d.run), old(d.acts), d.run, d.acts, op)
      invariant Running(d.apply, op, planId, if committedCount < |spec.targets| then Rename else WriteFilesCommitted,
                        receipt, committedCount, {})
    {
      var ok := RenameNext(d, op, planId, spec, receipt, committedCount);
      if !ok {
        return Some(if committedCount > 0 then NeedsReconciliation else Other);
      }
      committedCount := committedCount + 1;
      ok := ReportProgress(d, op, planId, spec, Progress, receipt, receipt, committedCount);
      if !ok {
        return Some(NeedsReconciliation);
      }
    }
    err := None;
  }

  method CheckPreconditions(d: Daemon, op: OpId, ghost planId: PlanId, spec: Spec, ghost receipt: Receipt) returns (ok: bool)
    requires Owns(d, op, planId, spec) && Running(d.apply, op, planId, Check, receipt, 0, {}) && receipt.state == Prepared
    modifies d
    ensures Knows(d, planId, spec) && Since(old(d.run), old(d.acts), d.run, d.acts, op)
    ensures ok ==> Owns(d, op, planId, spec) && Running(d.apply, op, planId, WriteSnapshotted, receipt, 0, {})
    ensures !ok ==> Raised(d, op, planId, receipt, Other)
  {
    hide IsRun, Perform, PreconditionsHold;
    Wait(d, op, planId, spec);
    var holds := PreconditionsHold(d.w.files, spec);
    ok := Silent(d, op, planId, spec);
    ok := ok && holds;
  }

  method RenameNext(d: Daemon, op: OpId, ghost planId: PlanId, spec: Spec, ghost receipt: Receipt, k: nat) returns (ok: bool)
    requires Owns(d, op, planId, spec) && k < |spec.targets| && Running(d.apply, op, planId, Rename, receipt, k, {})
    requires receipt.state == Writing
    modifies d
    ensures Knows(d, planId, spec) && Since(old(d.run), old(d.acts), d.run, d.acts, op)
    ensures ok ==> Owns(d, op, planId, spec) && Running(d.apply, op, planId, Progress, receipt, k + 1, {})
    ensures !ok ==> Raised(d, op, planId, receipt, if k > 0 then NeedsReconciliation else Other)
  {
    hide IsRun;
    Wait(d, op, planId, spec);
    var p := spec.targets[k];
    ok := Durable(d, op, planId, spec, WriteFile(p, Look(spec.intended, p)), Nothing, true, "");
  }

  /** `writeManagedTargets`, one target after the other. */
  method WriteManagedTargets(d: Daemon, op: OpId, ghost planId: PlanId, spec: Spec, receipt: Receipt) returns (ok: bool)
    requires Owns(d, op, planId, spec) && Running(d.apply, op, planId, Manage, receipt, |spec.targets|, {})
    requires receipt.state == FilesCommitted && Distinct(spec.targets)
    modifies d
    ensures Knows(d, planId, spec) && Since(old(d.run), old(d.acts), d.run, d.acts, op)
    ensures ok ==> Owns(d, op, planId, spec) && Running(d.apply, op, planId, Complete, receipt, |spec.targets|, Elements(spec.targets))
    ensures !ok ==> Raised(d, op, planId, receipt, Other)
  {
    assert Elements(spec.targets[..0]) == {};
    hide IsRun, Running, Raised, Distinct, Elements, Owns, Knows, Since;
    assert Since(d.run, d.acts, d.run, d.acts, op) by { SinceHere(d.run, d.acts, op); }
    for k := 0 to |spec.targets|
      invariant Owns(d, op, planId, spec) && Since(old(d.run), old(d.acts), d.run, d.acts, op)
      invariant Running(d.apply, op, planId, Manage, receipt, |spec.targets|, Elements(spec.targets[..k]))
    {
      ghost var run, acts := d.run, d.acts;
      ok := WriteManagedTarget(d, op, planId, spec, receipt, k);
      SinceThen(old(d.run), old(d.acts), run, acts, d.run, d.acts, op);
      if !ok {
        return;
      }
    }
    assert spec.targets[..|spec.targets|] == spec.targets;
    ghost var run, acts := d.run, d.acts;
    ok := EndManaged(d, op, planId, spec, receipt);
    SinceThen(old(d.run), old(d.acts), run, acts, d.run, d.acts, op);
  }

  lemma SinceHere(run: seq<State>, acts: seq<Action>, op: OpId)
    ensures Since(run, acts, run, acts, op)
  {
  }

  lemma SinceThen(run: seq<State>, acts: seq<Action>, run': seq<State>, acts': seq<Action>, run'': seq<State>,
                  acts'': seq<Action>, op: OpId)
    requires Since(run, acts, run', acts', op) && Since(run', acts', run'', acts'', op)
    ensures Since(run, acts, run'', acts'', op)
  {
  }

  method WriteManagedTarget(d: Daemon, op: OpId, ghost planId: PlanId, spec: Spec, receipt: Receipt, k: nat) returns (ok: bool)
    requires Owns(d, op, planId, spec) && k < |spec.targets| && receipt.state == FilesCommitted && Distinct(spec.targets)
    requires Running(d.apply, op, planId, Manage, receipt, |spec.targets|, Elements(spec.targets[..k]))
    modifies d
    ensures Knows(d, planId, spec) && Since(old(d.run), old(d.acts), d.run, d.acts, op)
    ensures ok ==> Owns(d, op, planId, spec) && Running(d.apply, op, planId, Manage, receipt, |spec.targets|, Elements(spec.targets[..k + 1]))
    ensures !ok ==> Raised(d, op, planId, receipt, Other)
  {
    hide IsRun, Distinct, Elements;
    Wait(d, op, planId, spec);
    NextTarget(spec.targets, k);
    var p := spec.targets[k];
    ok := Durable(d, op, planId, spec, PutManaged(p, Look(receipt.committed, p)), Nothing, true, p);
  }

  /** `Promise.all` is done. */
  method EndManaged(d: Daemon, op: OpId, ghost planId: PlanId, ghost spec: Spec, ghost receipt: Receipt) returns (ok: bool)
    requires Owns(d, op, planId, spec) && receipt.state == FilesCommitted
    requires Running(d.apply, op, planId, Manage, receipt, |spec.targets|, Elements(spec.targets))
    modifies d
    ensures Knows(d, planId, spec) && Since(old(d.run), old(d.acts), d.run, d.acts, op)
    ensures ok ==> Owns(d, op, planId, spec) && Running(d.apply, op, planId, Complete, receipt, |spec.targets|, Elements(spec.targets))
    ensures !ok ==> Raised(d, op, planId, receipt, Other)
  {
    hide IsRun;
    ok := Silent(d, op, planId, spec);
  }

  /** From the committed files to the completed receipt. */
  method Commit(d: Daemon, op: OpId, planId: PlanId, spec: Spec, r: Receipt)
    returns (err: Option<Error>, receipt: Receipt, ghost at: nat)
    requires Owns(d, op, planId, spec) && Running(d.apply, op, planId, Project, r, |spec.targets|, {})
    requires r.state == FilesCommitted && Distinct(spec.targets)
    modifies d
    ensures Knows(d, planId, spec) && Since(old(d.run), old(d.acts), d.run, d.acts, op)
    ensures err.None? ==> Ended(d, op, true) && |old(d.run)| <= at && CompletedAt(d.run, at, op, planId, spec)
    ensures err.Some? ==> Raised(d, op, planId, receipt, err.value)
  {
    hide IsRun, Raised, Running, CompletedAt, Owns, Knows, Ended, Distinct;
    receipt, at := r, 0;
    err := RecordFiles(d, op, planId, spec, receipt);
    if err.Some? {
      return;
    }
    var ok := CompleteInRedis(d, op, planId, spec, receipt);
    if !ok {
      receipt := Uncertain(receipt, ProjectionFailed);
      ok := WriteUncertainProjection(d, op, planId, spec, r, receipt);
      return Some(if ok then NeedsReconciliation else Other), receipt, at;
    }
    ok, at := WriteAndAnnounce(d, op, planId, spec, receipt);
    err := if ok then None else Some(Other);
  }

  /** The agent, the receipt once more, and the managed targets. */
  method RecordFiles(d: Daemon, op: OpId, ghost planId: PlanId, spec: Spec, receipt: Receipt) returns (err: Option<Error>)
    requires Owns(d, op, planId, spec) && Running(d.apply, op, planId, Project, receipt, |spec.targets|, {})
    requires receipt.state == FilesCommitted && Distinct(spec.targets)
    modifies d
    ensures Knows(d, planId, spec) && Since(old(d.run), old(d.acts), d.run, d.acts, op)
    ensures err.None? ==>
              Owns(d, op, planId, spec) && Running(d.apply, op, planId, Complete, receipt, |spec.targets|, Elements(spec.targets))
    ensures err.Some? ==> Raised(d, op, planId, receipt, err.value)
  {
    hide IsRun, Raised, Running, Owns, Knows, Distinct, Elements;
    var ok := ProjectAgent(d, op, planId, spec, receipt);
    if !ok {
      return Some(NeedsReconciliation);
    }
    ok := WriteCommitted(d, op, planId, spec, receipt);
    if !ok {
      return Some(Other);
    }
    ok := WriteManagedTargets(d, op, planId, spec, receipt);
    err := if ok then None else Some(Other);
  }

  /** `putAgentDefinition` for an imported or restored agent; its failure asks for reconciliation. */
  method ProjectAgent(d: Daemon, op: OpId, ghost planId: PlanId, ghost spec: Spec, ghost r: Receipt) returns (ok: bool)
    requires Owns(d, op, planId, spec) && Running(d.apply, op, planId, Project, r, |spec.targets|, {}) && r.state == FilesCommitted
    modifies d
    ensures Knows(d, planId, spec) && Since(old(d.run), old(d.acts), d.run, d.acts, op)
    ensures ok ==> Owns(d, op, planId, spec) && Running(d.apply, op, planId, Recommit, r, |spec.targets|, {})
    ensures !ok ==> Raised(d, op, planId, r, NeedsReconciliation)
  {
    hide IsRun;
    Wait(d, op, planId, spec);
    ok := Silent(d, op, planId, spec);
  }

  method WriteCommitted(d: Daemon, op: OpId, ghost planId: PlanId, ghost spec: Spec, r: Receipt) returns (ok: bool)
    requires Owns(d, op, planId, spec) && Running(d.apply, op, planId, Recommit, r, |spec.targets|, {}) && r.state == FilesCommitted
    modifies d
    ensures Knows(d, planId, spec) && Since(old(d.run), old(d.acts), d.run, d.acts, op)
    ensures ok ==> Owns(d, op, planId, spec) && Running(d.apply, op, planId, Manage, r, |spec.targets|, {})
    ensures !ok ==> Raised(d, op, planId, r, Other)
  {
    hide IsRun;
    Wait(d, op, planId, spec);
    ok := Durable(d, op, planId, spec, PutReceipt(r), PutReceipt(r), true, "");
  }

  method CompleteInRedis(d: Daemon, op: OpId, planId: PlanId, ghost spec: Spec, ghost r: Receipt) returns (ok: bool)
    requires Owns(d, op, planId, spec) && Running(d.apply, op, planId, Complete, r, |spec.targets|, Elements(spec.targets))
    modifies d
    ensures Since(old(d.run), old(d.acts), d.run, d.acts, op) && Owns(d, op, planId, spec)
    ensures Running(d.apply, op, planId, if ok then WriteCompleted else WriteProjectionFailed, r, |spec.targets|, Elements(spec.targets))
  {
    hide IsRun;
    Wait(d, op, planId, spec);
    ok := Durable(d, op, planId, spec, CompletePlan(planId), CompletePlan(planId), CanComplete(d.w, planId, op), "");
  }

  /** The receipt write inside the catch clause of the projection. */
  method WriteUncertainProjection(d: Daemon, op: OpId, ghost planId: PlanId, ghost spec: Spec, ghost was: Receipt, r: Receipt)
    returns (ok: bool)
    requires Owns(d, op, planId, spec) && r == Uncertain(was, ProjectionFailed)
    requires Running(d.apply, op, planId, WriteProjectionFailed, was, |spec.targets|, Elements(spec.targets))
    modifies d
    ensures Knows(d, planId, spec) && Since(old(d.run), old(d.acts), d.run, d.acts, op)
    ensures Raised(d, op, planId, r, if ok then NeedsReconciliation else Other)
  {
    hide IsRun, Perform, AdvanceThread, ThrowThread;
    Wait(d, op, planId, spec);
    UncertainSteps(d.w, spec, op, d.apply[op]);
    ok := Durable(d, op, planId, spec, PutReceipt(r), PutReceipt(r), true, "");
  }

  lemma UncertainSteps(w: World, spec: Spec, op: OpId, t: Thread)
    requires t.pc == WriteProjectionFailed
    ensures var r := Uncertain(t.receipt, ProjectionFailed);
            && AdvanceThread(w, spec, op, t, "") == (PutReceipt(r), None)
            && forall effect :: ThrowThread(spec, t, effect)
                 == (If(effect, PutReceipt(r)), Some(t.(receipt := r, pc := Pc.FailPlan)))
  {
  }

  /** The completed receipt and the `onApplied` callback. */
  method WriteAndAnnounce(d: Daemon, op: OpId, planId: PlanId, spec: Spec, r: Receipt) returns (ok: bool, ghost at: nat)
    requires Owns(d, op, planId, spec) && Running(d.apply, op, planId, WriteCompleted, r, |spec.targets|, Elements(spec.targets))
    requires r.state == FilesCommitted
    modifies d
    ensures Knows(d, planId, spec) && Since(old(d.run), old(d.acts), d.run, d.acts, op)
    ensures ok ==> Ended(d, op, true) && |old(d.run)| <= at && CompletedAt(d.run, at, op, planId, spec)
    ensures !ok ==> Raised(d, op, planId, r, Other)
  {
    hide IsRun, CompletedAt;
    ok, at := WriteCompletedReceipt(d, op, planId, spec, r);
    if ok {
      ghost var run0 := d.run;
      ok := Announce(d, op, planId, spec, r);
      if ok {
        CompletedStays(run0, d.run, at, op, planId, spec);
      }
    }
  }

  /** `onApplied` */
  method Announce(d: Daemon, op: OpId, ghost planId: PlanId, ghost spec: Spec, ghost r: Receipt) returns (ok: bool)
    requires Owns(d, op, planId, spec) && Running(d.apply, op, planId, OnApplied, r, |spec.targets|, Elements(spec.targets))
    requires r.state == FilesCommitted
    modifies d
    ensures Knows(d, planId, spec) && Since(old(d.run), old(d.acts), d.run, d.acts, op)
    ensures ok ==> Ended(d, op, true) && old(d.run) <= d.run
    ensures !ok ==> Raised(d, op, planId, r, Other)
  {
    hide IsRun;
    Wait(d, op, planId, spec);
    ok := Silent(d, op, planId, spec);
  }

  lemma CompletedStays(run: seq<State>, run': seq<State>, at: nat, op: OpId, planId: PlanId, spec: Spec)
    requires run <= run' && CompletedAt(run, at, op, planId, spec)
    ensures CompletedAt(run', at, op, planId, spec)
  {
    hide ManagedBy, TargetsAt;
    assert run'[at] == run[at] && run'[at - 1] == run[at - 1];
  }

  method WriteCompletedReceipt(d: Daemon, op: OpId, ghost planId: PlanId, ghost spec: Spec, r: Receipt)
    returns (ok: bool, ghost at: nat)
    requires Owns(d, op, planId, spec) && Running(d.apply, op, planId, WriteCompleted, r, |spec.targets|, Elements(spec.targets))
    requires r.state == FilesCommitted
    modifies d
    ensures Knows(d, planId, spec) && Since(old(d.run), old(d.acts), d.run, d.acts, op)
    ensures ok ==> Owns(d, op, planId, spec) && Running(d.apply, op, planId, OnApplied, r, |spec.targets|, Elements(spec.targets))
    ensures ok ==> |old(d.run)| <= at && CompletedAt(d.run, at, op, planId, spec)
    ensures !ok ==> Raised(d, op, planId, r, Other)
  {
    hide IsRun, CompletedAt, AdvanceThread, ThrowThread, Perform;
    at := 0;
    Wait(d, op, planId, spec);
    ghost var run0, acts0 := d.run, d.acts;
    CompletedSteps(d.w, spec, op, d.apply[op]);
    var completed := PutReceipt(r.(state := Completed));
    ok := Durable(d, op, planId, spec, completed, completed, true, "");
    if ok {
      at := |acts0| + 1;
      RunLength(run0, acts0);
      NowCompleted(run0, acts0, d.run, d.acts, op, d.Now());
    }
  }

  /** The outer catch clause of `applyPlan`. */
  method Catch(d: Daemon, op: OpId, planId: PlanId, spec: Spec, receipt: Receipt, err: Error)
    requires Knows(d, planId, spec) && Raised(d, op, planId, receipt, err)
    modifies d
    ensures Knows(d, planId, spec) && Since(old(d.run), old(d.acts), d.run, d.acts, op) && Ended(d, op, false)
  {
    hide IsRun;
    if err.NeedsReconciliation? {
      if receipt.state != ReconciliationRequired {
        WriteLast(d, op, planId, spec, ReconciliationCode, receipt);
      }
    } else if receipt.state == FilesCommitted || receipt.state == RedisPending {
      WriteLast(d, op, planId, spec, CommitUncertain, receipt);
    } else {
      FailPlan(d, op, planId, spec, receipt);
    }
  }

  method WriteLast(d: Daemon, op: OpId, ghost planId: PlanId, ghost spec: Spec, code: Failure, receipt: Receipt)
    requires Owns(d, op, planId, spec) && d.apply[op].pc == WriteReconcile(code) && d.apply[op].receipt == receipt
    modifies d
    ensures Knows(d, planId, spec) && Since(old(d.run), old(d.acts), d.run, d.acts, op) && Ended(d, op, false)
  {
    hide IsRun;
    Wait(d, op, planId, spec);
    var reconciliation := PutReceipt(Uncertain(receipt, code));
    var ok := Durable(d, op, planId, spec, reconciliation, reconciliation, true, "");
  }

  /** `failPlan` swallows what it throws; then the failed receipt. */
  method FailPlan(d: Daemon, op: OpId, planId: PlanId, ghost spec: Spec, receipt: Receipt)
    requires Owns(d, op, planId, spec) && d.apply[op].pc == Pc.FailPlan && d.apply[op].receipt == receipt
    modifies d
    ensures Knows(d, planId, spec) && Since(old(d.run), old(d.acts), d.run, d.acts, op) && Ended(d, op, false)
  {
    hide IsRun;
    Wait(d, op, planId, spec);
    var failing := Transition(planId, Applying, PlanFailed);
    var ok := Durable(d, op, planId, spec, failing, failing, true, "");
    WriteFailed(d, op, planId, spec, receipt);
  }

  method WriteFailed(d: Daemon, op: OpId, ghost planId: PlanId, ghost spec: Spec, receipt: Receipt)
    requires Owns(d, op, planId, spec) && d.apply[op].pc == Pc.WriteFailed && d.apply[op].receipt == receipt
    modifies d
    ensures Knows(d, planId, spec) && Since(old(d.run), old(d.acts), d.run, d.acts, op) && Ended(d, op, false)
  {
    hide IsRun;
    Wait(d, op, planId, spec);
    var failed := PutReceipt(receipt.(state := Failed, failure := ApplyFailed));
    var ok := Durable(d, op, planId, spec, failed, failed, true, "");
  }

  /** The first receipt, then the compare-and-set that uses up the approval. */
  method TakePlan(d: Daemon, op: OpId, planId: PlanId, ghost spec: Spec, r: Receipt) returns (ok: bool)
    requires Owns(d, op, planId, spec) && Running(d.apply, op, planId, WritePrepared, r, 0, {})
    modifies d
    ensures Knows(d, planId, spec) && Since(old(d.run), old(d.acts), d.run, d.acts, op) && |d.acts| > |old(d.acts)|
    ensures if ok then Owns(d, op, planId, spec) && Running(d.apply, op, planId, Check, r, 0, {}) else Ended(d, op, false)
  {
    hide IsRun, Running;
    ok := WriteFirstReceipt(d, op, planId, spec, r);
    if ok {
      ok := UseApproval(d, op, planId, spec, r);
      if !ok {
        WriteTransitionUncertain(d, op, planId, spec, r);
      }
    }
  }

  method WriteFirstReceipt(d: Daemon, op: OpId, ghost planId: PlanId, ghost spec: Spec, r: Receipt) returns (ok: bool)
    requires Owns(d, op, planId, spec) && Running(d.apply, op, planId, WritePrepared, r, 0, {})
    modifies d
    ensures Knows(d, planId, spec) && Since(old(d.run), old(d.acts), d.run, d.acts, op) && |d.acts| > |old(d.acts)|
    ensures if ok then Owns(d, op, planId, spec) && Running(d.apply, op, planId, Cas, r, 0, {}) else Ended(d, op, false)
  {
    hide IsRun;
    Wait(d, op, planId, spec);
    ok := Durable(d, op, planId, spec, PutReceipt(r), PutReceipt(r), true, "");
  }

  method UseApproval(d: Daemon, op: OpId, planId: PlanId, ghost spec: Spec, ghost r: Receipt) returns (ok: bool)
    requires Owns(d, op, planId, spec) && Running(d.apply, op, planId, Cas, r, 0, {})
    modifies d
    ensures Since(old(d.run), old(d.acts), d.run, d.acts, op) && Owns(d, op, planId, spec)
    ensures Running(d.apply, op, planId, if ok then Check else WriteUncertain, r, 0, {})
  {
    hide IsRun;
    Wait(d, op, planId, spec);
    ok := Durable(d, op, planId, spec, Effect.TakePlan(planId), Transition(planId, Approved, Applying),
                  PlanIs(d.w, planId, Approved), "");
  }

  method WriteTransitionUncertain(d: Daemon, op: OpId, ghost planId: PlanId, ghost spec: Spec, r: Receipt)
    requires Owns(d, op, planId, spec) && Running(d.apply, op, planId, WriteUncertain, r, 0, {})
    modifies d
    ensures Knows(d, planId, spec) && Since(old(d.run), old(d.acts), d.run, d.acts, op) && Ended(d, op, false)
  {
    hide IsRun;
    Wait(d, op, planId, spec);
    var uncertain := PutReceipt(Uncertain(r, TransitionUncertain));
    var written := Durable(d, op, planId, spec, uncertain, uncertain, true, "");
  }

  // ---------------------------------------------------------------- applyPlan

  /** The plan as it was read is approved, and this is its token. */
  ghost predicate Approves(d: Daemon, planId: PlanId, token: string)
    reads d
  {
    PlanIs(d.w, planId, Approved) && planId in d.approvals && d.approvals[planId].token == token
  }

  /**
    `applyPlan` for an operation with a new id, beside whatever else is going on. Without approval and
    its token nothing happens at all. Otherwise it asks for its targets at step `asked`, and begins
    exactly when adapter, snapshot and artifact were not refused, the targets are free, and the
    approval has not expired; a plan that is not begun gets no receipt. Once begun it returns normally
    exactly when the operation's own last step was the callback's return, and then it was a true
    completion at the step that recorded it. Whatever fails, it lets its targets go.
   */
  method ApplyPlan(d: Daemon, op: OpId, planId: PlanId, token: string, spec: Spec, refused: bool)
    returns (ok: bool, ghost at: nat, ghost asked: nat, ghost clock: int)
    requires Knows(d, planId, spec) && op !in d.w.receipts && op !in d.apply
    modifies d
    ensures Knows(d, planId, spec) && op !in d.apply && |d.run| == |d.acts| + 1
    ensures ok ==> |old(d.run)| <= at && CompletedAt(d.run, at, op, planId, spec)
    ensures !old(Approves(d, planId, token)) ==> !ok && d.Now() == old(d.Now())
    ensures old(Approves(d, planId, token)) ==>
              && |old(d.acts)| <= asked <= |d.acts| && clock >= old(d.clock)
              && if !refused && clock <= old(d.approvals)[planId].expiresAt && TargetsFree(d.run[asked], spec) then
                   && asked < |d.acts| - 1 && d.acts[asked] == Begin(op, planId)
                   && (forall i :: asked < i < |d.acts| ==> !d.acts[i].Crash? && !(d.acts[i].Begin? && d.acts[i].op == op))
                   && var s, a := d.run[|d.acts| - 1], d.acts[|d.acts| - 1];
                      && op in s.apply && (a.Advance? || a.Throw?) && a.op == op
                      && (ok <==> a.Advance? && s.apply[op].pc == OnApplied)
                 else !ok && asked == |d.acts| && op !in d.w.receipts
  {
    hide IsRun, CompletedAt, Running, TargetsFree, Distinct;
    RunLength(d.run, d.acts);
    at, asked, clock := 0, |d.acts|, d.clock;
    if planId !in d.w.plans || d.w.plans[planId].state != Approved
       || planId !in d.approvals || d.approvals[planId].token != token {
      return false, at, asked, clock;
    }
    var expiresAt := d.approvals[planId].expiresAt;
    d.Elsewhere(Op(op));
    RunLength(d.run, d.acts);
    asked, clock := |d.acts|, d.clock;
    if refused || !TargetsFree(d.Now(), spec) || d.clock > expiresAt {
      return false, at, asked, clock;
    }
    var receipt := Take(d, op, planId, spec);
    ok, at := Carry(d, op, planId, spec, receipt);
    RunLength(d.run, d.acts);
  }

  /** The operation takes its targets; nothing is written yet. */
  method Take(d: Daemon, op: OpId, planId: PlanId, spec: Spec) returns (receipt: Receipt)
    requires Knows(d, planId, spec) && op !in d.w.receipts && op !in d.apply
    requires !PlanIs(d.w, planId, PlanPrepared) && TargetsFree(d.Now(), spec)
    modifies d
    ensures Owns(d, op, planId, spec) && Running(d.apply, op, planId, WritePrepared, receipt, 0, {})
    ensures receipt.state == Prepared && |spec.targets| > 0 && Distinct(spec.targets)
    ensures d.run == old(d.run) + [d.Now()] && d.acts == old(d.acts) + [Begin(op, planId)]
  {
    hide IsRun, Next, WfSpec, TargetsFree;
    receipt := Receipt(planId, Prepared, spec.targets, spec.pre, map[], NoFailure);
    CanBegin(d.run, d.acts, op, planId);
    d.apply := d.apply[op := FirstThread(planId, spec)];
    d.Log(Begin(op, planId));
  }

  /** What `applyPlan` does once it holds its targets. */
  method Carry(d: Daemon, op: OpId, planId: PlanId, spec: Spec, r: Receipt) returns (ok: bool, ghost at: nat)
    requires Owns(d, op, planId, spec) && Running(d.apply, op, planId, WritePrepared, r, 0, {}) && r.state == Prepared
    requires |spec.targets| > 0 && Distinct(spec.targets)
    modifies d
    ensures Knows(d, planId, spec) && Since(old(d.run), old(d.acts), d.run, d.acts, op) && |d.acts| > |old(d.acts)|
    ensures Ended(d, op, ok) && (ok ==> |old(d.run)| <= at && CompletedAt(d.run, at, op, planId, spec))
  {
    hide IsRun, CompletedAt, Raised, Running, Owns, Knows, Ended, Distinct;
    at := 0;
    ok := TakePlan(d, op, planId, spec, r);
    if !ok {
      return;
    }
    var err, receipt := RunEngine(d, op, planId, spec, r);
    if err.None? {
      err, receipt, at := Commit(d, op, planId, spec, receipt);
    }
    if err.Some? {
      Catch(d, op, planId, spec, receipt, err.value);
    }
    ok := err.None?;
  }

  lemma CanBegin(run: seq<State>, acts: seq<Action>, op: OpId, planId: PlanId)
    requires IsRun(run, acts)
    requires var s := run[|acts|];
             && planId in s.specs && op !in s.w.receipts && op !in s.apply
             && !PlanIs(s.w, planId, PlanPrepared) && TargetsFree(s, s.specs[planId])
    ensures var s := run[|acts|];
            && Next(s, Begin(op, planId)) == Some(s.(apply := s.apply[op := FirstThread(planId, s.specs[planId])]))
            && |s.specs[planId].targets| > 0 && Distinct(s.specs[planId].targets)
  {
    hide ThreadsInv, PassesInv, ReceiptsInv, TargetsFree, FirstThread, Distinct;
    LastInv(run, acts);
  }

  /** The step that writes the completed receipt, seen through the theorem about all runs. */
  lemma NowCompleted(run0: seq<State>, acts0: seq<Action>, run: seq<State>, acts: seq<Action>, op: OpId, s: State)
    requires IsRun(run0, acts0) && IsRun(run, acts) && acts == acts0 + [Advance(op, "")] && run == run0 + [s]
    requires var s0 := run0[|acts0|];
             op in s0.apply && s0.apply[op].pc == WriteCompleted && s0.apply[op].planId in s0.specs
    ensures var t := run0[|acts0|].apply[op];
            t.planId in s.specs && CompletedAt(run, |acts0| + 1, op, t.planId, s.specs[t.planId])
  {
    hide Next, Init, TargetsAt, ManagedBy;
    var i := |acts0|;
    StepOf(run, acts, i);
    assert run[i] == run0[i] && run[i + 1] == s;
    CompletionIsTrue(run[i], acts[i], op);
  }

  lemma RunLength(run: seq<State>, acts: seq<Action>)
    requires IsRun(run, acts)
    ensures |run| == |acts| + 1
  {
  }

  lemma CompletedSteps(w: World, spec: Spec, op: OpId, t: Thread)
    requires t.pc == WriteCompleted && t.receipt.state == FilesCommitted
    ensures AdvanceThread(w, spec, op, t, "") == (PutReceipt(t.receipt.(state := Completed)), Some(t.(pc := OnApplied)))
    ensures forall effect :: ThrowThread(spec, t, effect)
              == (If(effect, PutReceipt(t.receipt.(state := Completed))), Some(t.(pc := WriteReconcile(CommitUncertain))))
  {
  }

  /** The engine's receipt writes, as the machine has them. */
  lemma ProgressSteps(w: World, spec: Spec, op: OpId, t: Thread, receipt: Receipt)
    requires t.pc == WriteSnapshotted || t.pc == WriteWriting || t.pc == Progress || t.pc == WriteFilesCommitted
    requires receipt == t.receipt.(state := StateAt(t.pc), committed := spec.intended)
    ensures AdvanceThread(w, spec, op, t, "") == (PutReceipt(receipt), Some(t.(receipt := receipt, pc := PcAfter(spec, t.pc, t.count))))
    ensures forall effect :: ThrowThread(spec, t, effect) == (If(effect, PutReceipt(receipt)), Some(Raise(t.(receipt := receipt), false)))
  {
  }
}
