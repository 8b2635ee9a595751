/**
  What every step of the configuration machine keeps, over every run with crashes, failing
  steps, outside edits, and any number of operations and passes beside each other.
 */
module ConfigSafety {
  import opened Prelude
  import opened ConfigPolicy
  import opened ConfigProtocol

  // ---------------------------------------------------------------- the invariant

  ghost predicate PlansInv(s: State) {
    && (forall pid :: pid in s.specs ==> WfSpec(s.specs[pid]))
    && s.w.plans.Keys <= s.specs.Keys
    && (forall op :: op in s.w.ops ==>
          && op in s.w.receipts && s.w.receipts[op].planId == s.w.ops[op]
          && (s.w.ops[op] in s.w.plans ==> s.w.plans[s.w.ops[op]] == Plan(Applied, Some(op))))
    && (forall pid :: pid in s.w.plans && s.w.plans[pid].state == Applied ==>
          && s.w.plans[pid].operationId.Some?
          && s.w.plans[pid].operationId.value in s.w.ops
          && s.w.ops[s.w.plans[pid].operationId.value] == pid)
    && s.w.owner.Keys <= s.specs.Keys
    && (forall pid :: pid in s.w.owner && pid in s.w.plans ==>
          s.w.plans[pid].state != PlanPrepared && s.w.plans[pid].state != Approved)
  }

  /** A receipt carries its plan's targets and preconditions, and no hashes or the intended ones. */
  ghost predicate GoodReceipt(specs: map<PlanId, Spec>, r: Receipt) {
    && r.planId in specs
    && r.targets == specs[r.planId].targets
    && r.expected == specs[r.planId].pre
    && (r.committed == map[] || r.committed == specs[r.planId].intended)
    && (r.state == Prepared ==> r.committed == map[])
    && (r.state == Snapshotted || r.state == Writing || r.state == FilesCommitted ==>
          r.committed == specs[r.planId].intended)
  }

  ghost predicate ReceiptsInv(s: State) {
    forall op :: op in s.w.receipts ==> GoodReceipt(s.specs, s.w.receipts[op])
  }

  /** The engine has checked the preconditions and has not failed. */
  predicate InEngine(pc: Pc) {
    pc.WriteSnapshotted? || pc.WriteWriting? || pc.Rename? || pc.Progress? || AllRenamed(pc)
  }

  /** Every file has been renamed. */
  predicate AllRenamed(pc: Pc) {
    pc.WriteFilesCommitted? || Committed(pc)
  }

  /** The receipt variable says so too. */
  predicate Committed(pc: Pc) {
    pc.Project? || pc.Recommit? || pc.Manage? || pc.Complete? || Projected(pc)
  }

  /** Redis has completed the plan. */
  predicate Projected(pc: Pc) {
    pc.WriteCompleted? || pc.OnApplied?
  }

  predicate BeforeSnapshot(pc: Pc) {
    pc.WritePrepared? || pc.Cas? || pc.WriteUncertain? || pc.Check? || pc.WriteSnapshotted?
  }

  /** The receipt variable says `reconciliation_required`: all renamed, and a receipt write lost. */
  predicate Misfiled(t: Thread) {
    t.receipt.state == ReconciliationRequired
  }

  predicate NothingRenamed(t: Thread) {
    BeforeSnapshot(t.pc) || t.pc.WriteWriting? || ((t.pc.FailPlan? || t.pc.WriteFailed?) && !Misfiled(t))
  }

  /** Targets before `count` hold the intended hash and the others the precondition, edits aside. */
  ghost predicate FilesAt(files: map<Path, string>, spec: Spec, count: nat, edited: set<Path>) {
    forall i :: 0 <= i < |spec.targets| ==>
      var p := spec.targets[i];
      p in edited || Observed(files, p) == Look(if i < count then spec.intended else spec.pre, p)
  }

  ghost predicate ManagedBy(w: World, ps: set<Path>, op: OpId, committed: HashMap) {
    forall p :: p in ps ==> p in w.managed && w.managed[p] == Managed(op, Look(committed, p))
  }

  /** What a thread knows about itself. */
  ghost predicate ThreadShape(specs: map<PlanId, Spec>, t: Thread) {
    && GoodReceipt(specs, t.receipt) && t.receipt.planId == t.planId
    && (t.receipt.failure == NoFailure || Misfiled(t))
    && var n := |specs[t.planId].targets|;
       && t.count <= n
       && (t.pc.Rename? ==> t.count < n)
       && (t.pc.Progress? ==> t.count > 0)
       && (AllRenamed(t.pc) ==> t.count == n)
       && (NothingRenamed(t) ==> t.count == 0)
       && (t.pc.WriteProjectionFailed? ==> t.receipt.state == FilesCommitted)
       && (t.pc.WriteProjectionFailed? || Misfiled(t) ==> t.count == n)
       && (BeforeSnapshot(t.pc) ==> t.receipt.state == Prepared)
       && (t.pc.Manage? || t.pc.Complete? || Projected(t.pc) || t.pc.WriteReconcile? || t.pc.WriteProjectionFailed?
           || Misfiled(t) || t.done == {})
       && t.done <= Elements(specs[t.planId].targets)
       && match t.receipt.state
          case Prepared => !(t.pc.WriteWriting? || t.pc.Rename? || t.pc.Progress? || AllRenamed(t.pc))
          case Snapshotted => t.pc.WriteWriting? || !InEngine(t.pc)
          case Writing => t.pc.Rename? || t.pc.Progress? || t.pc.WriteFilesCommitted? || !InEngine(t.pc)
          case FilesCommitted => Committed(t.pc) || !InEngine(t.pc)
          case ReconciliationRequired => t.pc.FailPlan? || t.pc.WriteFailed?
          case _ => false
  }

  /**
    What a thread knows about the world. Passes may write its receipt, move its plan and rewrite
    its managed targets at any time; what depends on those holds as long as none has.
   */
  ghost predicate ThreadWorld(w: World, spec: Spec, op: OpId, t: Thread) {
    && (if t.pc.WritePrepared? then op !in w.receipts
        else op in w.receipts && w.receipts[op].planId == t.planId)
    && (op in w.ops ==>
          Projected(t.pc) || t.pc.WriteReconcile? || t.pc.WriteProjectionFailed? || Misfiled(t) || t.meddled)
    && (Projected(t.pc) ==> op in w.ops)
    && (InEngine(t.pc) ==> FilesAt(w.files, spec, t.count, t.edited))
    && (t.pc.Cas? || t.pc.Check? || InEngine(t.pc) ==> t.meddled || StoredReceipt(w.receipts[op], t))
    && (t.pc.Manage? ==> ManagedBy(w, t.done - t.remanaged, op, spec.intended))
    && (t.pc.Complete? || Projected(t.pc) ==> ManagedBy(w, Elements(spec.targets) - t.remanaged, op, spec.intended))
    && (t.pc.Check? || InEngine(t.pc) ==> OwnsPlan(w, op, t))
  }

  ghost predicate OwnsPlan(w: World, op: OpId, t: Thread) {
    && t.planId in w.owner && w.owner[t.planId] == op
    && (!Projected(t.pc) && t.planId in w.plans && !t.meddled ==> w.plans[t.planId].state == Applying)
  }

  ghost predicate ThreadInv(w: World, specs: map<PlanId, Spec>, op: OpId, t: Thread) {
    ThreadShape(specs, t) && ThreadWorld(w, specs[t.planId], op, t)
  }

  /** How the receipt on disk follows the receipt variable. */
  ghost predicate StoredReceipt(r: Receipt, t: Thread) {
    if t.pc.OnApplied? then r == t.receipt.(state := Completed) else r == t.receipt
  }

  ghost predicate ThreadsApart(specs: map<PlanId, Spec>, apply: map<OpId, Thread>) {
    && (forall a :: a in apply ==> apply[a].planId in specs)
    && (forall a, b :: a in apply && b in apply && a != b ==>
          Elements(specs[apply[a].planId].targets) !! Elements(specs[apply[b].planId].targets))
  }

  ghost predicate ThreadsInv(s: State) {
    && (forall op :: op in s.apply ==> ThreadInv(s.w, s.specs, op, s.apply[op]))
    && ThreadsApart(s.specs, s.apply)
  }

  /** What the pass observed still holds, where nobody has changed the file since. */
  ghost predicate SinceObserved(files: map<Path, string>, r: Receipt, m: Rec) {
    && m.obs.Keys <= Elements(r.targets)
    && (!m.pc.Observe? ==> m.obs.Keys == Elements(r.targets))
    && forall p :: p in m.obs && p !in m.edited && p !in m.renamed ==> Observed(files, p) == Look(m.obs, p)
  }

  /** Some plan intends the present content of this path. */
  ghost predicate Intended(specs: map<PlanId, Spec>, files: map<Path, string>, p: Path) {
    exists q :: q in specs && p in specs[q].targets && Observed(files, p) == Look(specs[q].intended, p)
  }

  ghost predicate RenamesKnown(specs: map<PlanId, Spec>, files: map<Path, string>, m: Rec) {
    forall p :: p in m.renamed && p !in m.edited ==> Intended(specs, files, p)
  }

  ghost predicate HeadInv(w: World, m: Rec)
    requires m.todo != [] && m.todo[0] in m.copies
  {
    var op := m.todo[0];
    var r := m.copies[op];
    && SinceObserved(w.files, r, m)
    && (m.pc.FailCas? || m.pc.RecWriteFailed? ==> Unchanged(r, m.obs))
    && (m.pc.CompleteCas? || m.pc.RecManage? || m.pc.RecWriteCompleted? ==> Matches(r.committed, m.obs))
    && (m.pc.RecManage? || m.pc.RecWriteCompleted? ==> op in w.ops)
    && (m.pc.Observe? || m.pc.ReadPlan? || m.pc.CompleteCas? ==> m.done == {})
    && (m.pc.RecManage? ==> ManagedBy(w, m.done - m.remanaged, op, r.committed))
    && (m.pc.RecWriteCompleted? ==> ManagedBy(w, Elements(r.targets) - m.remanaged, op, r.committed))
  }

  /** The receipt that the pass is still to file, as it listed it. */
  ghost predicate Listed(w: World, specs: map<PlanId, Spec>, m: Rec, op: OpId) {
    && op in m.copies && GoodReceipt(specs, m.copies[op])
    && op in w.receipts && w.receipts[op].planId == m.copies[op].planId
    && op !in m.reconciled && op !in m.ambiguous
  }

  ghost predicate Done(w: World, m: Rec, op: OpId) {
    op in w.receipts && (op in m.lost || w.receipts[op].state == Completed || w.receipts[op].state == Failed)
  }

  ghost predicate Flagged(w: World, m: Rec, op: OpId) {
    op in w.receipts && (op in m.lost || w.receipts[op].state == ReconciliationRequired)
  }

  /** What a pass knows. */
  ghost predicate PassInv(w: World, specs: map<PlanId, Spec>, m: Rec) {
    && Distinct(m.todo)
    && (forall op :: op in m.listed <==> op in m.todo || op in m.reconciled || op in m.ambiguous)
    && (forall op :: op in m.todo ==> Listed(w, specs, m, op))
    && (forall op :: op in m.reconciled ==> Done(w, m, op) && op !in m.ambiguous)
    && (forall op :: op in m.ambiguous ==> Flagged(w, m, op))
    && (m.todo != [] ==> m.todo[0] in m.copies && HeadInv(w, m))
    && RenamesKnown(specs, w.files, m)
  }

  ghost predicate PassesInv(s: State) {
    forall k :: k in s.passes ==> PassInv(s.w, s.specs, s.passes[k])
  }

  ghost predicate Inv(s: State) {
    PlansInv(s) && ReceiptsInv(s) && ThreadsInv(s) && PassesInv(s)
  }

  // ---------------------------------------------------------------- effects

  /** `e` touches at most the operation's own receipt and record, its plan and its targets. */
  predicate Within(e: Effect, planId: PlanId, ps: set<Path>) {
    match e
    case Nothing => true
    case PutReceipt(r) => r.planId == planId
    case Transition(q, from, to) => q == planId && to != Approved && to != PlanPrepared && to != Applied
    case TakePlan(q) => q == planId
    case WriteFile(p, _) => p in ps
    case PutManaged(p, _) => p in ps
    case CompletePlan(q) => q == planId
  }

  /** Whatever is written to a file is what the plan intends. */
  predicate WritesIntended(e: Effect, spec: Spec) {
    e.WriteFile? ==> e.hash == Look(spec.intended, e.path)
  }

  ghost predicate Frame(w: World, w': World, op: OpId, planId: PlanId, ps: set<Path>) {
    && (forall o :: o != op ==> (o in w'.receipts <==> o in w.receipts) && (o in w'.ops <==> o in w.ops))
    && (forall o :: o != op && o in w.receipts ==> w'.receipts[o] == w.receipts[o])
    && (forall p :: p !in ps ==> Observed(w'.files, p) == Observed(w.files, p))
    && (forall p :: p !in ps && p in w.managed ==> p in w'.managed && w'.managed[p] == w.managed[p])
    && (forall q :: q != planId ==> (q in w'.owner <==> q in w.owner) && (q in w'.plans <==> q in w.plans))
    && (forall q :: q != planId && q in w.owner ==> w'.owner[q] == w.owner[q])
    && (forall q :: q != planId && q in w.plans ==> w'.plans[q] == w.plans[q])
  }

  lemma EffectFrame(w: World, op: OpId, e: Effect, planId: PlanId, ps: set<Path>)
    requires Within(e, planId, ps)
    ensures Frame(w, Perform(w, op, e), op, planId, ps)
  {
  }

  lemma CompletionKeepsPlans(s: State, op: OpId, planId: PlanId)
    requires PlansInv(s) && op in s.w.receipts && s.w.receipts[op].planId == planId
    ensures PlansInv(s.(w := Perform(s.w, op, CompletePlan(planId))))
  {
    hide WfSpec;
  }

  /** Effects of an operation whose receipt names the plan keep what is known of plans. */
  lemma EffectKeepsPlans(s: State, op: OpId, e: Effect, planId: PlanId, ps: set<Path>)
    requires PlansInv(s) && Within(e, planId, ps) && planId in s.specs
    requires op in s.w.receipts ==> s.w.receipts[op].planId == planId
    requires e.CompletePlan? ==> op in s.w.receipts
    requires e.Transition? ==> e.from == Approved || e.from == Applying
    ensures PlansInv(s.(w := Perform(s.w, op, e)))
  {
    if e.CompletePlan? {
      CompletionKeepsPlans(s, op, planId);
    } else if e.Transition? || e.TakePlan? {
      TransitionKeepsPlans(s, op, e, planId);
    } else {
      hide WfSpec;
    }
  }

  lemma TransitionKeepsPlans(s: State, op: OpId, e: Effect, planId: PlanId)
    requires PlansInv(s) && Within(e, planId, {}) && planId in s.specs && (e.Transition? || e.TakePlan?)
    requires e.Transition? ==> e.from == Approved || e.from == Applying
    ensures PlansInv(s.(w := Perform(s.w, op, e)))
  {
    hide WfSpec;
  }

  lemma EffectKeepsReceipts(s: State, op: OpId, e: Effect)
    requires ReceiptsInv(s) && (e.PutReceipt? ==> GoodReceipt(s.specs, e.receipt))
    ensures ReceiptsInv(s.(w := Perform(s.w, op, e)))
  {
  }

  // ---------------------------------------------------------------- one thread

  lemma FilesAtAfterRename(files: map<Path, string>, spec: Spec, count: nat, edited: set<Path>)
    requires WfSpec(spec) && count < |spec.targets| && FilesAt(files, spec, count, edited)
    ensures FilesAt(SetFile(files, spec.targets[count], Look(spec.intended, spec.targets[count])), spec, count + 1, edited)
  {
    var p := spec.targets[count];
    var files' := SetFile(files, p, Look(spec.intended, p));
    forall i | 0 <= i < |spec.targets|
      ensures spec.targets[i] in edited ||
              Observed(files', spec.targets[i]) == Look(if i < count + 1 then spec.intended else spec.pre, spec.targets[i])
    {
      if i != count {
        assert spec.targets[i] != p;
      }
    }
  }

  /** A step of one thread, seen from that thread alone. */
  ghost predicate StepOk(w: World, specs: map<PlanId, Spec>, op: OpId, t: Thread, r: (Effect, Option<Thread>)) {
    && ShapeOk(specs, t, r)
    && (r.0.CompletePlan? ==> op in w.receipts)
    && (r.1.Some? ==> ThreadWorld(Perform(w, op, r.0), specs[t.planId], op, r.1.value))
  }

  ghost predicate ShapeOk(specs: map<PlanId, Spec>, t: Thread, r: (Effect, Option<Thread>)) {
    && t.planId in specs
    && Within(r.0, t.planId, Elements(specs[t.planId].targets))
    && WritesIntended(r.0, specs[t.planId])
    && (r.0.PutReceipt? ==> GoodReceipt(specs, r.0.receipt))
    && (r.0.Transition? ==> r.0.from == Approved || r.0.from == Applying)
    && (r.1.Some? ==> r.1.value.planId == t.planId && ThreadShape(specs, r.1.value))
  }

  predicate Starting(pc: Pc) {
    pc.WritePrepared? || pc.Cas? || pc.WriteUncertain? || pc.Check?
  }

  predicate Failing(pc: Pc) {
    pc.WriteProjectionFailed? || pc.WriteReconcile? || pc.FailPlan? || pc.WriteFailed?
  }

  lemma AdvanceShapeStart(w: World, specs: map<PlanId, Spec>, op: OpId, t: Thread, pick: Path)
    requires ThreadShape(specs, t) && WfSpec(specs[t.planId]) && Starting(t.pc)
    ensures ShapeOk(specs, t, AdvanceThread(w, specs[t.planId], op, t, pick))
  {
  }

  lemma AdvanceShapeEngine(w: World, specs: map<PlanId, Spec>, op: OpId, t: Thread, pick: Path)
    requires ThreadShape(specs, t) && WfSpec(specs[t.planId]) && InEngine(t.pc) && !AllRenamed(t.pc)
    ensures ShapeOk(specs, t, AdvanceThread(w, specs[t.planId], op, t, pick))
  {
  }

  lemma AdvanceShapeCommit(w: World, specs: map<PlanId, Spec>, op: OpId, t: Thread, pick: Path)
    requires ThreadShape(specs, t) && WfSpec(specs[t.planId]) && (t.pc.WriteFilesCommitted? || t.pc.Project? || t.pc.Recommit?)
    ensures ShapeOk(specs, t, AdvanceThread(w, specs[t.planId], op, t, pick))
  {
  }

  lemma AdvanceShapeLate(w: World, specs: map<PlanId, Spec>, op: OpId, t: Thread, pick: Path)
    requires ThreadShape(specs, t) && WfSpec(specs[t.planId]) && (t.pc.Manage? || t.pc.Complete? || Projected(t.pc))
    ensures ShapeOk(specs, t, AdvanceThread(w, specs[t.planId], op, t, pick))
  {
  }

  lemma AdvanceShapeFailing(w: World, specs: map<PlanId, Spec>, op: OpId, t: Thread, pick: Path)
    requires ThreadShape(specs, t) && WfSpec(specs[t.planId]) && Failing(t.pc)
    ensures ShapeOk(specs, t, AdvanceThread(w, specs[t.planId], op, t, pick))
  {
  }

  lemma ThrowShapeStart(specs: map<PlanId, Spec>, t: Thread, effect: bool)
    requires ThreadShape(specs, t) && WfSpec(specs[t.planId]) && Starting(t.pc)
    ensures ShapeOk(specs, t, ThrowThread(specs[t.planId], t, effect))
  {
  }

  lemma ThrowShapeEngine(specs: map<PlanId, Spec>, t: Thread, effect: bool)
    requires ThreadShape(specs, t) && WfSpec(specs[t.planId]) && InEngine(t.pc) && !AllRenamed(t.pc)
    ensures ShapeOk(specs, t, ThrowThread(specs[t.planId], t, effect))
  {
  }

  lemma ThrowShapeCommit(specs: map<PlanId, Spec>, t: Thread, effect: bool)
    requires ThreadShape(specs, t) && WfSpec(specs[t.planId]) && (t.pc.WriteFilesCommitted? || t.pc.Project? || t.pc.Recommit?)
    ensures ShapeOk(specs, t, ThrowThread(specs[t.planId], t, effect))
  {
  }

  lemma ThrowShapeLate(specs: map<PlanId, Spec>, t: Thread, effect: bool)
    requires ThreadShape(specs, t) && WfSpec(specs[t.planId]) && (t.pc.Manage? || t.pc.Complete? || Projected(t.pc))
    ensures ShapeOk(specs, t, ThrowThread(specs[t.planId], t, effect))
  {
  }

  lemma ThrowShapeFailing(specs: map<PlanId, Spec>, t: Thread, effect: bool)
    requires ThreadShape(specs, t) && WfSpec(specs[t.planId]) && Failing(t.pc)
    ensures ShapeOk(specs, t, ThrowThread(specs[t.planId], t, effect))
  {
  }

  lemma AdvanceOkCheck(w: World, specs: map<PlanId, Spec>, op: OpId, t: Thread, pick: Path)
    requires ThreadInv(w, specs, op, t) && WfSpec(specs[t.planId]) && t.pc.Check?
    ensures StepOk(w, specs, op, t, AdvanceThread(w, specs[t.planId], op, t, pick))
  {
    AdvanceShapeStart(w, specs, op, t, pick);
    hide ShapeOk, GoodReceipt, WfSpec, FilesAt;
  }

  lemma AdvanceOkStart(w: World, specs: map<PlanId, Spec>, op: OpId, t: Thread, pick: Path)
    requires ThreadInv(w, specs, op, t) && WfSpec(specs[t.planId]) && Starting(t.pc) && !t.pc.Check?
    ensures StepOk(w, specs, op, t, AdvanceThread(w, specs[t.planId], op, t, pick))
  {
    AdvanceShapeStart(w, specs, op, t, pick);
    hide ShapeOk, GoodReceipt, WfSpec, FilesAt;
  }

  lemma AdvanceOkRename(w: World, specs: map<PlanId, Spec>, op: OpId, t: Thread, pick: Path)
    requires ThreadInv(w, specs, op, t) && WfSpec(specs[t.planId]) && t.pc.Rename?
    ensures StepOk(w, specs, op, t, AdvanceThread(w, specs[t.planId], op, t, pick))
  {
    AdvanceShapeEngine(w, specs, op, t, pick);
    FilesAtAfterRename(w.files, specs[t.planId], t.count, t.edited);
  }

  lemma AdvanceOkEngine(w: World, specs: map<PlanId, Spec>, op: OpId, t: Thread, pick: Path)
    requires ThreadInv(w, specs, op, t) && WfSpec(specs[t.planId]) && InEngine(t.pc) && !AllRenamed(t.pc) && !t.pc.Rename?
    ensures StepOk(w, specs, op, t, AdvanceThread(w, specs[t.planId], op, t, pick))
  {
    AdvanceShapeEngine(w, specs, op, t, pick);
    hide ShapeOk, GoodReceipt, WfSpec, FilesAt;
  }

  lemma AdvanceOkCommit(w: World, specs: map<PlanId, Spec>, op: OpId, t: Thread, pick: Path)
    requires ThreadInv(w, specs, op, t) && WfSpec(specs[t.planId]) && (t.pc.WriteFilesCommitted? || t.pc.Project? || t.pc.Recommit?)
    ensures StepOk(w, specs, op, t, AdvanceThread(w, specs[t.planId], op, t, pick))
  {
    AdvanceShapeCommit(w, specs, op, t, pick);
    hide ShapeOk, GoodReceipt, WfSpec, FilesAt;
  }

  lemma AdvanceOkManage(w: World, specs: map<PlanId, Spec>, op: OpId, t: Thread, pick: Path)
    requires ThreadInv(w, specs, op, t) && WfSpec(specs[t.planId]) && t.pc.Manage?
    ensures StepOk(w, specs, op, t, AdvanceThread(w, specs[t.planId], op, t, pick))
  {
    AdvanceShapeLate(w, specs, op, t, pick);
    hide ShapeOk, GoodReceipt, WfSpec, FilesAt;
  }

  lemma AdvanceOkLate(w: World, specs: map<PlanId, Spec>, op: OpId, t: Thread, pick: Path)
    requires ThreadInv(w, specs, op, t) && WfSpec(specs[t.planId]) && (t.pc.Complete? || Projected(t.pc))
    ensures StepOk(w, specs, op, t, AdvanceThread(w, specs[t.planId], op, t, pick))
  {
    AdvanceShapeLate(w, specs, op, t, pick);
    hide ShapeOk, GoodReceipt, WfSpec, FilesAt;
  }

  lemma AdvanceOkFailing(w: World, specs: map<PlanId, Spec>, op: OpId, t: Thread, pick: Path)
    requires ThreadInv(w, specs, op, t) && WfSpec(specs[t.planId]) && Failing(t.pc)
    ensures StepOk(w, specs, op, t, AdvanceThread(w, specs[t.planId], op, t, pick))
  {
    AdvanceShapeFailing(w, specs, op, t, pick);
    hide ShapeOk, GoodReceipt, WfSpec, FilesAt;
  }

  lemma AdvanceOk(w: World, specs: map<PlanId, Spec>, op: OpId, t: Thread, pick: Path)
    requires ThreadInv(w, specs, op, t) && WfSpec(specs[t.planId])
    ensures StepOk(w, specs, op, t, AdvanceThread(w, specs[t.planId], op, t, pick))
  {
    hide ThreadInv, StepOk, AdvanceThread, WfSpec;
    if t.pc.Check? {
      AdvanceOkCheck(w, specs, op, t, pick);
    } else if Starting(t.pc) {
      AdvanceOkStart(w, specs, op, t, pick);
    } else if t.pc.Rename? {
      AdvanceOkRename(w, specs, op, t, pick);
    } else if t.pc.WriteFilesCommitted? || t.pc.Project? || t.pc.Recommit? {
      AdvanceOkCommit(w, specs, op, t, pick);
    } else if t.pc.Manage? {
      AdvanceOkManage(w, specs, op, t, pick);
    } else if AllRenamed(t.pc) {
      AdvanceOkLate(w, specs, op, t, pick);
    } else if InEngine(t.pc) {
      AdvanceOkEngine(w, specs, op, t, pick);
    } else {
      AdvanceOkFailing(w, specs, op, t, pick);
    }
  }

  lemma ThrowOkStart(w: World, specs: map<PlanId, Spec>, op: OpId, t: Thread, effect: bool)
    requires ThreadInv(w, specs, op, t) && WfSpec(specs[t.planId]) && Starting(t.pc)
    ensures StepOk(w, specs, op, t, ThrowThread(specs[t.planId], t, effect))
  {
    ThrowShapeStart(specs, t, effect);
    hide ShapeOk, GoodReceipt, WfSpec, FilesAt;
  }

  lemma ThrowOkEngine(w: World, specs: map<PlanId, Spec>, op: OpId, t: Thread, effect: bool)
    requires ThreadInv(w, specs, op, t) && WfSpec(specs[t.planId]) && InEngine(t.pc) && !AllRenamed(t.pc)
    ensures StepOk(w, specs, op, t, ThrowThread(specs[t.planId], t, effect))
  {
    ThrowShapeEngine(specs, t, effect);
    hide ShapeOk, GoodReceipt, WfSpec, FilesAt;
  }

  lemma ThrowOkCommit(w: World, specs: map<PlanId, Spec>, op: OpId, t: Thread, effect: bool)
    requires ThreadInv(w, specs, op, t) && WfSpec(specs[t.planId]) && (t.pc.WriteFilesCommitted? || t.pc.Project? || t.pc.Recommit?)
    ensures StepOk(w, specs, op, t, ThrowThread(specs[t.planId], t, effect))
  {
    ThrowShapeCommit(specs, t, effect);
    hide ShapeOk, GoodReceipt, WfSpec, FilesAt;
  }

  lemma ThrowOkComplete(w: World, specs: map<PlanId, Spec>, op: OpId, t: Thread, effect: bool)
    requires ThreadInv(w, specs, op, t) && WfSpec(specs[t.planId]) && t.pc.Complete?
    ensures StepOk(w, specs, op, t, ThrowThread(specs[t.planId], t, effect))
  {
    ThrowShapeLate(specs, t, effect);
    hide ShapeOk, GoodReceipt, WfSpec, FilesAt;
  }

  lemma ThrowOkLate(w: World, specs: map<PlanId, Spec>, op: OpId, t: Thread, effect: bool)
    requires ThreadInv(w, specs, op, t) && WfSpec(specs[t.planId]) && (t.pc.Manage? || Projected(t.pc))
    ensures StepOk(w, specs, op, t, ThrowThread(specs[t.planId], t, effect))
  {
    ThrowShapeLate(specs, t, effect);
    hide ShapeOk, GoodReceipt, WfSpec, FilesAt;
  }

  lemma ThrowOkLost(w: World, specs: map<PlanId, Spec>, op: OpId, t: Thread, effect: bool)
    requires ThreadInv(w, specs, op, t) && WfSpec(specs[t.planId]) && t.pc.WriteProjectionFailed?
    ensures StepOk(w, specs, op, t, ThrowThread(specs[t.planId], t, effect))
  {
    ThrowShapeFailing(specs, t, effect);
    hide ShapeOk, GoodReceipt, WfSpec, FilesAt;
  }

  lemma ThrowOkFailing(w: World, specs: map<PlanId, Spec>, op: OpId, t: Thread, effect: bool)
    requires ThreadInv(w, specs, op, t) && WfSpec(specs[t.planId]) && Failing(t.pc) && !t.pc.WriteProjectionFailed?
    ensures StepOk(w, specs, op, t, ThrowThread(specs[t.planId], t, effect))
  {
    ThrowShapeFailing(specs, t, effect);
    hide ShapeOk, GoodReceipt, WfSpec, FilesAt;
  }

  lemma ThrowOk(w: World, specs: map<PlanId, Spec>, op: OpId, t: Thread, effect: bool)
    requires ThreadInv(w, specs, op, t) && WfSpec(specs[t.planId])
    ensures StepOk(w, specs, op, t, ThrowThread(specs[t.planId], t, effect))
  {
    hide ThreadInv, StepOk, ThrowThread, WfSpec;
    if Starting(t.pc) {
      ThrowOkStart(w, specs, op, t, effect);
    } else if t.pc.WriteFilesCommitted? || t.pc.Project? || t.pc.Recommit? {
      ThrowOkCommit(w, specs, op, t, effect);
    } else if t.pc.Complete? {
      ThrowOkComplete(w, specs, op, t, effect);
    } else if AllRenamed(t.pc) {
      ThrowOkLate(w, specs, op, t, effect);
    } else if InEngine(t.pc) {
      ThrowOkEngine(w, specs, op, t, effect);
    } else if t.pc.WriteProjectionFailed? {
      ThrowOkLost(w, specs, op, t, effect);
    } else {
      ThrowOkFailing(w, specs, op, t, effect);
    }
  }

  // ---------------------------------------------------------------- what others see of an effect

  /** A note leaves everything but the history of a thread alone, and the history only grows. */
  lemma NotedThread(x: OpId, t: Thread, op: OpId, e: Effect)
    ensures var t' := ThreadNotes(x, t, op, e);
            && t' == t.(meddled := t'.meddled, remanaged := t'.remanaged)
            && (t.meddled ==> t'.meddled) && t.remanaged <= t'.remanaged
  {
  }

  lemma ThreadSeesThread(w: World, w': World, specs: map<PlanId, Spec>, op: OpId, planId: PlanId, x: OpId, t: Thread, t': Thread)
    requires ThreadInv(w, specs, x, t) && x != op && t.planId != planId && planId in specs
    requires Elements(specs[t.planId].targets) !! Elements(specs[planId].targets)
    requires Frame(w, w', op, planId, Elements(specs[planId].targets))
    requires t' == t.(meddled := t'.meddled, remanaged := t'.remanaged) && (t.meddled ==> t'.meddled) && t.remanaged <= t'.remanaged
    ensures ThreadInv(w', specs, x, t')
  {
    var spec := specs[t.planId];
    assert forall i :: 0 <= i < |spec.targets| ==>
      spec.targets[i] in Elements(spec.targets) && spec.targets[i] !in Elements(specs[planId].targets);
  }

  /** The effects a pass can have, for an operation `op` of plan `planId`. */
  predicate PassEffect(e: Effect, planId: PlanId) {
    match e
    case Nothing => true
    case PutReceipt(r) => r.planId == planId
    case Transition(q, from, to) => q == planId && from == Applying && to == PlanFailed
    case PutManaged(_, _) => true
    case CompletePlan(q) => q == planId
    case _ => false
  }

  lemma ThreadSeesPass(w: World, specs: map<PlanId, Spec>, op: OpId, planId: PlanId, e: Effect, x: OpId, t: Thread)
    requires ThreadInv(w, specs, x, t) && PassEffect(e, planId)
    requires op in w.receipts && w.receipts[op].planId == planId
    ensures ThreadInv(Perform(w, op, e), specs, x, ThreadNotes(x, t, op, e))
  {
    hide ThreadShape, FilesAt, Perform, ThreadNotes, ManagedBy, PassEffect;
    NotedThread(x, t, op, e);
    ShapeKept(specs, t, ThreadNotes(x, t, op, e));
    if t.pc.Check? || InEngine(t.pc) {
      PlansSeen(w, op, planId, e, x, t);
    }
    hide OwnsPlan, InEngine;
    ReceiptsSeen(w, op, planId, e, x, t);
    ManagedSeen(w, specs[t.planId], op, planId, e, x, t);
  }

  lemma ReceiptsSeen(w: World, op: OpId, planId: PlanId, e: Effect, x: OpId, t: Thread)
    requires PassEffect(e, planId) && op in w.receipts && w.receipts[op].planId == planId
    requires x in w.receipts ==> w.receipts[x].planId == t.planId
    ensures var w', t' := Perform(w, op, e), ThreadNotes(x, t, op, e);
            && (x in w'.receipts <==> x in w.receipts)
            && (x in w.receipts ==> w'.receipts[x].planId == t.planId && (t'.meddled || w'.receipts[x] == w.receipts[x]))
            && (x in w.ops ==> x in w'.ops) && (x in w'.ops ==> x in w.ops || t'.meddled)
  {
  }

  lemma ManagedSeen(w: World, spec: Spec, op: OpId, planId: PlanId, e: Effect, x: OpId, t: Thread)
    requires PassEffect(e, planId)
    ensures var w', t' := Perform(w, op, e), ThreadNotes(x, t, op, e);
            && w'.files == w.files
            && (ManagedBy(w, t.done - t.remanaged, x, spec.intended) ==> ManagedBy(w', t.done - t'.remanaged, x, spec.intended))
            && (ManagedBy(w, Elements(spec.targets) - t.remanaged, x, spec.intended)
                ==> ManagedBy(w', Elements(spec.targets) - t'.remanaged, x, spec.intended))
  {
  }

  lemma ShapeKept(specs: map<PlanId, Spec>, t: Thread, t': Thread)
    requires ThreadShape(specs, t) && t' == t.(meddled := t'.meddled, remanaged := t'.remanaged)
    ensures ThreadShape(specs, t') && t.planId in specs
  {
  }

  lemma PlansSeen(w: World, op: OpId, planId: PlanId, e: Effect, x: OpId, t: Thread)
    requires OwnsPlan(w, x, t) && PassEffect(e, planId)
    ensures OwnsPlan(Perform(w, op, e), x, ThreadNotes(x, t, op, e))
  {
  }

  // ---------------------------------------------------------------- what a pass sees of an effect

  /** The operation's receipt, if there is one, names the plan, and the effect keeps it so. */
  ghost predicate Names(w: World, op: OpId, planId: PlanId, e: Effect) {
    && (op in w.receipts ==> w.receipts[op].planId == planId)
    && (e.PutReceipt? ==> e.receipt.planId == planId)
  }

  lemma HeadSeesEffect(w: World, m: Rec, op: OpId, e: Effect)
    requires m.todo != [] && m.todo[0] in m.copies && HeadInv(w, m)
    ensures HeadInv(Perform(w, op, e), PassNotes(m, op, e))
  {
  }

  lemma RenamesSeen(w: World, specs: map<PlanId, Spec>, m: Rec, op: OpId, planId: PlanId, e: Effect)
    requires RenamesKnown(specs, w.files, m) && planId in specs
    requires Within(e, planId, Elements(specs[planId].targets)) && WritesIntended(e, specs[planId])
    ensures RenamesKnown(specs, Perform(w, op, e).files, PassNotes(m, op, e))
  {
    var m', files' := PassNotes(m, op, e), Perform(w, op, e).files;
    forall p | p in m'.renamed && p !in m'.edited ensures Intended(specs, files', p) {
      if e.WriteFile? && p == e.path {
        assert p in specs[planId].targets && Observed(files', p) == Look(specs[planId].intended, p);
      } else {
        assert Intended(specs, w.files, p);
        var q :| q in specs && p in specs[q].targets && Observed(w.files, p) == Look(specs[q].intended, p);
        assert Observed(files', p) == Look(specs[q].intended, p);
      }
    }
  }

  lemma PassSeesEffect(w: World, specs: map<PlanId, Spec>, m: Rec, op: OpId, planId: PlanId, e: Effect)
    requires PassInv(w, specs, m) && planId in specs && Names(w, op, planId, e)
    requires Within(e, planId, Elements(specs[planId].targets)) && WritesIntended(e, specs[planId])
    ensures PassInv(Perform(w, op, e), specs, PassNotes(m, op, e))
  {
    RenamesSeen(w, specs, m, op, planId, e);
    if m.todo != [] {
      HeadSeesEffect(w, m, op, e);
    }
    var w', m' := Perform(w, op, e), PassNotes(m, op, e);
    hide HeadInv, RenamesKnown, GoodReceipt, Intended;
    forall o | o in m'.todo ensures Listed(w', specs, m', o) {
      assert Listed(w, specs, m, o);
    }
    forall o | o in m'.reconciled ensures Done(w', m', o) && o !in m'.ambiguous {
      assert Done(w, m, o);
    }
    forall o | o in m'.ambiguous ensures Flagged(w', m', o) {
      assert Flagged(w, m, o);
    }
  }

  lemma PassesSee(s: State, passes: map<PassId, Rec>, op: OpId, planId: PlanId, e: Effect)
    requires PassesInv(s) && planId in s.specs && Names(s.w, op, planId, e)
    requires Within(e, planId, Elements(s.specs[planId].targets)) && WritesIntended(e, s.specs[planId])
    requires forall k :: k in passes ==> k in s.passes && passes[k] == s.passes[k]
    ensures forall k :: k in passes ==> PassInv(Perform(s.w, op, e), s.specs, PassesNote(passes, op, e)[k])
  {
    hide PassInv, Perform, PassNotes, Within, Names;
    forall k | k in passes ensures PassInv(Perform(s.w, op, e), s.specs, PassesNote(passes, op, e)[k]) {
      assert PassInv(s.w, s.specs, s.passes[k]);
      PassSeesEffect(s.w, s.specs, passes[k], op, planId, e);
    }
  }

  // ---------------------------------------------------------------- a step of an operation

  lemma OtherThreadsKept(s: State, op: OpId, r: (Effect, Option<Thread>))
    requires Inv(s) && op in s.apply && StepOk(s.w, s.specs, op, s.apply[op], r)
    ensures forall x :: x in s.apply && x != op ==>
              ThreadInv(Perform(s.w, op, r.0), s.specs, x, ThreadNotes(x, s.apply[x], op, r.0))
  {
    var t := s.apply[op];
    var ps := Elements(s.specs[t.planId].targets);
    EffectFrame(s.w, op, r.0, t.planId, ps);
    SomeTarget(s, op);
    hide Frame, Perform, ThreadNotes, ThreadInv, StepOk, PlansInv, ReceiptsInv, PassesInv, WfSpec;
    forall x | x in s.apply && x != op
      ensures ThreadInv(Perform(s.w, op, r.0), s.specs, x, ThreadNotes(x, s.apply[x], op, r.0))
    {
      NotedThread(x, s.apply[x], op, r.0);
      PlansApart(s.specs, s.apply, op, x);
      ThreadSeesThread(s.w, Perform(s.w, op, r.0), s.specs, op, t.planId, x, s.apply[x], ThreadNotes(x, s.apply[x], op, r.0));
    }
  }

  lemma SomeTarget(s: State, op: OpId)
    requires Inv(s) && op in s.apply
    ensures s.apply[op].planId in s.specs && Elements(s.specs[s.apply[op].planId].targets) != {}
  {
    assert ThreadInv(s.w, s.specs, op, s.apply[op]);
    var spec := s.specs[s.apply[op].planId];
    assert spec.targets[0] in Elements(spec.targets);
  }

  lemma PlansApart(specs: map<PlanId, Spec>, apply: map<OpId, Thread>, a: OpId, b: OpId)
    requires ThreadsApart(specs, apply) && a in apply && b in apply && a != b
    requires Elements(specs[apply[a].planId].targets) != {}
    ensures apply[a].planId != apply[b].planId
    ensures Elements(specs[apply[b].planId].targets) !! Elements(specs[apply[a].planId].targets)
  {
  }

  lemma ApartAfter(specs: map<PlanId, Spec>, apply: map<OpId, Thread>, apply': map<OpId, Thread>)
    requires ThreadsApart(specs, apply)
    requires forall x :: x in apply' ==> x in apply && apply'[x].planId == apply[x].planId
    ensures ThreadsApart(specs, apply')
  {
  }

  lemma ThreadsAfter(s: State, op: OpId, r: (Effect, Option<Thread>))
    requires Inv(s) && op in s.apply && StepOk(s.w, s.specs, op, s.apply[op], r)
    ensures ThreadsInv(WithThread(s, op, r))
  {
    var s' := WithThread(s, op, r);
    OtherThreadsKept(s, op, r);
    if r.1.Some? {
      OwnThreadKept(s.w, s.specs, op, s.apply[op], r);
    }
    hide Perform, ThreadNotes, ThreadInv, StepOk, PlansInv, ReceiptsInv, PassesInv, ThreadsApart, PassesNote;
    forall x | x in s'.apply
      ensures ThreadInv(s'.w, s'.specs, x, s'.apply[x]) && x in s.apply && s'.apply[x].planId == s.apply[x].planId
    {
      if x != op {
        NotedThread(x, s.apply[x], op, r.0);
      }
    }
    ApartAfter(s.specs, s.apply, s'.apply);
  }

  lemma OwnThreadKept(w: World, specs: map<PlanId, Spec>, op: OpId, t: Thread, r: (Effect, Option<Thread>))
    requires StepOk(w, specs, op, t, r) && r.1.Some?
    ensures ThreadInv(Perform(w, op, r.0), specs, op, r.1.value) && r.1.value.planId == t.planId
  {
  }

  /** The thread's own effect, seen by whoever needs to know which plan it is for. */
  lemma ThreadNames(s: State, op: OpId, r: (Effect, Option<Thread>))
    requires Inv(s) && op in s.apply && StepOk(s.w, s.specs, op, s.apply[op], r)
    ensures s.apply[op].planId in s.specs && Names(s.w, op, s.apply[op].planId, r.0)
  {
    assert ThreadInv(s.w, s.specs, op, s.apply[op]);
  }

  lemma ThreadStepKeeps(s: State, op: OpId, r: (Effect, Option<Thread>))
    requires Inv(s) && op in s.apply && StepOk(s.w, s.specs, op, s.apply[op], r)
    ensures Inv(WithThread(s, op, r))
  {
    var t := s.apply[op];
    var s' := WithThread(s, op, r);
    ThreadNames(s, op, r);
    ThreadsAfter(s, op, r);
    EffectKeepsPlans(s, op, r.0, t.planId, Elements(s.specs[t.planId].targets));
    EffectKeepsReceipts(s, op, r.0);
    PassesSee(s, s.passes, op, t.planId, r.0);
    hide Perform, PassInv, ThreadsInv, ThreadInv, StepOk, GoodReceipt, Names;
    SamePlans(s.(w := s'.w), s');
  }

  /** Plans and receipts are facts about the world and the plans' contents. */
  lemma SamePlans(a: State, b: State)
    requires PlansInv(a) && ReceiptsInv(a) && a.w == b.w && a.specs == b.specs
    ensures PlansInv(b) && ReceiptsInv(b)
  {
    hide GoodReceipt, WfSpec;
  }

  lemma AdvanceKeeps(s: State, op: OpId, pick: Path)
    requires Inv(s) && op in s.apply
    ensures Next(s, Advance(op, pick)).Some? && Inv(Next(s, Advance(op, pick)).value)
  {
    hide AdvanceThread, StepOk, WithThread, PlansInv, ReceiptsInv, PassesInv;
    var t := s.apply[op];
    assert ThreadInv(s.w, s.specs, op, t);
    KnownSpec(s, op);
    AdvanceOk(s.w, s.specs, op, t, pick);
    ThreadStepKeeps(s, op, AdvanceThread(s.w, s.specs[t.planId], op, t, pick));
  }

  lemma KnownSpec(s: State, op: OpId)
    requires Inv(s) && op in s.apply
    ensures s.apply[op].planId in s.specs && WfSpec(s.specs[s.apply[op].planId])
  {
    assert ThreadInv(s.w, s.specs, op, s.apply[op]);
  }

  lemma ThrowKeeps(s: State, op: OpId, effect: bool)
    requires Inv(s) && op in s.apply
    ensures Next(s, Throw(op, effect)).Some? && Inv(Next(s, Throw(op, effect)).value)
  {
    hide ThrowThread, StepOk, WithThread, PlansInv, ReceiptsInv, PassesInv;
    var t := s.apply[op];
    assert ThreadInv(s.w, s.specs, op, t);
    KnownSpec(s, op);
    ThrowOk(s.w, s.specs, op, t, effect);
    ThreadStepKeeps(s, op, ThrowThread(s.specs[t.planId], t, effect));
  }

  // ---------------------------------------------------------------- a step of a pass

  ghost predicate HeadOk(specs: map<PlanId, Spec>, m: Rec) {
    m.todo != [] && m.todo[0] in m.copies && GoodReceipt(specs, m.copies[m.todo[0]])
  }

  /** A step of a pass, seen from its head receipt alone. */
  ghost predicate RecStepOk(w: World, specs: map<PlanId, Spec>, m: Rec, r: (Effect, Option<Rec>))
    requires HeadOk(specs, m)
  {
    var c := m.copies[m.todo[0]];
    && Within(r.0, c.planId, Elements(c.targets)) && PassEffect(r.0, c.planId)
    && (r.0.PutReceipt? ==> GoodReceipt(specs, r.0.receipt))
    && (r.1.Some? ==> RecKept(Perform(w, m.todo[0], r.0), m, r.1.value))
  }

  /** The pass stays at its head receipt, or files it and moves to the next one. */
  ghost predicate RecKept(w': World, m: Rec, m': Rec)
    requires m.todo != [] && m.todo[0] in m.copies
  {
    && m'.listed == m.listed && m'.copies == m.copies
    && if m'.todo == m.todo then
         && m'.reconciled == m.reconciled && m'.ambiguous == m.ambiguous && m'.lost == m.lost
         && (forall p :: p in m'.renamed && p !in m'.edited ==> p in m.renamed && p !in m.edited)
         && HeadInv(w', m')
       else RecFiles(w', m, m')
  }

  /** The head receipt has been filed. */
  ghost predicate RecFiles(w': World, m: Rec, m': Rec)
    requires m.todo != []
  {
    var op := m.todo[0];
    && m'.todo == m.todo[1..] && m'.pc.Observe? && m'.obs == map[] && m'.done == {}
    && m'.renamed == {} && m'.lost == m.lost - {op}
    && op in w'.receipts
    && var st := w'.receipts[op].state;
       || (st == ReconciliationRequired && m'.reconciled == m.reconciled && m'.ambiguous == m.ambiguous + [op])
       || ((st == Completed || st == Failed) && m'.reconciled == m.reconciled + [op] && m'.ambiguous == m.ambiguous)
  }

  lemma ObserveOk(w: World, specs: map<PlanId, Spec>, m: Rec, pick: Path)
    requires HeadOk(specs, m) && HeadInv(w, m) && (m.pc.Observe? || m.pc.ReadPlan?)
    ensures RecStepOk(w, specs, m, AdvanceRec(w, m, pick))
  {
  }

  lemma FailingOk(w: World, specs: map<PlanId, Spec>, m: Rec, pick: Path)
    requires HeadOk(specs, m) && HeadInv(w, m)
    requires m.pc.WriteAmbiguous? || m.pc.FailCas? || m.pc.RecWriteFailed?
    ensures RecStepOk(w, specs, m, AdvanceRec(w, m, pick))
  {
  }

  lemma CompletingOk(w: World, specs: map<PlanId, Spec>, m: Rec, pick: Path)
    requires HeadOk(specs, m) && HeadInv(w, m)
    requires m.pc.CompleteCas? || m.pc.RecWriteCompleted?
    ensures RecStepOk(w, specs, m, AdvanceRec(w, m, pick))
  {
  }

  lemma ManagingOk(w: World, specs: map<PlanId, Spec>, m: Rec, pick: Path)
    requires HeadOk(specs, m) && HeadInv(w, m) && m.pc.RecManage?
    ensures RecStepOk(w, specs, m, AdvanceRec(w, m, pick))
  {
  }

  lemma RecThrowOk(w: World, specs: map<PlanId, Spec>, m: Rec, effect: bool)
    requires HeadOk(specs, m) && HeadInv(w, m)
    ensures RecStepOk(w, specs, m, ThrowRec(m, effect))
  {
  }

  lemma TailOf(todo: seq<OpId>)
    requires todo != [] && Distinct(todo)
    ensures Distinct(todo[1..])
    ensures forall o :: o in todo <==> o == todo[0] || o in todo[1..]
    ensures todo[0] !in todo[1..]
  {
    assert todo == [todo[0]] + todo[1..];
  }

  /** The world moves on under a pass: receipts stay, keep their plan, and only the head's is written. */
  ghost predicate ReceiptsMove(w: World, w': World, head: OpId, planId: PlanId) {
    && (forall o :: o in w.receipts && o != head ==> o in w'.receipts && w'.receipts[o] == w.receipts[o])
    && (head in w.receipts ==> head in w'.receipts && w'.receipts[head].planId == planId)
  }

  lemma HeadReceiptMoves(w: World, op: OpId, e: Effect, planId: PlanId)
    requires PassEffect(e, planId) && op in w.receipts && w.receipts[op].planId == planId
    ensures ReceiptsMove(w, Perform(w, op, e), op, planId)
    ensures Perform(w, op, e).files == w.files
  {
  }

  lemma PassStays(w: World, w': World, specs: map<PlanId, Spec>, m: Rec, m': Rec)
    requires PassInv(w, specs, m) && HeadOk(specs, m) && RecKept(w', m, m') && m'.todo == m.todo
    requires w'.files == w.files && ReceiptsMove(w, w', m.todo[0], m.copies[m.todo[0]].planId)
    ensures PassInv(w', specs, m')
  {
    hide HeadInv, GoodReceipt, Intended, Distinct;
    assert m.todo[0] in m.todo;
    forall o | o in m'.todo ensures Listed(w', specs, m', o) {
      assert Listed(w, specs, m, o);
    }
    forall o | o in m'.reconciled ensures Done(w', m', o) && o !in m'.ambiguous {
      assert Done(w, m, o);
    }
    forall o | o in m'.ambiguous ensures Flagged(w', m', o) {
      assert Flagged(w, m, o);
    }
  }

  lemma PassMovesOn(w: World, w': World, specs: map<PlanId, Spec>, m: Rec, m': Rec)
    requires PassInv(w, specs, m) && HeadOk(specs, m) && RecKept(w', m, m') && m'.todo != m.todo
    requires w'.files == w.files && ReceiptsMove(w, w', m.todo[0], m.copies[m.todo[0]].planId)
    ensures PassInv(w', specs, m')
  {
    TailOf(m.todo);
    assert m'.todo != [] ==> m'.todo[0] == m.todo[1] && m.todo[1] in m.todo;
    hide Distinct, GoodReceipt, Intended;
    forall o | o in m'.todo ensures Listed(w', specs, m', o) {
      assert Listed(w, specs, m, o);
    }
    Filed(w, w', specs, m, m');
    if m'.todo != [] {
      FreshHead(w', m', m'.todo[0]);
    }
  }

  lemma FreshHead(w: World, m: Rec, op: OpId)
    requires m.todo != [] && m.todo[0] == op && op in m.copies && m.pc.Observe? && m.obs == map[] && m.done == {}
    ensures HeadInv(w, m)
  {
  }

  lemma Filed(w: World, w': World, specs: map<PlanId, Spec>, m: Rec, m': Rec)
    requires PassInv(w, specs, m) && m.todo != [] && RecFiles(w', m, m')
    requires forall o :: o in w.receipts && o != m.todo[0] ==> o in w'.receipts && w'.receipts[o] == w.receipts[o]
    ensures forall o :: o in m'.reconciled ==> Done(w', m', o) && o !in m'.ambiguous
    ensures forall o :: o in m'.ambiguous ==> Flagged(w', m', o)
  {
    hide HeadInv, GoodReceipt, Intended, Distinct;
    assert m.todo[0] in m.todo && Listed(w, specs, m, m.todo[0]);
    forall o | o in m'.reconciled ensures Done(w', m', o) && o !in m'.ambiguous {
      if o in m.reconciled {
        assert Done(w, m, o);
      }
    }
    forall o | o in m'.ambiguous ensures Flagged(w', m', o) {
      if o in m.ambiguous {
        assert Flagged(w, m, o);
      }
    }
  }

  lemma ThreadsSeePass(s: State, op: OpId, planId: PlanId, e: Effect)
    requires ThreadsInv(s) && PassEffect(e, planId) && op in s.w.receipts && s.w.receipts[op].planId == planId
    ensures forall x :: x in s.apply ==> ThreadInv(Perform(s.w, op, e), s.specs, x, ThreadNotes(x, s.apply[x], op, e))
    ensures ThreadsApart(s.specs, ThreadsNote(s.apply, op, e))
  {
    ApartAfter(s.specs, s.apply, ThreadsNote(s.apply, op, e));
    hide ThreadInv, Perform, PassEffect, ThreadsApart, ThreadNotes;
    forall x | x in s.apply
      ensures ThreadInv(Perform(s.w, op, e), s.specs, x, ThreadNotes(x, s.apply[x], op, e))
    {
      ThreadSeesPass(s.w, s.specs, op, planId, e, x, s.apply[x]);
    }
  }

  lemma HeadKnown(s: State, k: PassId)
    requires Inv(s) && RecRunning(s, k)
    ensures HeadOk(s.specs, s.passes[k]) && HeadInv(s.w, s.passes[k])
    ensures Listed(s.w, s.specs, s.passes[k], s.passes[k].todo[0]) && PassInv(s.w, s.specs, s.passes[k])
    ensures var c := s.passes[k].copies[s.passes[k].todo[0]];
            c.planId in s.specs && c.targets == s.specs[c.planId].targets
  {
    var m := s.passes[k];
    assert PassInv(s.w, s.specs, m) && m.todo[0] in m.todo;
  }

  lemma PassAfter(s: State, k: PassId, r: (Effect, Option<Rec>))
    requires Inv(s) && RecRunning(s, k) && HeadOk(s.specs, s.passes[k]) && RecStepOk(s.w, s.specs, s.passes[k], r)
    ensures r.1.Some? ==> PassInv(Perform(s.w, s.passes[k].todo[0], r.0), s.specs, r.1.value)
  {
    hide Perform, HeadInv, GoodReceipt, PlansInv, ReceiptsInv, ThreadsInv, PassEffect, Within;
    HeadKnown(s, k);
    var m := s.passes[k];
    HeadReceiptMoves(s.w, m.todo[0], r.0, m.copies[m.todo[0]].planId);
    hide PassInv;
    if r.1.Some? {
      if r.1.value.todo == m.todo {
        PassStays(s.w, Perform(s.w, m.todo[0], r.0), s.specs, m, r.1.value);
      } else {
        PassMovesOn(s.w, Perform(s.w, m.todo[0], r.0), s.specs, m, r.1.value);
      }
    }
  }

  lemma PassesAfter(s: State, k: PassId, r: (Effect, Option<Rec>))
    requires Inv(s) && RecRunning(s, k) && HeadOk(s.specs, s.passes[k]) && RecStepOk(s.w, s.specs, s.passes[k], r)
    ensures PassesInv(WithRec(s, k, s.passes[k].todo[0], r))
  {
    PassAfter(s, k, r);
    HeadKnown(s, k);
    var m := s.passes[k];
    var c := m.copies[m.todo[0]];
    EffectNames(s.w, s.specs, m, r);
    PassesSee(s, s.passes - {k}, m.todo[0], c.planId, r.0);
    hide PassInv, Perform, PassNotes, ThreadsNote, PlansInv, ReceiptsInv, ThreadsInv, RecStepOk, HeadOk, HeadInv;
  }

  lemma EffectNames(w: World, specs: map<PlanId, Spec>, m: Rec, r: (Effect, Option<Rec>))
    requires HeadOk(specs, m) && RecStepOk(w, specs, m, r) && Listed(w, specs, m, m.todo[0])
    ensures var c := m.copies[m.todo[0]];
            && Names(w, m.todo[0], c.planId, r.0) && c.planId in specs
            && Within(r.0, c.planId, Elements(specs[c.planId].targets)) && WritesIntended(r.0, specs[c.planId])
            && PassEffect(r.0, c.planId) && m.todo[0] in w.receipts && w.receipts[m.todo[0]].planId == c.planId
            && (r.0.PutReceipt? ==> GoodReceipt(specs, r.0.receipt))
            && (r.0.Transition? ==> r.0.from == Applying)
  {
  }

  lemma RecStepKeeps(s: State, k: PassId, r: (Effect, Option<Rec>))
    requires Inv(s) && RecRunning(s, k) && HeadOk(s.specs, s.passes[k]) && RecStepOk(s.w, s.specs, s.passes[k], r)
    ensures Inv(WithRec(s, k, s.passes[k].todo[0], r))
  {
    var m := s.passes[k];
    var op, c := m.todo[0], m.copies[m.todo[0]];
    var s' := WithRec(s, k, op, r);
    PassesAfter(s, k, r);
    HeadKnown(s, k);
    EffectNames(s.w, s.specs, m, r);
    ThreadsSeePass(s, op, c.planId, r.0);
    EffectKeepsPlans(s, op, r.0, c.planId, Elements(s.specs[c.planId].targets));
    EffectKeepsReceipts(s, op, r.0);
    hide Perform, PassInv, ThreadInv, RecStepOk, GoodReceipt, Names, HeadOk, HeadInv, Listed, PassesInv, ThreadsApart;
    SamePlans(s.(w := s'.w), s');
  }

  lemma RecAdvanceKeeps(s: State, k: PassId, pick: Path)
    requires Inv(s) && Next(s, RecAdvance(k, pick)).Some?
    ensures Inv(Next(s, RecAdvance(k, pick)).value)
  {
    hide AdvanceRec, GoodReceipt, RecStepOk, WithRec, HeadInv, PassInv, ThreadsInv, PlansInv, ReceiptsInv;
    HeadKnown(s, k);
    var m := s.passes[k];
    if m.pc.Observe? || m.pc.ReadPlan? {
      ObserveOk(s.w, s.specs, m, pick);
    } else if m.pc.WriteAmbiguous? || m.pc.FailCas? || m.pc.RecWriteFailed? {
      FailingOk(s.w, s.specs, m, pick);
    } else if m.pc.RecManage? {
      ManagingOk(s.w, s.specs, m, pick);
    } else {
      CompletingOk(s.w, s.specs, m, pick);
    }
    RecStepKeeps(s, k, AdvanceRec(s.w, m, pick));
  }

  lemma RecThrowKeeps(s: State, k: PassId, effect: bool)
    requires Inv(s) && Next(s, RecThrow(k, effect)).Some?
    ensures Inv(Next(s, RecThrow(k, effect)).value)
  {
    hide ThrowRec, GoodReceipt, RecStepOk, WithRec, HeadInv, PassInv, ThreadsInv, PlansInv, ReceiptsInv;
    HeadKnown(s, k);
    RecThrowOk(s.w, s.specs, s.passes[k], effect);
    RecStepKeeps(s, k, ThrowRec(s.passes[k], effect));
  }

  // ---------------------------------------------------------------- the other actions

  /** An operation looks at plans only through its own. */
  lemma ThreadSeesPlans(w: World, specs: map<PlanId, Spec>, plans': map<PlanId, Plan>, specs': map<PlanId, Spec>, op: OpId, t: Thread)
    requires ThreadInv(w, specs, op, t) && t.planId in specs'
    requires t.planId in specs ==> specs'[t.planId] == specs[t.planId]
    requires t.planId in plans' && plans'[t.planId].state != Applying ==> t.planId in w.plans && w.plans[t.planId].state != Applying
    ensures ThreadInv(w.(plans := plans'), specs', op, t)
  {
    ShapeGrows(specs, specs', t);
    hide ThreadShape, FilesAt, ManagedBy;
  }

  lemma ShapeGrows(specs: map<PlanId, Spec>, specs': map<PlanId, Spec>, t: Thread)
    requires ThreadShape(specs, t) && t.planId in specs'
    requires t.planId in specs ==> specs'[t.planId] == specs[t.planId]
    ensures ThreadShape(specs', t) && t.planId in specs && t.receipt.planId == t.planId
  {
  }

  /** A pass looks at plans only through receipts, operation records and contents. */
  lemma PassSeesPlans(w: World, specs: map<PlanId, Spec>, m: Rec, plans': map<PlanId, Plan>, specs': map<PlanId, Spec>)
    requires PassInv(w, specs, m) && (forall pid :: pid in specs ==> pid in specs' && specs'[pid] == specs[pid])
    ensures PassInv(w.(plans := plans'), specs', m)
  {
    var w' := w.(plans := plans');
    if m.todo != [] {
      SameHead(w, w', m);
    }
    hide HeadInv, Distinct;
    forall o | o in m.todo ensures Listed(w', specs', m, o) {
      assert Listed(w, specs, m, o);
    }
    forall p | p in m.renamed && p !in m.edited ensures Intended(specs', w'.files, p) {
      assert Intended(specs, w.files, p);
    }
    assert forall o :: Done(w, m, o) ==> Done(w', m, o);
    assert forall o :: Flagged(w, m, o) ==> Flagged(w', m, o);
  }

  lemma SameHead(w: World, w': World, m: Rec)
    requires m.todo != [] && m.todo[0] in m.copies && HeadInv(w, m)
    requires w'.files == w.files && w'.ops == w.ops && w'.managed == w.managed
    ensures HeadInv(w', m)
  {
  }

  lemma PassesSeePlans(s: State, plans': map<PlanId, Plan>, specs': map<PlanId, Spec>)
    requires PassesInv(s) && (forall pid :: pid in s.specs ==> pid in specs' && specs'[pid] == s.specs[pid])
    ensures forall k :: k in s.passes ==> PassInv(s.w.(plans := plans'), specs', s.passes[k])
  {
    hide PassInv;
    forall k | k in s.passes ensures PassInv(s.w.(plans := plans'), specs', s.passes[k]) {
      PassSeesPlans(s.w, s.specs, s.passes[k], plans', specs');
    }
  }

  lemma NewPlanKeepsPlans(s: State, planId: PlanId, spec: Spec)
    requires PlansInv(s) && ReceiptsInv(s) && planId !in s.specs && WfSpec(spec)
    ensures var s' := s.(specs := s.specs[planId := spec], w := s.w.(plans := s.w.plans[planId := Plan(PlanPrepared, None)]));
            PlansInv(s') && ReceiptsInv(s')
  {
    hide WfSpec;
  }

  lemma AddPlanKeeps(s: State, planId: PlanId, spec: Spec)
    requires Inv(s) && planId !in s.specs && WfSpec(spec)
    ensures Inv(Next(s, AddPlan(planId, spec)).value)
  {
    var s' := Next(s, AddPlan(planId, spec)).value;
    NewPlanKeepsPlans(s, planId, spec);
    PassesSeePlans(s, s'.w.plans, s'.specs);
    hide ThreadInv, PassInv, WfSpec, PlansInv, ReceiptsInv;
    forall op | op in s'.apply ensures ThreadInv(s'.w, s'.specs, op, s'.apply[op]) {
      assert s.apply[op].planId in s.specs;
      ThreadSeesPlans(s.w, s.specs, s'.w.plans, s'.specs, op, s.apply[op]);
    }
  }

  /** Plans that are prepared or approved may move on, and any plan may be lost. */
  ghost predicate PlansMove(plans: map<PlanId, Plan>, plans': map<PlanId, Plan>) {
    && plans'.Keys <= plans.Keys
    && forall pid :: pid in plans' && plans'[pid] != plans[pid] ==>
         && (plans[pid].state == PlanPrepared || plans[pid].state == Approved)
         && plans'[pid].state != Applied && plans'[pid].state != PlanPrepared
         && (plans'[pid].state == Approved ==> plans[pid].state == PlanPrepared)
  }

  lemma PlansMoveKeepPlans(s: State, plans': map<PlanId, Plan>)
    requires PlansInv(s) && PlansMove(s.w.plans, plans')
    ensures PlansInv(s.(w := s.w.(plans := plans')))
  {
    hide WfSpec;
  }

  lemma PlanChangeKeeps(s: State, plans': map<PlanId, Plan>)
    requires Inv(s) && PlansMove(s.w.plans, plans')
    ensures Inv(s.(w := s.w.(plans := plans')))
  {
    var s' := s.(w := s.w.(plans := plans'));
    PlansMoveKeepPlans(s, plans');
    PassesSeePlans(s, plans', s.specs);
    hide ThreadInv, PassInv, PlansInv, GoodReceipt;
    forall op | op in s'.apply ensures ThreadInv(s'.w, s'.specs, op, s'.apply[op]) {
      ThreadSeesPlans(s.w, s.specs, plans', s.specs, op, s.apply[op]);
    }
  }

  lemma ThreadSeesEdit(w: World, specs: map<PlanId, Spec>, op: OpId, t: Thread, path: Path, hash: Option<string>)
    requires ThreadInv(w, specs, op, t)
    ensures ThreadInv(w.(files := SetFile(w.files, path, hash)), specs, op, t.(edited := t.edited + {path}))
  {
  }

  lemma PassSeesEdit(w: World, specs: map<PlanId, Spec>, m: Rec, path: Path, hash: Option<string>)
    requires PassInv(w, specs, m)
    ensures PassInv(w.(files := SetFile(w.files, path, hash)), specs, m.(edited := m.edited + {path}))
  {
    var w', m' := w.(files := SetFile(w.files, path, hash)), m.(edited := m.edited + {path});
    if m.todo != [] {
      HeadSeesEdit(w, m, path, hash);
    }
    hide HeadInv, Distinct, GoodReceipt;
    forall p | p in m'.renamed && p !in m'.edited ensures Intended(specs, w'.files, p) {
      assert Intended(specs, w.files, p) && Observed(w'.files, p) == Observed(w.files, p);
    }
    assert forall o :: Listed(w, specs, m, o) ==> Listed(w', specs, m', o);
    assert forall o :: Done(w, m, o) ==> Done(w', m', o);
    assert forall o :: Flagged(w, m, o) ==> Flagged(w', m', o);
  }

  lemma HeadSeesEdit(w: World, m: Rec, path: Path, hash: Option<string>)
    requires m.todo != [] && m.todo[0] in m.copies && HeadInv(w, m)
    ensures HeadInv(w.(files := SetFile(w.files, path, hash)), m.(edited := m.edited + {path}))
  {
  }

  lemma ThreadsSeeEdit(s: State, path: Path, hash: Option<string>)
    requires ThreadsInv(s)
    ensures ThreadsInv(s.(w := s.w.(files := SetFile(s.w.files, path, hash)), apply := ThreadsEdited(s.apply, path)))
  {
    hide ThreadInv;
    ApartAfter(s.specs, s.apply, ThreadsEdited(s.apply, path));
    forall op | op in s.apply
      ensures ThreadInv(s.w.(files := SetFile(s.w.files, path, hash)), s.specs, op, ThreadsEdited(s.apply, path)[op])
    {
      ThreadSeesEdit(s.w, s.specs, op, s.apply[op], path, hash);
    }
  }

  lemma PassesSeeEdit(s: State, path: Path, hash: Option<string>)
    requires PassesInv(s)
    ensures PassesInv(s.(w := s.w.(files := SetFile(s.w.files, path, hash)), passes := PassesEdited(s.passes, path)))
  {
    hide PassInv;
    forall k | k in s.passes
      ensures PassInv(s.w.(files := SetFile(s.w.files, path, hash)), s.specs, PassesEdited(s.passes, path)[k])
    {
      PassSeesEdit(s.w, s.specs, s.passes[k], path, hash);
    }
  }

  lemma EditKeeps(s: State, path: Path, hash: Option<string>)
    requires Inv(s)
    ensures Inv(Next(s, Edit(path, hash)).value)
  {
    EditedFiles(s, Next(s, Edit(path, hash)).value);
    ThreadsSeeEdit(s, path, hash);
    PassesSeeEdit(s, path, hash);
    hide ThreadInv, PassInv, PlansInv, ReceiptsInv, ThreadsApart, ThreadsEdited, PassesEdited;
  }

  lemma EditedFiles(s: State, s': State)
    requires PlansInv(s) && ReceiptsInv(s) && s'.w == s.w.(files := s'.w.files) && s'.specs == s.specs
    ensures PlansInv(s') && ReceiptsInv(s')
  {
    hide WfSpec, GoodReceipt;
  }

  lemma Begun(s: State, op: OpId, planId: PlanId)
    requires Next(s, Begin(op, planId)).Some?
    ensures planId in s.specs && op !in s.w.receipts && op !in s.w.ops && op !in s.apply
    ensures TargetsFree(s, s.specs[planId])
    ensures Next(s, Begin(op, planId)).value == s.(apply := s.apply[op := FirstThread(planId, s.specs[planId])])
  {
  }

  lemma FirstThreadInv(w: World, specs: map<PlanId, Spec>, op: OpId, planId: PlanId)
    requires planId in specs && WfSpec(specs[planId]) && op !in w.receipts && op !in w.ops
    ensures ThreadInv(w, specs, op, FirstThread(planId, specs[planId]))
  {
  }

  lemma BeginKeeps(s: State, op: OpId, planId: PlanId)
    requires Inv(s) && Next(s, Begin(op, planId)).Some?
    ensures Inv(Next(s, Begin(op, planId)).value)
  {
    Begun(s, op, planId);
    var s' := Next(s, Begin(op, planId)).value;
    SpecKnown(s, planId);
    FirstThreadInv(s.w, s.specs, op, planId);
    SamePlans(s, s');
    ApartFromNew(s, op, planId);
    hide Next, ThreadInv, PassInv, PlansInv, ReceiptsInv, ThreadsApart, FirstThread, TargetsFree;
  }

  lemma SpecKnown(s: State, planId: PlanId)
    requires PlansInv(s) && planId in s.specs
    ensures WfSpec(s.specs[planId])
  {
  }

  lemma ApartFromNew(s: State, op: OpId, planId: PlanId)
    requires ThreadsApart(s.specs, s.apply) && planId in s.specs && TargetsFree(s, s.specs[planId])
    ensures ThreadsApart(s.specs, s.apply[op := FirstThread(planId, s.specs[planId])])
  {
  }

  lemma FirstPassInv(s: State, order: seq<OpId>)
    requires Inv(s) && ListsPending(s.w, order)
    ensures PassInv(s.w, s.specs, FirstPass(order, s.w.receipts))
  {
    var m := FirstPass(order, s.w.receipts);
    forall op | op in order ensures Listed(s.w, s.specs, m, op) {
      assert op in Elements(order);
    }
    if order != [] {
      assert order[0] in order;
      FreshHead(s.w, m, order[0]);
    }
  }

  lemma StartReconcileKeeps(s: State, k: PassId, order: seq<OpId>)
    requires Inv(s) && Next(s, StartReconcile(k, order)).Some?
    ensures Inv(Next(s, StartReconcile(k, order)).value)
  {
    FirstPassInv(s, order);
    SamePlans(s, Next(s, StartReconcile(k, order)).value);
    hide PassInv, ThreadInv, PlansInv, ReceiptsInv, ThreadsApart, FirstPass, ListsPending;
  }

  lemma OutsideStepKeeps(s: State, a: Action)
    requires Inv(s) && Next(s, a).Some? && (a.AddPlan? || a.Approve? || a.Retire? || a.LosePlan? || a.Edit? || a.Crash?)
    ensures Inv(Next(s, a).value)
  {
    hide ThreadInv, PassInv, WfSpec, GoodReceipt;
    if a.AddPlan? {
      AddPlanKeeps(s, a.planId, a.spec);
    } else if a.Edit? {
      EditKeeps(s, a.path, a.hash);
    } else if !a.Crash? {
      PlanChangeKeeps(s, Next(s, a).value.w.plans);
    }
  }

  lemma FinishKeeps(s: State, k: PassId)
    requires Inv(s) && Next(s, FinishReconcile(k)).Some?
    ensures Inv(Next(s, FinishReconcile(k)).value)
  {
    SamePlans(s, Next(s, FinishReconcile(k)).value);
    hide PassInv, ThreadInv, PlansInv, ReceiptsInv, ThreadsApart;
  }

  lemma AdvanceStepKeeps(s: State, op: OpId, pick: Path)
    requires Inv(s) && Next(s, Advance(op, pick)).Some?
    ensures Inv(Next(s, Advance(op, pick)).value)
  {
    hide AdvanceThread, Inv, WithThread;
    AdvanceKeeps(s, op, pick);
  }

  lemma ThrowStepKeeps(s: State, op: OpId, effect: bool)
    requires Inv(s) && Next(s, Throw(op, effect)).Some?
    ensures Inv(Next(s, Throw(op, effect)).value)
  {
    hide ThrowThread, Inv, WithThread;
    ThrowKeeps(s, op, effect);
  }

  lemma StepKeeps(s: State, a: Action)
    requires Inv(s) && Next(s, a).Some?
    ensures Inv(Next(s, a).value)
  {
    hide Next, Inv;
    match a
    case Begin(op, planId) => BeginKeeps(s, op, planId);
    case Advance(op, pick) => AdvanceStepKeeps(s, op, pick);
    case Throw(op, effect) => ThrowStepKeeps(s, op, effect);
    case StartReconcile(k, order) => StartReconcileKeeps(s, k, order);
    case RecAdvance(k, pick) => RecAdvanceKeeps(s, k, pick);
    case RecThrow(k, effect) => RecThrowKeeps(s, k, effect);
    case FinishReconcile(k) => FinishKeeps(s, k);
    case _ => OutsideStepKeeps(s, a);
  }

  lemma {:induction false} RunInv(run: seq<State>, acts: seq<Action>, i: nat)
    requires IsRun(run, acts) && i < |run|
    ensures Inv(run[i])
  {
    if i > 0 {
      hide Next, Inv;
      RunInv(run, acts, i - 1);
      assert StepAt(run, acts, i - 1);
      StepKeeps(run[i - 1], acts[i - 1]);
    } else {
      FirstInv(run[0]);
    }
  }

  lemma FirstInv(s: State)
    requires Init(s)
    ensures Inv(s)
  {
  }
}
