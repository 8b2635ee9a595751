/**
  Applying an approved configuration plan, as a machine over durable state.

  One action is one durable step (a receipt write, a Redis compare-and-set, one file
  rename, one managed-target write), a failure of such a step with or without its effect,
  a daemon crash, an outside edit of a file, or one step of a `reconcile` pass. Operations and
  passes run beside each other in any number: nothing in the daemon keeps them apart, except
  that two operations never share a target.
 */
module ConfigProtocol {
  import opened Prelude
  import opened ConfigPolicy

  datatype Managed = Managed(operationId: OpId, expectedHash: Option<string>)

  datatype Plan = Plan(state: PlanState, operationId: Option<OpId>)

  /** The durable world: target files, receipts, managed targets, and Redis. */
  datatype World = World(
    files: map<Path, string>,
    receipts: map<OpId, Receipt>,
    managed: map<Path, Managed>,
    plans: map<PlanId, Plan>,
    ops: map<OpId, PlanId>,
    // history: the operation whose compare-and-set took the plan to applying and went on
    owner: map<PlanId, OpId>)

  /** The next await of a running `applyPlan`. */
  datatype Pc =
    | WritePrepared | Cas | WriteUncertain | Check | WriteSnapshotted | WriteWriting | Rename | Progress
    | WriteFilesCommitted | Project | Recommit | Manage | Complete | WriteCompleted | OnApplied
    | WriteProjectionFailed | WriteReconcile(code: Failure) | FailPlan | WriteFailed

  /**
    A running `applyPlan`. History: `edited` holds the paths edited from outside since its hash
    check; `meddled` says that a pass wrote its receipt or moved its plan; `remanaged` holds the
    paths whose managed target somebody else wrote since this operation did.
   */
  datatype Thread = Thread(
    planId: PlanId, pc: Pc, receipt: Receipt, count: nat, done: set<Path>,
    edited: set<Path>, meddled: bool, remanaged: set<Path>)

  /** The next await of a `reconcile` pass for the receipt at the head of `todo`. */
  datatype RPc =
    | Observe | ReadPlan | WriteAmbiguous(code: Failure) | FailCas | RecWriteFailed
    | CompleteCas | RecManage | RecWriteCompleted

  type PassId = nat

  /**
    One pass. `copies` are the receipts as it listed them. History: `edited` and `renamed` hold
    the paths edited from outside, or written by a running operation, since this pass observed
    them; `remanaged` those whose managed target somebody else wrote since; `lost` the operations
    whose receipt somebody else wrote since this pass filed it.
   */
  datatype Rec = Rec(
    listed: seq<OpId>, copies: map<OpId, Receipt>, todo: seq<OpId>,
    pc: RPc, obs: HashMap, done: set<Path>,
    reconciled: seq<OpId>, ambiguous: seq<OpId>,
    edited: set<Path>, renamed: set<Path>, remanaged: set<Path>, lost: set<OpId>)

  datatype State = State(
    w: World,
    specs: map<PlanId, Spec>,
    apply: map<OpId, Thread>,
    passes: map<PassId, Rec>)

  datatype Action =
    | AddPlan(planId: PlanId, spec: Spec)
    | Approve(planId: PlanId)
    | Retire(planId: PlanId, to: PlanState)
    | LosePlan(planId: PlanId)
    | Edit(path: Path, hash: Option<string>)
    | Crash
    | Begin(op: OpId, planId: PlanId)
    | Advance(op: OpId, pick: Path)
    | Throw(op: OpId, effect: bool)
    | StartReconcile(pass: PassId, order: seq<OpId>)
    | RecAdvance(pass: PassId, pick: Path)
    | RecThrow(pass: PassId, effect: bool)
    | FinishReconcile(pass: PassId)

  // ---------------------------------------------------------------- effects

  /** One durable step of operation `op`. */
  datatype Effect =
    | Nothing
    | PutReceipt(receipt: Receipt)
    | Transition(planId: PlanId, from: PlanState, to: PlanState)
    | TakePlan(planId: PlanId)
    | WriteFile(path: Path, hash: Option<string>)
    | PutManaged(path: Path, hash: Option<string>)
    | CompletePlan(planId: PlanId)

  predicate PlanIs(w: World, planId: PlanId, st: PlanState) {
    planId in w.plans && w.plans[planId].state == st
  }

  /** `completeConfigPlan` is one transaction over the plan and the operation record. */
  predicate CanComplete(w: World, planId: PlanId, op: OpId) {
    PlanIs(w, planId, Applying) && op !in w.ops
  }

  /** The Redis steps are compare-and-set: without the expected state they change nothing. */
  function Perform(w: World, op: OpId, e: Effect): World {
    match e
    case Nothing => w
    case PutReceipt(r) => w.(receipts := w.receipts[op := r])
    case Transition(planId, from, to) =>
      if PlanIs(w, planId, from) then w.(plans := w.plans[planId := w.plans[planId].(state := to)]) else w
    case TakePlan(planId) =>
      if PlanIs(w, planId, Approved) then
        w.(plans := w.plans[planId := w.plans[planId].(state := Applying)], owner := w.owner[planId := op])
      else w
    case WriteFile(p, h) => w.(files := SetFile(w.files, p, h))
    case PutManaged(p, h) => w.(managed := w.managed[p := Managed(op, h)])
    case CompletePlan(planId) =>
      if CanComplete(w, planId, op) then
        w.(plans := w.plans[planId := Plan(Applied, Some(op))], ops := w.ops[op := planId])
      else w
  }

  function If(effect: bool, e: Effect): Effect {
    if effect then e else Nothing
  }

  // ---------------------------------------------------------------- applyPlan

  /** The receipt variable once the await at `t.pc` has been prepared. */
  function Assigned(spec: Spec, t: Thread): Receipt {
    match t.pc
    case WriteSnapshotted => t.receipt.(state := Snapshotted, committed := spec.intended)
    case WriteWriting => t.receipt.(state := Writing, committed := spec.intended)
    case Progress => t.receipt.(state := Writing, committed := spec.intended)
    case WriteFilesCommitted => t.receipt.(state := FilesCommitted, committed := spec.intended)
    case _ => t.receipt
  }

  function Uncertain(r: Receipt, code: Failure): Receipt {
    r.(state := ReconciliationRequired, failure := code)
  }

  /**
    The catch clauses of the engine and of `applyPlan`. The receipt variable already says
    `reconciliation_required` only when writing that very receipt threw after the projection
    failed; the catch clause then takes the operation for one that changed nothing.
   */
  function Raise(t: Thread, needsReconciliation: bool): Thread {
    var inEngineTry := t.pc == WriteWriting || t.pc == Rename || t.pc == Progress || t.pc == WriteFilesCommitted;
    if needsReconciliation || (inEngineTry && t.count > 0) then t.(pc := WriteReconcile(ReconciliationCode))
    else if t.receipt.state == FilesCommitted || t.receipt.state == RedisPending then
      t.(pc := WriteReconcile(CommitUncertain))
    else t.(pc := FailPlan)
  }

  predicate PreconditionsHold(files: map<Path, string>, spec: Spec) {
    forall p :: p in spec.targets ==> Observed(files, p) == Look(spec.pre, p)
  }

  /** The await at `t.pc` succeeds: its durable step, and where the operation goes next. */
  function AdvanceThread(w: World, spec: Spec, op: OpId, t: Thread, pick: Path): (Effect, Option<Thread>) {
    match t.pc
    case WritePrepared => (PutReceipt(t.receipt), Some(t.(pc := Cas)))
    case Cas =>
      if PlanIs(w, t.planId, Approved) then (TakePlan(t.planId), Some(t.(pc := Check)))
      else (Nothing, Some(t.(pc := WriteUncertain)))
    case WriteUncertain => (PutReceipt(Uncertain(t.receipt, TransitionUncertain)), None)
    case Check =>
      if PreconditionsHold(w.files, spec) then (Nothing, Some(t.(pc := WriteSnapshotted, edited := {})))
      else (Nothing, Some(Raise(t, false)))
    case WriteSnapshotted =>
      var r := Assigned(spec, t);
      (PutReceipt(r), Some(t.(receipt := r, pc := WriteWriting)))
    case WriteWriting =>
      var r := Assigned(spec, t);
      (PutReceipt(r), Some(t.(receipt := r, pc := Rename)))
    case Rename =>
      if t.count < |spec.targets| then
        var p := spec.targets[t.count];
        (WriteFile(p, Look(spec.intended, p)), Some(t.(count := t.count + 1, pc := Progress)))
      else (Nothing, Some(t.(pc := WriteFilesCommitted)))
    case Progress =>
      var r := Assigned(spec, t);
      (PutReceipt(r), Some(t.(receipt := r, pc := if t.count < |spec.targets| then Rename else WriteFilesCommitted)))
    case WriteFilesCommitted =>
      var r := Assigned(spec, t);
      (PutReceipt(r), Some(t.(receipt := r, pc := Project)))
    case Project => (Nothing, Some(t.(pc := Recommit)))
    case Recommit => (PutReceipt(t.receipt), Some(t.(pc := Manage)))
    case Manage =>
      if t.done >= Elements(spec.targets) then (Nothing, Some(t.(pc := Complete)))
      else if pick in spec.targets then
        (PutManaged(pick, Look(t.receipt.committed, pick)),
         Some(t.(done := t.done + {pick}, remanaged := t.remanaged - {pick})))
      else (Nothing, Some(t))
    case Complete =>
      if CanComplete(w, t.planId, op) then (CompletePlan(t.planId), Some(t.(pc := WriteCompleted)))
      else (Nothing, Some(t.(pc := WriteProjectionFailed)))
    case WriteProjectionFailed => (PutReceipt(Uncertain(t.receipt, ProjectionFailed)), None)
    case WriteCompleted => (PutReceipt(t.receipt.(state := Completed)), Some(t.(pc := OnApplied)))
    case OnApplied => (Nothing, None)
    case WriteReconcile(code) => (PutReceipt(Uncertain(t.receipt, code)), None)
    case FailPlan => (Transition(t.planId, Applying, PlanFailed), Some(t.(pc := WriteFailed)))
    case WriteFailed => (PutReceipt(t.receipt.(state := Failed, failure := ApplyFailed)), None)
  }

  /** The await at `t.pc` throws; `effect` says whether its step took effect all the same. */
  function ThrowThread(spec: Spec, t: Thread, effect: bool): (Effect, Option<Thread>) {
    var r := Assigned(spec, t);
    match t.pc
    case WritePrepared => (If(effect, PutReceipt(r)), None)
    case Cas => (If(effect, Transition(t.planId, Approved, Applying)), Some(t.(pc := WriteUncertain)))
    case WriteUncertain => (If(effect, PutReceipt(Uncertain(r, TransitionUncertain))), None)
    case Check => (Nothing, Some(Raise(t, false)))
    case WriteSnapshotted => (If(effect, PutReceipt(r)), Some(Raise(t.(receipt := r), false)))
    case WriteWriting => (If(effect, PutReceipt(r)), Some(Raise(t.(receipt := r), false)))
    case Rename => (Nothing, Some(Raise(t, false)))
    case Progress => (If(effect, PutReceipt(r)), Some(Raise(t.(receipt := r), false)))
    case WriteFilesCommitted => (If(effect, PutReceipt(r)), Some(Raise(t.(receipt := r), false)))
    case Project => (Nothing, Some(Raise(t, true)))
    case Recommit => (If(effect, PutReceipt(r)), Some(Raise(t, false)))
    case Manage => (Nothing, Some(Raise(t, false)))
    case Complete => (If(effect, CompletePlan(t.planId)), Some(t.(pc := WriteProjectionFailed)))
    case WriteProjectionFailed =>
      var uncertain := Uncertain(r, ProjectionFailed);
      (If(effect, PutReceipt(uncertain)), Some(Raise(t.(receipt := uncertain), false)))
    case WriteCompleted => (If(effect, PutReceipt(r.(state := Completed))), Some(Raise(t, false)))
    case OnApplied => (Nothing, Some(Raise(t, false)))
    case WriteReconcile(code) => (If(effect, PutReceipt(Uncertain(r, code))), None)
    case FailPlan => (If(effect, Transition(t.planId, Applying, PlanFailed)), Some(t.(pc := WriteFailed)))
    case WriteFailed => (If(effect, PutReceipt(r.(state := Failed, failure := ApplyFailed))), None)
  }

  // ---------------------------------------------------------------- reconcile

  function NextReceipt(m: Rec): Rec
    requires m.todo != []
  {
    m.(todo := m.todo[1..], pc := Observe, obs := map[], done := {},
       edited := {}, renamed := {}, remanaged := {}, lost := m.lost - {m.todo[0]})
  }

  function DecisionPc(d: Decision): RPc {
    match d
    case Ambiguous(code) => WriteAmbiguous(code)
    case MarkFailed(transition) => if transition then FailCas else RecWriteFailed
    case FinishPlan => CompleteCas
    case FinishReceipt => RecManage
  }

  function PlanStateOf(w: World, planId: PlanId): Option<PlanState> {
    if planId in w.plans then Some(w.plans[planId].state) else None
  }

  /** The await at `m.pc` succeeds; None is the exception that ends the pass. */
  function AdvanceRec(w: World, m: Rec, pick: Path): (Effect, Option<Rec>)
    requires m.todo != [] && m.todo[0] in m.copies
  {
    var op := m.todo[0];
    var r := m.copies[op];
    match m.pc
    case Observe =>
      if m.obs.Keys >= Elements(r.targets) then (Nothing, Some(m.(pc := ReadPlan)))
      else if pick in r.targets then
        (Nothing, Some(m.(obs := m.obs[pick := Observed(w.files, pick)],
                          edited := m.edited - {pick}, renamed := m.renamed - {pick})))
      else (Nothing, Some(m))
    case ReadPlan =>
      (Nothing, Some(m.(pc := DecisionPc(Decide(r, m.obs, PlanStateOf(w, r.planId), op in w.ops)))))
    case WriteAmbiguous(code) =>
      (PutReceipt(Uncertain(r, code)), Some(NextReceipt(m.(ambiguous := m.ambiguous + [op]))))
    case FailCas =>
      if PlanIs(w, r.planId, Applying) then
        (Transition(r.planId, Applying, PlanFailed), Some(m.(pc := RecWriteFailed)))
      else (Nothing, Some(m.(pc := WriteAmbiguous(ProjectionInconsistent))))
    case RecWriteFailed =>
      (PutReceipt(r.(state := Failed, failure := InterruptedBeforeCommit)),
       Some(NextReceipt(m.(reconciled := m.reconciled + [op]))))
    case CompleteCas =>
      if CanComplete(w, r.planId, op) then (CompletePlan(r.planId), Some(m.(pc := RecManage)))
      else (Nothing, None)
    case RecManage =>
      if m.done >= Elements(r.targets) then (Nothing, Some(m.(pc := RecWriteCompleted)))
      else if pick in r.targets then
        (PutManaged(pick, Look(r.committed, pick)),
         Some(m.(done := m.done + {pick}, remanaged := m.remanaged - {pick})))
      else (Nothing, Some(m))
    case RecWriteCompleted =>
      (PutReceipt(r.(state := Completed, failure := NoFailure)),
       Some(NextReceipt(m.(reconciled := m.reconciled + [op]))))
  }

  function ThrowRec(m: Rec, effect: bool): (Effect, Option<Rec>)
    requires m.todo != [] && m.todo[0] in m.copies
  {
    var r := m.copies[m.todo[0]];
    match m.pc
    case Observe => (Nothing, None)
    case ReadPlan => (Nothing, None)
    case WriteAmbiguous(code) => (If(effect, PutReceipt(Uncertain(r, code))), None)
    case FailCas =>
      (If(effect, Transition(r.planId, Applying, PlanFailed)),
       Some(m.(pc := WriteAmbiguous(ProjectionInconsistent))))
    case RecWriteFailed =>
      (If(effect, PutReceipt(r.(state := Failed, failure := InterruptedBeforeCommit))),
       Some(m.(pc := WriteAmbiguous(ProjectionInconsistent))))
    case CompleteCas => (If(effect, CompletePlan(r.planId)), None)
    case RecManage => (Nothing, None)
    case RecWriteCompleted =>
      (If(effect, PutReceipt(r.(state := Completed, failure := NoFailure))), None)
  }

  // ---------------------------------------------------------------- history

  /** Every running operation notes an outside edit. */
  function ThreadsEdited(apply: map<OpId, Thread>, path: Path): map<OpId, Thread> {
    map x | x in apply :: apply[x].(edited := apply[x].edited + {path})
  }

  function PassesEdited(passes: map<PassId, Rec>, path: Path): map<PassId, Rec> {
    map k | k in passes :: passes[k].(edited := passes[k].edited + {path})
  }

  /** What operation `x` notes of an effect that somebody else has for operation `op`. */
  function ThreadNotes(x: OpId, t: Thread, op: OpId, e: Effect): Thread {
    match e
    case PutManaged(p, _) => t.(remanaged := t.remanaged + {p})
    case PutReceipt(_) => if x == op then t.(meddled := true) else t
    case Transition(q, _, _) => if t.planId == q then t.(meddled := true) else t
    case CompletePlan(q) => if t.planId == q then t.(meddled := true) else t
    case _ => t
  }

  function PassNotes(m: Rec, op: OpId, e: Effect): Rec {
    match e
    case WriteFile(p, _) => m.(renamed := m.renamed + {p})
    case PutManaged(p, _) => m.(remanaged := m.remanaged + {p})
    case PutReceipt(_) => m.(lost := m.lost + {op})
    case _ => m
  }

  function ThreadsNote(apply: map<OpId, Thread>, op: OpId, e: Effect): map<OpId, Thread> {
    map x | x in apply :: ThreadNotes(x, apply[x], op, e)
  }

  function PassesNote(passes: map<PassId, Rec>, op: OpId, e: Effect): map<PassId, Rec> {
    map k | k in passes :: PassNotes(passes[k], op, e)
  }

  // ---------------------------------------------------------------- the machine

  predicate TargetsFree(s: State, spec: Spec) {
    forall op :: op in s.apply && s.apply[op].planId in s.specs ==>
      Elements(s.specs[s.apply[op].planId].targets) !! Elements(spec.targets)
  }

  predicate ListsPending(w: World, order: seq<OpId>) {
    && Distinct(order)
    && Elements(order) == set op | op in w.receipts && Pending(w.receipts[op].state)
  }

  /** A step of operation `op`: everybody else takes note. */
  function WithThread(s: State, op: OpId, r: (Effect, Option<Thread>)): State {
    var others := ThreadsNote(s.apply - {op}, op, r.0);
    s.(w := Perform(s.w, op, r.0),
       apply := match r.1 case None => others case Some(t) => others[op := t],
       passes := PassesNote(s.passes, op, r.0))
  }

  /** A step of pass `k` for operation `op`. */
  function WithRec(s: State, k: PassId, op: OpId, r: (Effect, Option<Rec>)): State {
    var others := PassesNote(s.passes - {k}, op, r.0);
    s.(w := Perform(s.w, op, r.0),
       apply := ThreadsNote(s.apply, op, r.0),
       passes := match r.1 case None => others case Some(m) => others[k := m])
  }

  predicate RecRunning(s: State, k: PassId) {
    k in s.passes && s.passes[k].todo != [] && s.passes[k].todo[0] in s.passes[k].copies
  }

  function FirstThread(planId: PlanId, spec: Spec): Thread {
    Thread(planId, WritePrepared, Receipt(planId, Prepared, spec.targets, spec.pre, map[], NoFailure), 0, {},
           {}, false, {})
  }

  function FirstPass(order: seq<OpId>, receipts: map<OpId, Receipt>): Rec {
    Rec(order, receipts, order, Observe, map[], {}, [], [], {}, {}, {}, {})
  }

  /** None when the action is not enabled. */
  function Next(s: State, a: Action): Option<State> {
    match a
    case AddPlan(planId, spec) =>
      if planId !in s.specs && WfSpec(spec) then
        Some(s.(specs := s.specs[planId := spec],
                w := s.w.(plans := s.w.plans[planId := Plan(PlanPrepared, None)])))
      else None
    case Approve(planId) =>
      if PlanIs(s.w, planId, PlanPrepared) then
        Some(s.(w := Perform(s.w, planId, Transition(planId, PlanPrepared, Approved))))
      else None
    case Retire(planId, to) =>
      if (PlanIs(s.w, planId, PlanPrepared) || PlanIs(s.w, planId, Approved)) && (to == Expired || to == Superseded)
      then Some(s.(w := s.w.(plans := s.w.plans[planId := Plan(to, None)])))
      else None
    case LosePlan(planId) =>
      if planId in s.w.plans then Some(s.(w := s.w.(plans := s.w.plans - {planId}))) else None
    case Edit(path, hash) =>
      Some(s.(w := s.w.(files := SetFile(s.w.files, path, hash)),
              apply := ThreadsEdited(s.apply, path), passes := PassesEdited(s.passes, path)))
    case Crash => Some(s.(apply := map[], passes := map[]))
    case Begin(op, planId) =>
      // the plan was approved when it was read; the compare-and-set will tell whether it still is
      if && op !in s.w.receipts && op !in s.w.ops && op !in s.apply
         && planId in s.specs && !PlanIs(s.w, planId, PlanPrepared) && TargetsFree(s, s.specs[planId])
      then Some(s.(apply := s.apply[op := FirstThread(planId, s.specs[planId])]))
      else None
    case Advance(op, pick) =>
      if op in s.apply && s.apply[op].planId in s.specs then
        var t := s.apply[op];
        Some(WithThread(s, op, AdvanceThread(s.w, s.specs[t.planId], op, t, pick)))
      else None
    case Throw(op, effect) =>
      if op in s.apply && s.apply[op].planId in s.specs then
        var t := s.apply[op];
        Some(WithThread(s, op, ThrowThread(s.specs[t.planId], t, effect)))
      else None
    case StartReconcile(k, order) =>
      if k !in s.passes && ListsPending(s.w, order) then
        Some(s.(passes := s.passes[k := FirstPass(order, s.w.receipts)]))
      else None
    case RecAdvance(k, pick) =>
      if RecRunning(s, k) then
        Some(WithRec(s, k, s.passes[k].todo[0], AdvanceRec(s.w, s.passes[k], pick)))
      else None
    case RecThrow(k, effect) =>
      if RecRunning(s, k) then
        Some(WithRec(s, k, s.passes[k].todo[0], ThrowRec(s.passes[k], effect)))
      else None
    case FinishReconcile(k) =>
      if k in s.passes && s.passes[k].todo == [] then Some(s.(passes := s.passes - {k})) else None
  }

  ghost predicate Init(s: State) {
    s.w.receipts == map[] && s.w.managed == map[] && s.w.plans == map[] && s.w.ops == map[] && s.w.owner == map[] &&
    s.specs == map[] && s.apply == map[] && s.passes == map[]
  }

  /** `run` is a run of the machine under `acts`. */
  ghost predicate IsRun(run: seq<State>, acts: seq<Action>) {
    && |run| == |acts| + 1
    && Init(run[0])
    && forall i :: 0 <= i < |acts| ==> StepAt(run, acts, i)
  }

  ghost predicate StepAt(run: seq<State>, acts: seq<Action>, i: int)
    requires |run| == |acts| + 1 && 0 <= i < |acts|
  {
    Next(run[i], acts[i]) == Some(run[i + 1])
  }
}
