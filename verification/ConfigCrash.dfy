/**
  What a crash inside the engine leaves, and what the next pass makes of it.
 */
module ConfigCrash {
  import opened Prelude
  import opened ConfigPolicy
  import opened ConfigProtocol
  import opened ConfigSafety
  import opened ConfigRecovery

  // ---------------------------------------------------------------- what the durable state calls for

  /** The plan asks for another content of its target number `k`. */
  predicate Changes(spec: Spec, k: nat)
    requires k < |spec.targets|
  {
    Look(spec.pre, spec.targets[k]) != Look(spec.intended, spec.targets[k])
  }

  /** Of the first `count` targets, some really changed. */
  predicate SomeDone(spec: Spec, count: nat)
    requires count <= |spec.targets|
  {
    exists k :: 0 <= k < count && Changes(spec, k)
  }

  /** After the first `count` targets, some are still to change. */
  predicate SomeLeft(spec: Spec, count: nat)
    requires count <= |spec.targets|
  {
    exists k :: count <= k < |spec.targets| && Changes(spec, k)
  }

  /** The receipt says that the files may not have been committed yet. */
  predicate EarlyReceipt(r: Receipt) {
    r.state == Prepared || r.state == Snapshotted || r.state == Writing || r.failure == TransitionUncertain
  }

  /**
    The decision for a receipt whose first `count` targets were renamed. It goes by contents, so
    targets that the plan leaves as they are do not matter.
   */
  lemma DecisionByCount(r: Receipt, spec: Spec, obs: HashMap, count: nat, plan: PlanState, projected: bool)
    requires WfSpec(spec) && count <= |spec.targets| && r.targets == spec.targets && r.expected == spec.pre
    requires obs.Keys == Elements(spec.targets)
    requires forall k :: 0 <= k < |spec.targets| ==>
               Look(obs, spec.targets[k]) == Look(if k < count then spec.intended else spec.pre, spec.targets[k])
    requires count == 0 ==> EarlyReceipt(r)
    requires count > 0 ==> r.committed == spec.intended
    requires if projected then plan == Applied && !EarlyReceipt(r) else plan == Applying
    ensures DecidedByCount(Decide(r, obs, Some(plan), projected), r, spec, count)
  {
    UnchangedWhen(r, spec, obs, count);
    if count > 0 {
      MatchesWhen(spec, obs, count);
    }
    hide Unchanged, Matches, SomeDone, SomeLeft;
    if count == 0 {
      assert !SomeDone(spec, 0) by { NothingDone(spec); }
    }
  }

  lemma NothingDone(spec: Spec)
    ensures !SomeDone(spec, 0)
  {
  }

  lemma UnchangedWhen(r: Receipt, spec: Spec, obs: HashMap, count: nat)
    requires WfSpec(spec) && count <= |spec.targets| && r.targets == spec.targets && r.expected == spec.pre
    requires forall k :: 0 <= k < |spec.targets| ==>
               Look(obs, spec.targets[k]) == Look(if k < count then spec.intended else spec.pre, spec.targets[k])
    ensures Unchanged(r, obs) <==> !SomeDone(spec, count)
  {
    if k :| 0 <= k < count && Changes(spec, k) {
      assert spec.targets[k] in r.targets;
    } else {
      forall p | p in r.targets ensures Look(r.expected, p) == Look(obs, p) {
        var k :| 0 <= k < |spec.targets| && spec.targets[k] == p;
        assert k < count ==> !Changes(spec, k);
      }
    }
  }

  lemma MatchesWhen(spec: Spec, obs: HashMap, count: nat)
    requires WfSpec(spec) && count <= |spec.targets| && obs.Keys == Elements(spec.targets)
    requires forall k :: 0 <= k < |spec.targets| ==>
               Look(obs, spec.targets[k]) == Look(if k < count then spec.intended else spec.pre, spec.targets[k])
    ensures Matches(spec.intended, obs) <==> !SomeLeft(spec, count)
  {
    assert forall p :: p in spec.intended.Keys + obs.Keys <==> p in spec.targets;
    if k :| count <= k < |spec.targets| && Changes(spec, k) {
      assert spec.targets[k] in spec.intended.Keys + obs.Keys;
    } else {
      forall p | p in spec.intended.Keys + obs.Keys ensures Look(spec.intended, p) == Look(obs, p) {
        var k :| 0 <= k < |spec.targets| && spec.targets[k] == p;
        assert k >= count ==> !Changes(spec, k);
      }
    }
  }

  /** What the durable state says of an operation inside the engine that no pass has touched. */
  lemma EngineReceipt(w: World, specs: map<PlanId, Spec>, op: OpId, t: Thread)
    requires ThreadInv(w, specs, op, t) && InEngine(t.pc) && !t.pc.OnApplied? && !t.meddled && WfSpec(specs[t.planId])
    ensures op in w.receipts && w.receipts[op] == t.receipt && Pending(t.receipt.state)
    ensures t.receipt.targets == specs[t.planId].targets && t.receipt.expected == specs[t.planId].pre
    ensures t.receipt.planId == t.planId
    ensures t.count == 0 ==> EarlyReceipt(t.receipt)
    ensures t.count > 0 ==> t.receipt.committed == specs[t.planId].intended
    ensures op in w.ops <==> t.pc.WriteCompleted?
    ensures op in w.ops ==> !EarlyReceipt(t.receipt)
    ensures op !in w.ops && t.planId in w.plans ==> w.plans[t.planId].state == Applying
  {
  }

  /** What the decision of the next pass comes to, for an operation that renamed `count` targets. */
  ghost predicate DecidedByCount(d: Decision, r: Receipt, spec: Spec, count: nat)
    requires count <= |spec.targets|
  {
    && (d.MarkFailed? <==> EarlyReceipt(r) && !SomeDone(spec, count))
    && (d.Ambiguous? <==> SomeLeft(spec, count) && (SomeDone(spec, count) || !EarlyReceipt(r)))
  }

  /** The operation was inside the engine, no pass had touched it and nobody had edited its targets. */
  ghost predicate KilledInEngine(s: State, op: OpId) {
    && op in s.apply && InEngine(s.apply[op].pc) && !s.apply[op].pc.OnApplied? && !s.apply[op].meddled
    && var t := s.apply[op];
       && t.planId in s.w.plans && t.planId in s.specs && t.count <= |s.specs[t.planId].targets|
       && forall p :: p in s.specs[t.planId].targets ==> p !in t.edited
  }

  function DecisionFor(w: World, op: OpId): Decision
    requires op in w.receipts
  {
    var r := w.receipts[op];
    Decide(r, ObserveAll(w.files, r.targets), PlanStateOf(w, r.planId), op in w.ops)
  }

  /**
    Kill the daemon while an operation is inside the engine. If no target was edited and no pass has
    touched the operation, what the durable state calls for depends on the receipt's state and on
    whether a file that the plan really changes had been renamed, or had still to be.
   */
  lemma CrashOutcome(run: seq<State>, acts: seq<Action>, i: nat, op: OpId)
    requires IsRun(run, acts) && i < |acts| && acts[i] == Crash && KilledInEngine(run[i], op)
    ensures var t := run[i].apply[op];
            var w := run[i + 1].w;
            && op in w.receipts && Pending(w.receipts[op].state) && w.receipts[op].planId == t.planId
            && DecidedByCount(DecisionFor(w, op), w.receipts[op], run[i].specs[t.planId], t.count)
  {
    hide Decide, InEngine, Inv, Next, ObserveAll, ThreadInv, DecidedByCount;
    StepOf(run, acts, i);
    CrashKeepsWorld(run[i]);
    KnownThread(run[i], op);
    EngineDecision(run[i].w, run[i].specs, op, run[i].apply[op]);
  }

  /** The operation was between its first receipt and the check of its preconditions. */
  ghost predicate KilledBeforeEngine(s: State, op: OpId) {
    && op in s.apply && (s.apply[op].pc.Cas? || s.apply[op].pc.Check?) && !s.apply[op].meddled
    && s.apply[op].planId in s.w.plans && s.apply[op].planId in s.specs
  }

  /**
    Before the engine nothing has been renamed, but nothing has been checked either. The receipt is
    failed exactly when every target is at its precondition and the plan approved or applying;
    completed, although nothing was done, exactly when they are not but every target is absent and
    the plan applying; and flagged otherwise.
   */
  lemma EarlyCrashOutcome(run: seq<State>, acts: seq<Action>, i: nat, op: OpId)
    requires IsRun(run, acts) && i < |acts| && acts[i] == Crash && KilledBeforeEngine(run[i], op)
    ensures var w := run[i + 1].w;
            var t := run[i].apply[op];
            var spec, st := run[i].specs[t.planId], run[i].w.plans[t.planId].state;
            && op in w.receipts && Pending(w.receipts[op].state)
            && var d := DecisionFor(w, op);
               var untouched := TargetsAt(w.files, spec.targets, spec.pre, {});
               && (d.MarkFailed? <==> untouched && (st == Applying || st == Approved))
               && (d.FinishPlan? <==> !untouched && st == Applying && forall p :: p in spec.targets ==> p !in w.files)
               && !d.FinishReceipt?
  {
    hide Inv, Next;
    StepOf(run, acts, i);
    CrashKeepsWorld(run[i]);
    KnownThread(run[i], op);
    var w, t := run[i].w, run[i].apply[op];
    EarlyReceiptKnown(w, run[i].specs, op, t);
    hide ThreadInv;
    EarlyDecision(w.receipts[op], run[i].specs[t.planId], w, op);
  }

  lemma EarlyReceiptKnown(w: World, specs: map<PlanId, Spec>, op: OpId, t: Thread)
    requires ThreadInv(w, specs, op, t) && (t.pc.Cas? || t.pc.Check?) && !t.meddled
    ensures op in w.receipts && op !in w.ops && w.receipts[op] == t.receipt
    ensures var r := w.receipts[op];
            r.state == Prepared && r.planId == t.planId && r.committed == map[]
            && r.targets == specs[t.planId].targets && r.expected == specs[t.planId].pre
  {
  }

  lemma EarlyDecision(r: Receipt, spec: Spec, w: World, op: OpId)
    requires r.state == Prepared && r.committed == map[] && r.targets == spec.targets && r.expected == spec.pre
    requires r.planId in w.plans && op !in w.ops
    ensures var d := Decide(r, ObserveAll(w.files, r.targets), PlanStateOf(w, r.planId), op in w.ops);
            var st := w.plans[r.planId].state;
            var untouched := TargetsAt(w.files, spec.targets, spec.pre, {});
            && (d.MarkFailed? <==> untouched && (st == Applying || st == Approved))
            && (d.FinishPlan? <==> !untouched && st == Applying && forall p :: p in spec.targets ==> p !in w.files)
            && !d.FinishReceipt?
  {
    var obs := ObserveAll(w.files, r.targets);
    MatchMeaning(r.committed, r.targets, w.files);
    assert Unchanged(r, obs) <==> TargetsAt(w.files, spec.targets, spec.pre, {}) by {
      assert forall p :: p in r.targets ==> p in obs && Look(obs, p) == Observed(w.files, p);
    }
  }

  lemma CrashKeepsWorld(s: State)
    ensures Next(s, Crash) == Some(s.(apply := map[], passes := map[]))
  {
  }

  /** The same about the world alone. */
  lemma EngineDecision(w: World, specs: map<PlanId, Spec>, op: OpId, t: Thread)
    requires ThreadInv(w, specs, op, t) && InEngine(t.pc) && !t.pc.OnApplied? && !t.meddled
    requires t.planId in specs && WfSpec(specs[t.planId]) && t.planId in w.plans
    requires op in w.ops && !t.pc.WritePrepared? ==> w.plans[t.planId].state == Applied
    requires (forall p :: p in specs[t.planId].targets ==> p !in t.edited) && t.count <= |specs[t.planId].targets|
    ensures op in w.receipts && Pending(w.receipts[op].state) && w.receipts[op].planId == t.planId
    ensures DecidedByCount(DecisionFor(w, op), w.receipts[op], specs[t.planId], t.count)
  {
    hide Decide, Matches, Unchanged, FilesAt, SomeDone, SomeLeft;
    var spec := specs[t.planId];
    EngineReceipt(w, specs, op, t);
    ObservedByCount(w, spec, t);
    DecisionByCount(w.receipts[op], spec, ObserveAll(w.files, spec.targets), t.count, w.plans[t.planId].state, op in w.ops);
  }

  lemma ObservedByCount(w: World, spec: Spec, t: Thread)
    requires t.count <= |spec.targets| && FilesAt(w.files, spec, t.count, t.edited)
    requires forall p :: p in spec.targets ==> p !in t.edited
    ensures ObserveAll(w.files, spec.targets).Keys == Elements(spec.targets)
    ensures forall k :: 0 <= k < |spec.targets| ==>
              var p := spec.targets[k];
              Look(ObserveAll(w.files, spec.targets), p) == Look(if k < t.count then spec.intended else spec.pre, p)
  {
    var obs := ObserveAll(w.files, spec.targets);
    assert forall k :: 0 <= k < |spec.targets| ==> spec.targets[k] in obs;
  }

  // ---------------------------------------------------------------- the pass that follows

  /** No receipt for the same plan is listed before that of `op`. */
  ghost predicate NoRivalBefore(order: seq<OpId>, receipts: map<OpId, Receipt>, op: OpId) {
    op in receipts &&
    forall x, y :: 0 <= x < y < |order| && order[y] == op ==>
      order[x] in receipts && receipts[order[x]].planId != receipts[op].planId
  }

  /** The plan and the operation record are as the crash left them. */
  ghost predicate PlanAsLeft(w0: World, w: World, op: OpId, planId: PlanId) {
    PlanStateOf(w, planId) == PlanStateOf(w0, planId) && (op in w.ops <==> op in w0.ops)
  }

  ghost predicate ObsAgree(files: map<Path, string>, targets: seq<Path>, obs: HashMap) {
    obs.Keys <= Elements(targets) && forall p :: p in obs ==> Look(obs, p) == Observed(files, p)
  }

  /** A pass at the receipt of `op` is on the way to what the durable state called for. */
  ghost predicate OnTheWay(w0: World, w: World, op: OpId, pc: RPc, obs: HashMap)
    requires op in w0.receipts
  {
    var r := w0.receipts[op];
    var d := DecisionFor(w0, op);
    match pc
    case Observe => PlanAsLeft(w0, w, op, r.planId) && ObsAgree(w0.files, r.targets, obs)
    case ReadPlan =>
      PlanAsLeft(w0, w, op, r.planId) && ObsAgree(w0.files, r.targets, obs) && obs.Keys == Elements(r.targets)
    case WriteAmbiguous(_) => d.Ambiguous?
    case FailCas => d == MarkFailed(true) && PlanIs(w, r.planId, Applying)
    case RecWriteFailed => d.MarkFailed? && (d.transition ==> PlanIs(w, r.planId, PlanFailed))
    case CompleteCas => d.FinishPlan? && CanComplete(w, r.planId, op)
    case RecManage => (d.FinishPlan? || d.FinishReceipt?) && op in w.ops
    case RecWriteCompleted => (d.FinishPlan? || d.FinishReceipt?) && op in w.ops
  }

  /** The state under which a decision files a receipt. */
  function FiledAs(d: Decision): ReceiptState {
    match d
    case Ambiguous(_) => ReconciliationRequired
    case MarkFailed(_) => Failed
    case FinishPlan => Completed
    case FinishReceipt => Completed
  }

  /** The plan and the operation record go with the state under which the receipt was filed. */
  ghost predicate PlanFollows(d: Decision, w: World, op: OpId, planId: PlanId) {
    && (d.FinishPlan? || d.FinishReceipt? ==> op in w.ops)
    && (d == MarkFailed(true) ==> PlanIs(w, planId, PlanFailed))
  }

  /** A pass that started on world `w0` and has met nobody else. */
  ghost predicate Undisturbed(w0: World, w: World, m: Rec, op: OpId) {
    && op in w0.receipts && op in w.receipts && w.files == w0.files && m.copies == w0.receipts && Distinct(m.todo)
    && w.plans.Keys == w0.plans.Keys
    && if op in m.todo then
         && w.receipts[op] == w0.receipts[op] && NoRivalBefore(m.todo, w0.receipts, op)
         && (if m.todo[0] == op then OnTheWay(w0, w, op, m.pc, m.obs)
             else PlanAsLeft(w0, w, op, w0.receipts[op].planId))
       else
         && w.receipts[op].state == FiledAs(DecisionFor(w0, op))
         && PlanFollows(DecisionFor(w0, op), w, op, w0.receipts[op].planId)
  }

  lemma ReadsAsLeft(w0: World, w: World, op: OpId, obs: HashMap)
    requires op in w0.receipts && OnTheWay(w0, w, op, ReadPlan, obs)
    ensures Decide(w0.receipts[op], obs, PlanStateOf(w, w0.receipts[op].planId), op in w.ops) == DecisionFor(w0, op)
  {
    assert obs == ObserveAll(w0.files, w0.receipts[op].targets);
  }

  lemma DecisionNeeds(r: Receipt, obs: HashMap, w: World, op: OpId)
    ensures var d := Decide(r, obs, PlanStateOf(w, r.planId), op in w.ops);
            && (d == MarkFailed(true) ==> PlanIs(w, r.planId, Applying))
            && (d.FinishPlan? ==> CanComplete(w, r.planId, op))
            && (d.FinishReceipt? ==> op in w.ops)
  {
    hide Unchanged, Matches;
  }

  /** One step of the pass at the receipt of `op` itself: it stays there, or files it. */
  ghost predicate HeadStepOk(w0: World, w': World, m: Rec, op: OpId, m': Option<Rec>)
    requires m.todo != [] && op in w0.receipts
  {
    && m'.Some? && m'.value.copies == m.copies && op in w'.receipts
    && (m'.value.todo == m.todo ==>
          OnTheWay(w0, w', op, m'.value.pc, m'.value.obs) && w'.receipts[op] == w0.receipts[op])
    && (m'.value.todo != m.todo ==>
          && m'.value.todo == m.todo[1..] && w'.receipts[op].state == FiledAs(DecisionFor(w0, op))
          && PlanFollows(DecisionFor(w0, op), w', op, w0.receipts[op].planId))
  }

  lemma HeadReads(w0: World, w: World, m: Rec, op: OpId, pick: Path)
    requires Undisturbed(w0, w, m, op) && m.todo != [] && m.todo[0] == op && (m.pc.Observe? || m.pc.ReadPlan?)
    ensures HeadStepOk(w0, Perform(w, op, AdvanceRec(w, m, pick).0), m, op, AdvanceRec(w, m, pick).1)
  {
    hide DecisionFor, Decide, NoRivalBefore, Distinct;
    if m.pc.ReadPlan? {
      ReadsAsLeft(w0, w, op, m.obs);
      DecisionNeeds(m.copies[op], m.obs, w, op);
    }
  }

  lemma HeadFails(w0: World, w: World, m: Rec, op: OpId, pick: Path)
    requires Undisturbed(w0, w, m, op) && m.todo != [] && m.todo[0] == op
    requires m.pc.WriteAmbiguous? || m.pc.FailCas? || m.pc.RecWriteFailed?
    ensures HeadStepOk(w0, Perform(w, op, AdvanceRec(w, m, pick).0), m, op, AdvanceRec(w, m, pick).1)
  {
    hide DecisionFor, Decide, NoRivalBefore, Distinct, PlanAsLeft, ObsAgree, Observed, Look, PlanStateOf;
    assert |m.todo[1..]| < |m.todo|;
  }

  lemma HeadCompletes(w0: World, w: World, m: Rec, op: OpId, pick: Path)
    requires Undisturbed(w0, w, m, op) && m.todo != [] && m.todo[0] == op
    requires m.pc.CompleteCas? || m.pc.RecManage? || m.pc.RecWriteCompleted?
    ensures HeadStepOk(w0, Perform(w, op, AdvanceRec(w, m, pick).0), m, op, AdvanceRec(w, m, pick).1)
  {
    hide DecisionFor, Decide, NoRivalBefore, Distinct, PlanAsLeft, ObsAgree, Observed, Look, PlanStateOf;
    assert |m.todo[1..]| < |m.todo|;
  }

  /** A pass has effects on the receipt's own plan only. */
  lemma EffectOfPass(w: World, m: Rec, pick: Path)
    requires m.todo != [] && m.todo[0] in m.copies
    ensures PassEffect(AdvanceRec(w, m, pick).0, m.copies[m.todo[0]].planId)
  {
    hide Decide, Perform, Observed, Look;
  }

  /** Such an effect leaves files, other receipts, other operations and other plans alone. */
  lemma ElsewhereAsLeft(w: World, op: OpId, planId: PlanId, e: Effect)
    requires PassEffect(e, planId)
    ensures var w' := Perform(w, op, e);
            && w'.files == w.files
            && (forall o :: o != op && o in w.receipts ==> o in w'.receipts && w'.receipts[o] == w.receipts[o])
            && w'.plans.Keys == w.plans.Keys
            && (forall o :: o != op ==> (o in w'.ops <==> o in w.ops))
            && (forall o :: o in w.ops ==> o in w'.ops)
            && (forall q :: q != planId ==> PlanStateOf(w', q) == PlanStateOf(w, q))
            && (forall q :: PlanIs(w, q, PlanFailed) ==> PlanIs(w', q, PlanFailed))
  {
  }

  lemma NextHead(w: World, m: Rec, pick: Path)
    requires m.todo != [] && m.todo[0] in m.copies
    ensures var r := AdvanceRec(w, m, pick);
            r.1.Some? ==>
              && r.1.value.copies == m.copies
              && (r.1.value.todo == m.todo
                  || (r.1.value.todo == m.todo[1..] && r.1.value.pc == Observe && r.1.value.obs == map[]))
  {
    hide Decide, Perform, Observed, Look;
  }

  lemma UndisturbedStep(w0: World, w: World, m: Rec, op: OpId, pick: Path)
    requires Undisturbed(w0, w, m, op) && m.todo != [] && m.todo[0] in m.copies
    requires AdvanceRec(w, m, pick).1.Some?
    ensures Undisturbed(w0, Perform(w, m.todo[0], AdvanceRec(w, m, pick).0), AdvanceRec(w, m, pick).1.value, op)
  {
    hide AdvanceRec, Perform, DecisionFor, PlanStateOf, PlanIs;
    NextHead(w, m, pick);
    EffectOfPass(w, m, pick);
    ElsewhereAsLeft(w, m.todo[0], m.copies[m.todo[0]].planId, AdvanceRec(w, m, pick).0);
    TailOf(m.todo);
    if m.todo[0] == op {
      if m.pc.Observe? || m.pc.ReadPlan? {
        HeadReads(w0, w, m, op, pick);
      } else if m.pc.WriteAmbiguous? || m.pc.FailCas? || m.pc.RecWriteFailed? {
        HeadFails(w0, w, m, op, pick);
      } else {
        HeadCompletes(w0, w, m, op, pick);
      }
    } else if op in m.todo {
      var y :| 0 <= y < |m.todo| && m.todo[y] == op;
      assert m.copies[m.todo[0]].planId != w0.receipts[op].planId;
    }
  }

  /** From `b` to `x`, nothing happened but one pass that began at `b`. */
  ghost predicate OnlyPass(acts: seq<Action>, b: nat, x: nat, k: PassId) {
    && b < x <= |acts| && acts[b].StartReconcile? && acts[b].pass == k
    && forall y :: b < y < x ==> acts[y].RecAdvance? && acts[y].pass == k
  }

  lemma {:induction false} PassSoFar(run: seq<State>, acts: seq<Action>, b: nat, x: nat, k: PassId, op: OpId)
    requires IsRun(run, acts) && OnlyPass(acts, b, x, k)
    requires op in run[b].w.receipts && Pending(run[b].w.receipts[op].state)
    requires NoRivalBefore(acts[b].order, run[b].w.receipts, op)
    requires k in run[x].passes
    ensures Undisturbed(run[b].w, run[x].w, run[x].passes[k], op)
  {
    hide Next, Inv, Undisturbed;
    StepOf(run, acts, x - 1);
    if x == b + 1 {
      PassBegins(run[b], acts[b], k, op);
    } else {
      RecMaps(run[x - 1], acts[x - 1]);
      PassSoFar(run, acts, b, x - 1, k, op);
      UndisturbedStep(run[b].w, run[x - 1].w, run[x - 1].passes[k], op, acts[x - 1].pick);
    }
  }

  lemma PassBegins(s: State, a: Action, k: PassId, op: OpId)
    requires Next(s, a).Some? && a.StartReconcile? && a.pass == k && op in s.w.receipts && Pending(s.w.receipts[op].state)
    requires NoRivalBefore(a.order, s.w.receipts, op)
    ensures var s' := Next(s, a).value; k in s'.passes && Undisturbed(s.w, s'.w, s'.passes[k], op)
  {
    hide Next, DecisionFor;
    Beginnings(s, a);
    assert op in Elements(a.order);
  }

  /** A pass takes up exactly the receipts in one of these six states. */
  lemma PassTakesUp(s: State, k: PassId, order: seq<OpId>)
    requires Next(s, StartReconcile(k, order)).Some?
    ensures forall op :: op in order <==>
              && op in s.w.receipts
              && s.w.receipts[op].state in
                   {Prepared, Snapshotted, Writing, FilesCommitted, RedisPending, ReconciliationRequired}
  {
    Beginnings(s, StartReconcile(k, order));
    hide Next;
    assert forall op :: op in order <==> op in Elements(order);
  }

  /**
    A pass with nothing else going on files each pending receipt under what the durable state called
    for when it began, and moves the plan accordingly. No receipt of the same plan may be listed
    before it: filing that one can move the plan.
   */
  lemma PassFilesDecision(run: seq<State>, acts: seq<Action>, b: nat, j: nat, k: PassId, op: OpId)
    requires IsRun(run, acts) && j < |acts| && OnlyPass(acts, b, j, k) && acts[j] == FinishReconcile(k)
    requires op in run[b].w.receipts && Pending(run[b].w.receipts[op].state)
    requires NoRivalBefore(acts[b].order, run[b].w.receipts, op)
    ensures op in run[j + 1].w.receipts && run[j + 1].w.files == run[b].w.files
    ensures run[j + 1].w.receipts[op].state == FiledAs(DecisionFor(run[b].w, op))
    ensures run[j + 1].w.plans.Keys == run[b].w.plans.Keys
    ensures PlanFollows(DecisionFor(run[b].w, op), run[j + 1].w, op, run[b].w.receipts[op].planId)
  {
    hide Next, Inv, DecisionFor, PlanFollows;
    StepOf(run, acts, j);
    Finishes(run[j], k);
    PassSoFar(run, acts, b, j, k, op);
  }

  /**
    After a crash inside the engine such a pass leaves the receipt failed when it was still an early
    one and no really changing file had been renamed, flagged when one had still to be and the
    receipt was late or another had been renamed, and completed otherwise.
   */
  lemma CrashThenPass(run: seq<State>, acts: seq<Action>, i: nat, j: nat, k: PassId, op: OpId)
    requires IsRun(run, acts) && j < |acts| && OnlyPass(acts, i + 1, j, k) && acts[j] == FinishReconcile(k)
    requires acts[i] == Crash && KilledInEngine(run[i], op) && NoRivalBefore(acts[i + 1].order, run[i].w.receipts, op)
    ensures op in run[i].w.receipts && op in run[j + 1].w.receipts && run[j + 1].w.files == run[i].w.files
    ensures var t := run[i].apply[op];
            var spec, early := run[i].specs[t.planId], EarlyReceipt(run[i].w.receipts[op]);
            run[j + 1].w.receipts[op].state ==
              (if early && !SomeDone(spec, t.count) then Failed
               else if SomeLeft(spec, t.count) then ReconciliationRequired
               else Completed)
  {
    hide Next, Inv, DecisionFor, SomeDone, SomeLeft, EarlyReceipt;
    StepOf(run, acts, i);
    CrashKeepsWorld(run[i]);
    CrashOutcome(run, acts, i, op);
    PassFilesDecision(run, acts, i + 1, j, k, op);
  }

  // ---------------------------------------------------------------- an operation that failed by itself

  /** The operation failed after its first rename, wrote the receipt that says so, and ended. */
  ghost predicate FailsLate(run: seq<State>, acts: seq<Action>, i: nat, op: OpId)
    requires |run| == |acts| + 1 && i + 1 < |acts|
  {
    && op in run[i].apply && InEngine(run[i].apply[op].pc) && run[i].apply[op].count > 0 && !run[i].apply[op].meddled
    && acts[i].Throw? && acts[i].op == op && acts[i + 1].Advance? && acts[i + 1].op == op
    && run[i].apply[op].planId in run[i].w.plans && run[i].apply[op].planId in run[i].specs
    && run[i].apply[op].count <= |run[i].specs[run[i].apply[op].planId].targets|
    && forall p :: p in run[i].specs[run[i].apply[op].planId].targets ==> p !in run[i].apply[op].edited
  }

  /** What the failing step and the receipt after it leave in the durable state. */
  ghost predicate LeftForReview(w0: World, w: World, specs: map<PlanId, Spec>, op: OpId, t: Thread)
    requires t.planId in specs
  {
    && op in w.receipts && w.receipts[op].state == ReconciliationRequired && w.receipts[op].failure != TransitionUncertain
    && w.receipts[op].planId == t.planId && w.receipts[op].targets == specs[t.planId].targets
    && w.receipts[op].expected == specs[t.planId].pre && w.receipts[op].committed == specs[t.planId].intended
    && w.files == w0.files && t.planId in w.plans
    && (op in w.ops ==> w.plans[t.planId].state == Applied) && (op !in w.ops ==> w.plans[t.planId].state == Applying)
  }

  /** The two steps, seen from the operation alone. */
  lemma LateFailure(w: World, specs: map<PlanId, Spec>, op: OpId, t: Thread, effect: bool, pick: Path)
    requires ThreadInv(w, specs, op, t) && InEngine(t.pc) && t.count > 0 && !t.meddled && WfSpec(specs[t.planId])
    requires t.planId in w.plans && (op in w.ops ==> w.plans[t.planId].state == Applied)
    ensures var r := ThrowThread(specs[t.planId], t, effect);
            var w1 := Perform(w, op, r.0);
            && r.1.Some? && r.1.value.planId == t.planId
            && var r2 := AdvanceThread(w1, specs[t.planId], op, r.1.value, pick);
               r2.1.None? && LeftForReview(w, Perform(w1, op, r2.0), specs, op, t)
  {
    var r := ThrowThread(specs[t.planId], t, effect);
    LateThrow(w, specs, op, t, effect);
    var w1, t1 := Perform(w, op, r.0), r.1.value;
    hide ThrowThread, ThreadInv, Perform;
    WritesReview(w, w1, specs, op, t, t1, pick);
  }

  /** After such a throw the operation is about to write a receipt for review. */
  ghost predicate AboutToReview(w: World, w1: World, specs: map<PlanId, Spec>, op: OpId, t: Thread, t1: Thread)
    requires t.planId in specs
  {
    && t1.planId == t.planId && (t1.pc.WriteReconcile? || t1.pc.WriteProjectionFailed?)
    && (t1.pc.WriteReconcile? ==> t1.pc.code != TransitionUncertain)
    && t1.receipt.planId == t.planId && t1.receipt.targets == specs[t.planId].targets
    && t1.receipt.expected == specs[t.planId].pre && t1.receipt.committed == specs[t.planId].intended
    && w1.files == w.files && t.planId in w1.plans
    && (op in w1.ops ==> w1.plans[t.planId].state == Applied) && (op !in w1.ops ==> w1.plans[t.planId].state == Applying)
  }

  lemma LateThrow(w: World, specs: map<PlanId, Spec>, op: OpId, t: Thread, effect: bool)
    requires ThreadInv(w, specs, op, t) && InEngine(t.pc) && t.count > 0 && !t.meddled && WfSpec(specs[t.planId])
    requires t.planId in w.plans && (op in w.ops ==> w.plans[t.planId].state == Applied)
    ensures var r := ThrowThread(specs[t.planId], t, effect);
            r.1.Some? && AboutToReview(w, Perform(w, op, r.0), specs, op, t, r.1.value)
  {
    hide FilesAt, ManagedBy, WfSpec;
  }

  lemma WritesReview(w: World, w1: World, specs: map<PlanId, Spec>, op: OpId, t: Thread, t1: Thread, pick: Path)
    requires t.planId in specs && AboutToReview(w, w1, specs, op, t, t1)
    ensures var r := AdvanceThread(w1, specs[t.planId], op, t1, pick);
            r.1.None? && LeftForReview(w, Perform(w1, op, r.0), specs, op, t)
  {
  }

  /**
    An operation that failed after its first rename, wherever it was, and wrote its receipt: a pass right
    after it completes the receipt and the plan when nothing that the plan changes was left to rename,
    and leaves the receipt for review otherwise.
   */
  lemma FailureThenPass(run: seq<State>, acts: seq<Action>, i: nat, j: nat, k: PassId, op: OpId)
    requires IsRun(run, acts) && j < |acts| && OnlyPass(acts, i + 2, j, k) && acts[j] == FinishReconcile(k)
    requires FailsLate(run, acts, i, op) && NoRivalBefore(acts[i + 2].order, run[i + 2].w.receipts, op)
    ensures op in run[j + 1].w.receipts && run[j + 1].w.files == run[i].w.files
    ensures var t := run[i].apply[op];
            var spec := run[i].specs[t.planId];
            if SomeLeft(spec, t.count) then run[j + 1].w.receipts[op].state == ReconciliationRequired
            else
              && run[j + 1].w.receipts[op].state == Completed
              && t.planId in run[j + 1].w.plans && run[j + 1].w.plans[t.planId] == Plan(Applied, Some(op))
              && op in run[j + 1].w.ops
  {
    hide Next, Inv, ThreadInv, AdvanceThread, ThrowThread, Perform, DecisionFor, SomeLeft, SomeDone, InEngine;
    var t := run[i].apply[op];
    var spec := run[i].specs[t.planId];
    StepOf(run, acts, i);
    StepOf(run, acts, i + 1);
    KnownThread(run[i], op);
    assert !t.pc.WritePrepared? by { NotFirst(t.pc); }
    ThreadMaps(run[i], acts[i]);
    LateFailure(run[i].w, run[i].specs, op, t, acts[i].effect, acts[i + 1].pick);
    ThreadMaps(run[i + 1], acts[i + 1]);
    EngineFiles(run[i], op);
    ReviewDecision(run[i].w, run[i + 2].w, run[i].specs, op, t);
    PassFilesDecision(run, acts, i + 2, j, k, op);
    if !SomeLeft(spec, t.count) {
      StepOf(run, acts, j);
      OpsNamePlans(run[j + 1], op);
      ReceiptPlans(run, acts, i + 2, j + 1, op);
    }
  }

  lemma NotFirst(pc: Pc)
    requires InEngine(pc)
    ensures !pc.WritePrepared?
  {
  }

  lemma EngineFiles(s: State, op: OpId)
    requires Inv(s) && op in s.apply && InEngine(s.apply[op].pc)
    ensures s.apply[op].planId in s.specs && s.apply[op].count <= |s.specs[s.apply[op].planId].targets|
    ensures FilesAt(s.w.files, s.specs[s.apply[op].planId], s.apply[op].count, s.apply[op].edited)
    ensures WfSpec(s.specs[s.apply[op].planId])
  {
    KnownThread(s, op);
  }

  lemma ReviewDecision(w0: World, w: World, specs: map<PlanId, Spec>, op: OpId, t: Thread)
    requires t.planId in specs && LeftForReview(w0, w, specs, op, t) && t.count > 0 && WfSpec(specs[t.planId])
    requires t.count <= |specs[t.planId].targets| && FilesAt(w0.files, specs[t.planId], t.count, t.edited)
    requires forall p :: p in specs[t.planId].targets ==> p !in t.edited
    ensures Pending(w.receipts[op].state)
    ensures FiledAs(DecisionFor(w, op)) == if SomeLeft(specs[t.planId], t.count) then ReconciliationRequired else Completed
    ensures !SomeLeft(specs[t.planId], t.count) ==> DecisionFor(w, op).FinishPlan? || DecisionFor(w, op).FinishReceipt?
  {
    hide Decide, Matches, Unchanged, FilesAt, SomeDone, SomeLeft;
    var spec := specs[t.planId];
    ObservedByCount(w, spec, t);
    DecisionByCount(w.receipts[op], spec, ObserveAll(w.files, spec.targets), t.count, w.plans[t.planId].state, op in w.ops);
  }

  /** A receipt keeps naming its plan. */
  lemma {:induction false} ReceiptPlans(run: seq<State>, acts: seq<Action>, i: nat, j: nat, op: OpId)
    requires IsRun(run, acts) && i <= j < |run| && op in run[i].w.receipts
    ensures op in run[j].w.receipts && run[j].w.receipts[op].planId == run[i].w.receipts[op].planId
    decreases j
  {
    if i < j {
      ReceiptPlans(run, acts, i, j - 1, op);
      ReceiptPlanKeptAt(run, acts, j - 1, op);
    }
  }

  lemma ReceiptPlanKeptAt(run: seq<State>, acts: seq<Action>, i: nat, op: OpId)
    requires IsRun(run, acts) && i < |acts| && op in run[i].w.receipts
    ensures op in run[i + 1].w.receipts && run[i + 1].w.receipts[op].planId == run[i].w.receipts[op].planId
  {
    hide Next, Inv;
    StepOf(run, acts, i);
    ReceiptPlanKept(run[i], acts[i], op);
  }

  lemma ReceiptPlanKept(s: State, a: Action, op: OpId)
    requires Inv(s) && Next(s, a).Some? && op in s.w.receipts
    ensures op in Next(s, a).value.w.receipts && Next(s, a).value.w.receipts[op].planId == s.w.receipts[op].planId
  {
    hide AdvanceThread, ThrowThread, AdvanceRec, ThrowRec, HeadInv, PassInv, WfSpec, Perform;
    if a.Advance? || a.Throw? {
      ThreadMaps(s, a);
      KnownThread(s, a.op);
      OnlyPutReceipt(s.w, a.op, ThreadStep(s, a).0, op);
      OwnReceiptPlan(s.w, s.specs, a.op, s.apply[a.op], a);
    } else if ByReconcile(a) {
      RecMaps(s, a);
      HeadKnown(s, a.pass);
      var m := s.passes[a.pass];
      OnlyPutReceipt(s.w, m.todo[0], RecStep(s, a).0, op);
      PassReceiptPlan(s.w, m, a);
    } else {
      QuietAction(s, a);
    }
  }

  lemma OwnReceiptPlan(w: World, specs: map<PlanId, Spec>, op: OpId, t: Thread, a: Action)
    requires (a.Advance? || a.Throw?) && ThreadInv(w, specs, op, t)
    ensures var e := (if a.Advance? then AdvanceThread(w, specs[t.planId], op, t, a.pick) else ThrowThread(specs[t.planId], t, a.effect)).0;
            e.PutReceipt? && op in w.receipts ==> e.receipt.planId == w.receipts[op].planId
  {
    hide FilesAt, ManagedBy, Look, PreconditionsHold;
  }

  lemma PassReceiptPlan(w: World, m: Rec, a: Action)
    requires ByReconcile(a) && m.todo != [] && m.todo[0] in m.copies
    ensures var e := (if a.RecAdvance? then AdvanceRec(w, m, a.pick) else ThrowRec(m, a.effect)).0;
            e.PutReceipt? ==> e.receipt.planId == m.copies[m.todo[0]].planId
  {
    hide Decide, Observed, Look;
  }

  // ---------------------------------------------------------------- an approval that may have been used

  /**
    The compare-and-set that takes the plan threw, or found it taken; the operation wrote its receipt and
    ended. A pass right after it fails the receipt exactly when every target is at its precondition and
    the plan approved or applying, and then an applying plan too.
   */
  lemma UncertainThenPass(run: seq<State>, acts: seq<Action>, i: nat, j: nat, k: PassId, op: OpId)
    requires IsRun(run, acts) && j < |acts| && OnlyPass(acts, i + 2, j, k) && acts[j] == FinishReconcile(k)
    requires op in run[i].apply && run[i].apply[op].pc == Cas && !run[i].apply[op].meddled
    requires (acts[i].Throw? || acts[i].Advance?) && acts[i].op == op && acts[i + 1].Advance? && acts[i + 1].op == op
    requires op !in run[i + 2].apply && NoRivalBefore(acts[i + 2].order, run[i + 2].w.receipts, op)
    requires run[i].apply[op].planId in run[i + 2].w.plans && run[i].apply[op].planId in run[i].specs
    ensures op in run[j + 1].w.receipts && run[j + 1].w.files == run[i].w.files
    ensures var q := run[i].apply[op].planId;
            var spec, st := run[i].specs[q], run[i + 2].w.plans[q].state;
            var untouched := TargetsAt(run[i].w.files, spec.targets, spec.pre, {});
            var absent := forall p :: p in spec.targets ==> p !in run[i].w.files;
            && (run[j + 1].w.receipts[op].state == Failed <==> untouched && (st == Applying || st == Approved))
            && (run[j + 1].w.receipts[op].state == Completed <==> !untouched && st == Applying && absent)
            && (untouched && st == Applying ==> PlanIs(run[j + 1].w, q, PlanFailed))
  {
    hide Next, Inv, ThreadInv, AdvanceThread, ThrowThread, Perform, DecisionFor;
    var t := run[i].apply[op];
    StepOf(run, acts, i);
    StepOf(run, acts, i + 1);
    KnownThread(run[i], op);
    EarlyReceiptKnown(run[i].w, run[i].specs, op, t);
    ThreadMaps(run[i], acts[i]);
    CasUncertain(run[i].w, run[i].specs[t.planId], op, t, acts[i], acts[i + 1].pick);
    ThreadMaps(run[i + 1], acts[i + 1]);
    UncertainDecision(run[i + 2].w.receipts[op], run[i].specs[t.planId], run[i + 2].w, op);
    PassFilesDecision(run, acts, i + 2, j, k, op);
  }

  /** Only a compare-and-set that was not granted leads to an end in two steps. */
  lemma CasUncertain(w: World, spec: Spec, op: OpId, t: Thread, a: Action, pick: Path)
    requires t.pc == Cas && (a.Advance? || a.Throw?) && op in w.receipts && op !in w.ops && a.op == op
    ensures var r := if a.Advance? then AdvanceThread(w, spec, op, t, a.pick) else ThrowThread(spec, t, a.effect);
            && r.1.Some? && r.1.value.planId == t.planId
            && var w1 := Perform(w, op, r.0);
               var r2 := AdvanceThread(w1, spec, op, r.1.value, pick);
               r2.1.None? ==>
                 var w2 := Perform(w1, op, r2.0);
                 && op in w2.receipts && w2.receipts[op] == Uncertain(t.receipt, TransitionUncertain)
                 && w2.files == w.files && op !in w2.ops
  {
    hide Look, PreconditionsHold;
  }

  lemma UncertainDecision(r: Receipt, spec: Spec, w: World, op: OpId)
    requires r.state == ReconciliationRequired && r.failure == TransitionUncertain && r.committed == map[]
    requires r.targets == spec.targets && r.expected == spec.pre && r.planId in w.plans && op !in w.ops
    requires op in w.receipts && w.receipts[op] == r
    ensures Pending(r.state)
    ensures var d := DecisionFor(w, op);
            var st := w.plans[r.planId].state;
            var untouched := TargetsAt(w.files, spec.targets, spec.pre, {});
            && (d.MarkFailed? <==> untouched && (st == Applying || st == Approved))
            && (d == MarkFailed(true) <==> untouched && st == Applying)
            && (d.FinishPlan? <==> !untouched && st == Applying && forall p :: p in spec.targets ==> p !in w.files)
            && !d.FinishReceipt?
  {
    var obs := ObserveAll(w.files, r.targets);
    MatchMeaning(r.committed, r.targets, w.files);
    assert Unchanged(r, obs) <==> TargetsAt(w.files, spec.targets, spec.pre, {}) by {
      assert forall p :: p in r.targets ==> p in obs && Look(obs, p) == Observed(w.files, p);
    }
  }

  lemma Finishes(s: State, k: PassId)
    requires Next(s, FinishReconcile(k)).Some?
    ensures k in s.passes && s.passes[k].todo == [] && Next(s, FinishReconcile(k)).value.w == s.w
  {
  }
}
